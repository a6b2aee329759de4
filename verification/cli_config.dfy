/**
 * The command-line client's configuration: loading it at start-up, merging an
 * update into the file's current contents, the public view shown to users,
 * and the API client attached to it.
 *
 * The file system is not modelled: what a read, a directory probe, a mkdir or
 * a write returns is a parameter.
 */
module CliConfig {
  import opened Wrappers

  const DefaultOutputFolder := "built"
  const NotConnected := "you are not connected to any API"

  /**
   * The REST client settings. Each pointer-valued setting is an Option whose
   * payload stands for the referenced settings; an empty header map stands
   * for a nil or empty one.
   */
  datatype RestConfig = RestConfig(
    tlsConfig: Option<string>,
    url: Option<string>,
    authorization: Option<string>,
    oauth: Option<string>,
    basicAuth: Option<string>,
    nativeAuth: Option<string>,
    headers: map<string, string>)

  const EmptyRest := RestConfig(None, None, None, None, None, None, map[])

  /** Dashboard-as-code settings. */
  datatype Dac = Dac(outputFolder: string)

  /** What the configuration file holds: the exported fields of a configuration. */
  datatype FileContent = FileContent(restClientConfig: RestConfig, project: string, refreshToken: string, dac: Dac)

  const EmptyContent := FileContent(EmptyRest, "", "", Dac(""))

  /** A connected API client (its behaviour is not part of this model). */
  datatype ApiClient = ApiClient(handle: nat)

  /** A secret that is shown hidden. */
  datatype Hidden = Hidden(secret: string)

  /** The configuration as shown to users; `P` is the public form of the REST settings. */
  datatype PublicConfig<P> = PublicConfig(restClientConfig: P, project: string, refreshToken: Hidden, dac: Dac)

  class Config {
    var restClientConfig: RestConfig
    var project: string
    var refreshToken: string
    var dac: Dac
    var filePath: string
    var apiClient: Option<ApiClient>

    /** A configuration decoded from `content`, with no path and no client. */
    constructor (content: FileContent)
      ensures Exported() == content && filePath == "" && apiClient == None
    {
      restClientConfig := content.restClientConfig;
      project := content.project;
      refreshToken := content.refreshToken;
      dac := content.dac;
      filePath := "";
      apiClient := None;
    }

    /** The fields written to the configuration file. */
    function Exported(): FileContent
      reads this
    {
      FileContent(restClientConfig, project, refreshToken, dac)
    }

    /** Attaches the client built from the REST settings, unless building it failed. */
    method InitClient(restClient: Result<ApiClient, string>) returns (err: Option<string>)
      modifies this`apiClient
      ensures restClient.Success? ==> err == None && apiClient == Some(restClient.value)
      ensures restClient.Failure? ==> err == Some(restClient.error) && apiClient == old(apiClient)
    {
      if restClient.Failure? {
        return Some(restClient.error);
      }
      apiClient := Some(restClient.value);
      return None;
    }

    /** The attached client; fails exactly when none is attached. */
    function GetAPIClient(): (r: Result<ApiClient, string>)
      reads this
      ensures r.Success? <==> apiClient.Some?
      ensures r.Success? ==> r.value == apiClient.value
      ensures r.Failure? ==> r.error == NotConnected
    {
      if apiClient.Some? then Success(apiClient.value) else Failure(NotConnected)
    }

    /** Attaches `client` (None detaches); a later GetAPIClient returns it. */
    method SetAPIClient(client: Option<ApiClient>)
      modifies this`apiClient
      ensures apiClient == client
      ensures client.Some? ==> GetAPIClient() == Success(client.value)
      ensures client.None? ==> GetAPIClient() == Failure(NotConnected)
    {
      apiClient := client;
    }

    method SetFilePath(path: string)
      modifies this`filePath
      ensures filePath == path
    {
      filePath := path;
    }
  }

  /**
   * Start-up: the configuration read from `configPath`, or an empty one when
   * reading fails; a client is attached when one can be built from a
   * configuration that was read. The path is recorded, and an empty output
   * folder becomes "built".
   */
  method Init(configPath: string, read: Result<FileContent, string>, restClient: Result<ApiClient, string>)
    returns (global: Config)
    ensures fresh(global)
    ensures global.filePath == configPath
    ensures var loaded := if read.Success? then read.value else EmptyContent;
            && global.restClientConfig == loaded.restClientConfig
            && global.project == loaded.project
            && global.refreshToken == loaded.refreshToken
            && global.dac.outputFolder == (if loaded.dac.outputFolder == "" then DefaultOutputFolder else loaded.dac.outputFolder)
    ensures global.dac.outputFolder != ""
    ensures global.apiClient == (if read.Success? && restClient.Success? then Some(restClient.value) else None)
  {
    if read.Failure? {
      global := new Config(EmptyContent);
    } else {
      global := new Config(read.value);
      var _ := global.InitClient(restClient);
    }
    global.SetFilePath(configPath);
    if |global.dac.outputFolder| == 0 {
      global.dac := Dac(DefaultOutputFolder);
    }
  }

  /** The view of a configuration shown to users: nil stays nil, the refresh token is hidden. */
  function NewPublicConfig<P>(cfg: Config?, publicRest: RestConfig -> P): (r: Option<PublicConfig<P>>)
    reads cfg
    ensures r.None? <==> cfg == null
    ensures r.Some? ==> && r.value.restClientConfig == publicRest(cfg.restClientConfig)
                        && r.value.project == cfg.project
                        && r.value.dac == cfg.dac
                        && r.value.refreshToken == Hidden(cfg.refreshToken)
  {
    if cfg == null then None
    else Some(PublicConfig(publicRest(cfg.restClientConfig), cfg.project, Hidden(cfg.refreshToken), cfg.dac))
  }

  // ---------------------------------------------------------------------------
  // Write
  // ---------------------------------------------------------------------------

  /**
   * An update merged into the file's previous contents. The REST settings are
   * considered only when the update's are not all unset; then each pointer
   * setting is taken when set and the headers when non-empty. The project and
   * refresh token are taken when non-empty. The dac settings are never taken.
   */
  function Merge(previous: FileContent, update: FileContent): (r: FileContent)
    ensures var p, u := previous.restClientConfig, update.restClientConfig;
            && r.restClientConfig.tlsConfig == (if u.tlsConfig.Some? then u.tlsConfig else p.tlsConfig)
            && r.restClientConfig.url == (if u.url.Some? then u.url else p.url)
            && r.restClientConfig.authorization == (if u.authorization.Some? then u.authorization else p.authorization)
            && r.restClientConfig.oauth == (if u.oauth.Some? then u.oauth else p.oauth)
            && r.restClientConfig.basicAuth == (if u.basicAuth.Some? then u.basicAuth else p.basicAuth)
            && r.restClientConfig.nativeAuth == (if u.nativeAuth.Some? then u.nativeAuth else p.nativeAuth)
            && r.restClientConfig.headers == (if |u.headers| > 0 then u.headers else p.headers)
    ensures r.project == (if update.project != "" then update.project else previous.project)
    ensures r.refreshToken == (if update.refreshToken != "" then update.refreshToken else previous.refreshToken)
    ensures r.dac == previous.dac
  {
    var u := update.restClientConfig;
    var rest :=
      if u == EmptyRest then previous.restClientConfig
      else
        var p := previous.restClientConfig;
        RestConfig(
          if u.tlsConfig != None then u.tlsConfig else p.tlsConfig,
          if u.url != None then u.url else p.url,
          if u.authorization != None then u.authorization else p.authorization,
          if u.oauth != None then u.oauth else p.oauth,
          if u.basicAuth != None then u.basicAuth else p.basicAuth,
          if u.nativeAuth != None then u.nativeAuth else p.nativeAuth,
          if |u.headers| > 0 then u.headers else p.headers);
    FileContent(
      rest,
      if |update.project| > 0 then update.project else previous.project,
      if |update.refreshToken| > 0 then update.refreshToken else previous.refreshToken,
      previous.dac)
  }

  /**
   * What Write puts in the file: the update merged into the previous contents
   * when they could be read (a nil update leaves them as they are), otherwise
   * the update itself (None is the encoding of a nil configuration).
   */
  function WriteContent(update: Option<FileContent>, previous: Result<FileContent, string>): (r: Option<FileContent>)
    ensures previous.Success? && update.None? ==> r == Some(previous.value)
    ensures previous.Failure? ==> r == update
    ensures previous.Success? && update.Some? ==> r == Some(Merge(previous.value, update.value))
  {
    match previous
    case Failure(_) => update
    case Success(p) => if update.Some? then Some(Merge(p, update.value)) else Some(p)
  }

  /** What probing the configuration's directory found. */
  datatype DirStat = DirPresent | DirMissing(statError: string) | DirStatFailed(statError: string)

  /**
   * The directory step as the code is written: when the directory is missing
   * and creating it fails, the probe's error is reported, not the mkdir's.
   */
  function PrepareDirectoryAsWritten(stat: DirStat, mkdirFailure: Option<string>): (r: Option<string>)
    ensures stat.DirMissing? && mkdirFailure.Some? ==> r == Some(stat.statError)
    ensures stat.DirMissing? && mkdirFailure.None? ==> r == None
    ensures stat.DirPresent? ==> r == None
    ensures stat.DirStatFailed? ==> r == Some(stat.statError)
  {
    match stat
    case DirPresent => None
    case DirMissing(statError) => if mkdirFailure.Some? then Some(statError) else None
    case DirStatFailed(statError) => Some(statError)
  }

  /** The directory step as intended: a failed mkdir reports its own error. */
  function PrepareDirectory(stat: DirStat, mkdirFailure: Option<string>): (r: Option<string>)
    ensures stat.DirMissing? ==> r == mkdirFailure
    ensures stat.DirPresent? ==> r == None
    ensures stat.DirStatFailed? ==> r == Some(stat.statError)
  {
    match stat
    case DirPresent => None
    case DirMissing(_) => mkdirFailure
    case DirStatFailed(statError) => Some(statError)
  }

  /** Both versions fail in exactly the same cases; only the reported reason differs. */
  lemma PrepareDirectoryFailsAlike(stat: DirStat, mkdirFailure: Option<string>)
    ensures PrepareDirectoryAsWritten(stat, mkdirFailure).Some? <==> PrepareDirectory(stat, mkdirFailure).Some?
    ensures !(stat.DirMissing? && mkdirFailure.Some?) ==>
              PrepareDirectoryAsWritten(stat, mkdirFailure) == PrepareDirectory(stat, mkdirFailure)
  {
  }

  /** A missing directory that cannot be created is reported with the probe's "not found" error. */
  lemma MkdirFailureReportsStatError()
    ensures var stat := DirMissing("stat /home/u/.perses: no such file or directory");
            var mkdir := Some("mkdir /home/u/.perses: permission denied");
            && PrepareDirectoryAsWritten(stat, mkdir) == Some("stat /home/u/.perses: no such file or directory")
            && PrepareDirectoryAsWritten(stat, mkdir) != mkdir
            && PrepareDirectory(stat, mkdir) == mkdir
  {
  }

  /**
   * Write, with the corrected directory step: prepare the directory, compute the
   * new contents, write them. The result is the error that stopped it or the
   * contents written.
   */
  function Write(update: Option<FileContent>, stat: DirStat, mkdirFailure: Option<string>,
                 previous: Result<FileContent, string>, writeFailure: Option<string>): (r: Result<Option<FileContent>, string>)
    ensures PrepareDirectory(stat, mkdirFailure).Some? ==> r == Failure(PrepareDirectory(stat, mkdirFailure).value)
    ensures PrepareDirectory(stat, mkdirFailure).None? && writeFailure.Some? ==> r == Failure(writeFailure.value)
    ensures r.Success? <==> PrepareDirectory(stat, mkdirFailure).None? && writeFailure.None?
    ensures r.Success? ==> r.value == WriteContent(update, previous)
  {
    match PrepareDirectory(stat, mkdirFailure)
    case Some(err) => Failure(err)
    case None =>
      var content := WriteContent(update, previous);
      if writeFailure.Some? then Failure(writeFailure.value) else Success(content)
  }

  /**
   * Write as the code is written: the same steps, with the directory step that
   * reports the probe's error when mkdir fails.
   */
  function WriteAsWritten(update: Option<FileContent>, stat: DirStat, mkdirFailure: Option<string>,
                          previous: Result<FileContent, string>, writeFailure: Option<string>): (r: Result<Option<FileContent>, string>)
    ensures stat.DirMissing? && mkdirFailure.Some? ==> r == Failure(stat.statError)
    ensures stat.DirStatFailed? ==> r == Failure(stat.statError)
    ensures PrepareDirectoryAsWritten(stat, mkdirFailure).None? && writeFailure.Some? ==> r == Failure(writeFailure.value)
    ensures r.Success? <==> PrepareDirectoryAsWritten(stat, mkdirFailure).None? && writeFailure.None?
    ensures r.Success? ==> r.value == WriteContent(update, previous)
  {
    match PrepareDirectoryAsWritten(stat, mkdirFailure)
    case Some(err) => Failure(err)
    case None =>
      var content := WriteContent(update, previous);
      if writeFailure.Some? then Failure(writeFailure.value) else Success(content)
  }

  /**
   * The written Write and the corrected one fail on the same inputs and write the
   * same contents; they differ only in the error reported for a failed mkdir.
   */
  lemma WriteDiffersOnlyInMkdirError(update: Option<FileContent>, stat: DirStat, mkdirFailure: Option<string>,
                                     previous: Result<FileContent, string>, writeFailure: Option<string>)
    ensures WriteAsWritten(update, stat, mkdirFailure, previous, writeFailure).Success?
            <==> Write(update, stat, mkdirFailure, previous, writeFailure).Success?
    ensures !(stat.DirMissing? && mkdirFailure.Some?) ==>
              WriteAsWritten(update, stat, mkdirFailure, previous, writeFailure)
              == Write(update, stat, mkdirFailure, previous, writeFailure)
    ensures stat.DirMissing? && mkdirFailure.Some? ==>
              && WriteAsWritten(update, stat, mkdirFailure, previous, writeFailure) == Failure(stat.statError)
              && Write(update, stat, mkdirFailure, previous, writeFailure) == Failure(mkdirFailure.value)
  {
    PrepareDirectoryFailsAlike(stat, mkdirFailure);
  }

  /** The update SetProject writes: only the project is set. */
  function ProjectUpdate(project: string): FileContent
  {
    EmptyContent.(project := project)
  }

  /** The update SetAccessToken writes: only the authorization is set, to a bearer token. */
  function AccessTokenUpdate(bearer: string): FileContent
  {
    EmptyContent.(restClientConfig := EmptyRest.(authorization := Some(bearer)))
  }

  // ---------------------------------------------------------------------------
  // What the merge means
  // ---------------------------------------------------------------------------

  /** An update that sets nothing leaves the previous contents as they are. */
  lemma MergeEmptyIsIdentity(previous: FileContent)
    ensures Merge(previous, EmptyContent) == previous
  {
  }

  /** Merging two updates one after the other is merging their merge. */
  lemma MergeAssociative(previous: FileContent, a: FileContent, b: FileContent)
    ensures Merge(Merge(previous, a), b) == Merge(previous, Merge(a, b))
  {
  }

  /** Applying the same update twice is applying it once. */
  lemma MergeIdempotent(previous: FileContent, update: FileContent)
    ensures Merge(Merge(previous, update), update) == Merge(previous, update)
  {
  }

  /** Two successive writes over a readable file leave what one write of the merged updates leaves. */
  lemma WritesCompose(previous: FileContent, a: FileContent, b: FileContent)
    ensures WriteContent(Some(b), Success(WriteContent(Some(a), Success(previous)).value))
            == WriteContent(Some(Merge(a, b)), Success(previous))
  {
    MergeAssociative(previous, a, b);
  }

  /** SetProject changes the project and nothing else, when the project is non-empty. */
  lemma SetProjectOnlyChangesProject(previous: FileContent, project: string)
    requires project != ""
    ensures WriteContent(Some(ProjectUpdate(project)), Success(previous)) == Some(previous.(project := project))
  {
  }

  /** SetAccessToken changes the authorization and nothing else. */
  lemma SetAccessTokenOnlyChangesAuthorization(previous: FileContent, bearer: string)
    ensures WriteContent(Some(AccessTokenUpdate(bearer)), Success(previous))
            == Some(previous.(restClientConfig := previous.restClientConfig.(authorization := Some(bearer))))
  {
  }
}
