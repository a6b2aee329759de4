/**
 * The role service: request validation in front of the role DAO, and the rule
 * that the authorizer's permission cache is refreshed once after every
 * successful mutation and never otherwise.
 *
 * The DAO and the authorizer are collaborators whose code is not part of this
 * model. The service records every call it makes to them; their answers are
 * parameters of the service's methods.
 */
module RoleService {
  import opened Wrappers

  /** Creation and update times, and the version counter, of a role. */
  datatype Stamp = Stamp(createdAt: int, updatedAt: int, version: nat)

  datatype RoleMetadata = RoleMetadata(project: string, name: string, stamp: Stamp)

  /** A role: its metadata and its (uninterpreted) permission specification. */
  datatype Role = Role(metadata: RoleMetadata, spec: string)

  /** The project and name taken from the HTTP path. */
  datatype Parameters = Parameters(project: string, name: string)

  /** A list query: a name prefix and a project filter (empty means "none given"). */
  datatype Query = Query(namePrefix: string, project: string)

  /** Errors: a rejected request, or whatever the DAO answered, passed on as is. */
  datatype Error = BadRequest(message: string) | DaoError(cause: string)

  const NameMismatch := "metadata.name and the name in the http path request don't match"
  const ProjectMismatch := "metadata.project and the project name in the http path request don't match"

  /** One call the service made to a collaborator, with its outcome where the service looks at it. */
  datatype Call =
    | DaoCreate(role: Role, succeeded: bool)
    | DaoUpdate(role: Role, succeeded: bool)
    | DaoDelete(project: string, name: string, succeeded: bool)
    | DaoGet(project: string, name: string)
    | DaoList(query: Query)
    | DaoRawList(query: Query)
    | DaoMetadataList(query: Query)
    | DaoRawMetadataList(query: Query)
    | RefreshPermissions(succeeded: bool)

  predicate IsMutation(c: Call) {
    c.DaoCreate? || c.DaoUpdate? || c.DaoDelete?
  }

  predicate SuccessfulMutation(c: Call) {
    IsMutation(c) && c.succeeded
  }

  /**
   * The refresh discipline, as a grammar over the call record: every successful
   * mutation is immediately followed by exactly one refresh, and a refresh
   * appears nowhere else.
   */
  predicate Disciplined(calls: seq<Call>)
    decreases |calls|
  {
    if calls == [] then true
    else if SuccessfulMutation(calls[0]) then
      |calls| >= 2 && calls[1].RefreshPermissions? && Disciplined(calls[2..])
    else
      !calls[0].RefreshPermissions? && Disciplined(calls[1..])
  }

  /** Two disciplined records one after the other form a disciplined record. */
  lemma {:induction false} DisciplinedAppend(a: seq<Call>, b: seq<Call>)
    requires Disciplined(a) && Disciplined(b)
    ensures Disciplined(a + b)
    decreases |a|
  {
    if a != [] {
      var ab := a + b;
      assert ab[0] == a[0];
      if SuccessfulMutation(a[0]) {
        DisciplinedAppend(a[2..], b);
        assert ab[1] == a[1];
        assert ab[2..] == a[2..] + b;
      } else {
        DisciplinedAppend(a[1..], b);
        assert ab[1..] == a[1..] + b;
      }
    } else {
      assert a + b == b;
    }
  }

  /** The query a list operation hands the DAO: the project from the path fills an empty filter. */
  function ManageQuery(q: Query, params: Parameters): (r: Query)
    ensures r.namePrefix == q.namePrefix
    ensures q.project != "" ==> r.project == q.project
    ensures q.project == "" ==> r.project == params.project
  {
    if |q.project| == 0 then q.(project := params.project) else q
  }

  /** The role Update writes: the project is defaulted from the path, the stamp derived from the stored one. */
  function Updated(entity: Role, parameters: Parameters, previous: Role, restamp: Stamp -> Stamp): Role
  {
    Role(RoleMetadata(parameters.project, entity.metadata.name, restamp(previous.metadata.stamp)), entity.spec)
  }

  class Service {
    /** Every call made so far to the DAO and to the authorizer, in order. */
    var calls: seq<Call>

    constructor ()
      ensures calls == []
    {
      calls := [];
    }

    predicate Valid()
      reads this
    {
      Disciplined(calls)
    }

    /** Records a mutation's outcome and, when it succeeded, the refresh that follows it. */
    method RecordMutation(call: Call, refreshFailure: Option<string>)
      requires Valid() && IsMutation(call)
      modifies this
      ensures Valid()
      ensures calls == old(calls) + (if call.succeeded then [call, RefreshPermissions(refreshFailure.None?)] else [call])
    {
      var segment := if call.succeeded then [call, RefreshPermissions(refreshFailure.None?)] else [call];
      assert Disciplined(segment) by {
        if call.succeeded {
          assert segment[2..] == [];
        } else {
          assert segment[1..] == [];
        }
      }
      DisciplinedAppend(calls, segment);
      calls := calls + segment;
    }

    /** Records a read, which never triggers a refresh. */
    method RecordRead(call: Call)
      requires Valid() && !IsMutation(call) && !call.RefreshPermissions?
      modifies this
      ensures Valid()
      ensures calls == old(calls) + [call]
    {
      assert [call][1..] == [];
      DisciplinedAppend(calls, [call]);
      calls := calls + [call];
    }

    /**
     * Creates a role stamped `now`. A DAO failure is returned unchanged and
     * nothing is refreshed; on success the permissions are refreshed once and
     * the stored role is returned, even when the refresh fails.
     */
    method Create(entity: Role, now: Stamp, daoFailure: Option<Error>, refreshFailure: Option<string>)
      returns (r: Result<Role, Error>)
      requires Valid()
      modifies this
      ensures Valid()
      ensures var stored := entity.(metadata := entity.metadata.(stamp := now));
              && (daoFailure.Some? ==>
                    r == Failure(daoFailure.value) && calls == old(calls) + [DaoCreate(stored, false)])
              && (daoFailure.None? ==>
                    r == Success(stored)
                    && calls == old(calls) + [DaoCreate(stored, true), RefreshPermissions(refreshFailure.None?)])
    {
      var copy := entity;
      copy := copy.(metadata := copy.metadata.(stamp := now));
      RecordMutation(DaoCreate(copy, daoFailure.None?), refreshFailure);
      if daoFailure.Some? {
        return Failure(daoFailure.value);
      }
      return Success(copy);
    }

    /**
     * Replaces the role named by the path. The name must match the path; an
     * empty project takes the path's, a different one is rejected; both checks
     * come before any collaborator call. The stored role is fetched next: its
     * failure is returned with no update and no refresh. A failed update is
     * returned with no refresh; a successful one is followed by exactly one
     * refresh, whose failure is swallowed.
     */
    method Update(entity: Role, parameters: Parameters, previous: Result<Role, Error>, restamp: Stamp -> Stamp,
                  daoFailure: Option<Error>, refreshFailure: Option<string>)
      returns (r: Result<Role, Error>)
      requires Valid()
      modifies this
      ensures Valid()
      ensures entity.metadata.name != parameters.name ==>
                r == Failure(BadRequest(NameMismatch)) && calls == old(calls)
      ensures entity.metadata.name == parameters.name && entity.metadata.project != ""
              && entity.metadata.project != parameters.project ==>
                r == Failure(BadRequest(ProjectMismatch)) && calls == old(calls)
      ensures entity.metadata.name == parameters.name
              && (entity.metadata.project == "" || entity.metadata.project == parameters.project) ==>
                var get := DaoGet(parameters.project, parameters.name);
                && (previous.Failure? ==> r == Failure(previous.error) && calls == old(calls) + [get])
                && (previous.Success? ==>
                      var stored := Updated(entity, parameters, previous.value, restamp);
                      && (daoFailure.Some? ==>
                            r == Failure(daoFailure.value) && calls == old(calls) + [get, DaoUpdate(stored, false)])
                      && (daoFailure.None? ==>
                            r == Success(stored)
                            && calls == old(calls) + [get, DaoUpdate(stored, true), RefreshPermissions(refreshFailure.None?)]))
      ensures r.Success? ==> r.value.metadata.project == parameters.project && r.value.metadata.name == parameters.name
    {
      var copy := entity;
      if copy.metadata.name != parameters.name {
        return Failure(BadRequest(NameMismatch));
      }
      if |copy.metadata.project| == 0 {
        copy := copy.(metadata := copy.metadata.(project := parameters.project));
      } else if copy.metadata.project != parameters.project {
        return Failure(BadRequest(ProjectMismatch));
      }
      RecordRead(DaoGet(parameters.project, parameters.name));
      if previous.Failure? {
        return Failure(previous.error);
      }
      copy := copy.(metadata := copy.metadata.(stamp := restamp(previous.value.metadata.stamp)));
      assert copy == Updated(entity, parameters, previous.value, restamp);
      RecordMutation(DaoUpdate(copy, daoFailure.None?), refreshFailure);
      if daoFailure.Some? {
        return Failure(daoFailure.value);
      }
      return Success(copy);
    }

    /** Deletes the role named by the path, refreshing once on success only. */
    method Delete(parameters: Parameters, daoFailure: Option<Error>, refreshFailure: Option<string>)
      returns (err: Option<Error>)
      requires Valid()
      modifies this
      ensures Valid()
      ensures err == daoFailure
      ensures var call := DaoDelete(parameters.project, parameters.name, daoFailure.None?);
              calls == old(calls) + (if daoFailure.None? then [call, RefreshPermissions(refreshFailure.None?)] else [call])
    {
      RecordMutation(DaoDelete(parameters.project, parameters.name, daoFailure.None?), refreshFailure);
      return daoFailure;
    }

    /** Reads one role; the DAO's answer is returned as is and nothing is refreshed. */
    method Get(parameters: Parameters, answer: Result<Role, Error>) returns (r: Result<Role, Error>)
      requires Valid()
      modifies this
      ensures Valid()
      ensures r == answer
      ensures calls == old(calls) + [DaoGet(parameters.project, parameters.name)]
    {
      RecordRead(DaoGet(parameters.project, parameters.name));
      return answer;
    }

    /** Lists roles with the managed query; nothing is refreshed. */
    method List(q: Query, params: Parameters, answer: Result<seq<Role>, Error>) returns (r: Result<seq<Role>, Error>)
      requires Valid()
      modifies this
      ensures Valid()
      ensures r == answer
      ensures calls == old(calls) + [DaoList(ManageQuery(q, params))]
    {
      var query := ManageQuery(q, params);
      RecordRead(DaoList(query));
      return answer;
    }

    /** Lists the stored documents with the managed query; nothing is refreshed. */
    method RawList(q: Query, params: Parameters, answer: Result<seq<string>, Error>) returns (r: Result<seq<string>, Error>)
      requires Valid()
      modifies this
      ensures Valid()
      ensures r == answer
      ensures calls == old(calls) + [DaoRawList(ManageQuery(q, params))]
    {
      var query := ManageQuery(q, params);
      RecordRead(DaoRawList(query));
      return answer;
    }

    /** Lists role metadata with the managed query; nothing is refreshed. */
    method MetadataList(q: Query, params: Parameters, answer: Result<seq<RoleMetadata>, Error>)
      returns (r: Result<seq<RoleMetadata>, Error>)
      requires Valid()
      modifies this
      ensures Valid()
      ensures r == answer
      ensures calls == old(calls) + [DaoMetadataList(ManageQuery(q, params))]
    {
      var query := ManageQuery(q, params);
      RecordRead(DaoMetadataList(query));
      return answer;
    }

    /** Lists the stored metadata documents with the managed query; nothing is refreshed. */
    method RawMetadataList(q: Query, params: Parameters, answer: Result<seq<string>, Error>)
      returns (r: Result<seq<string>, Error>)
      requires Valid()
      modifies this
      ensures Valid()
      ensures r == answer
      ensures calls == old(calls) + [DaoRawMetadataList(ManageQuery(q, params))]
    {
      var query := ManageQuery(q, params);
      RecordRead(DaoRawMetadataList(query));
      return answer;
    }
  }

  // ---------------------------------------------------------------------------
  // What the discipline means
  // ---------------------------------------------------------------------------

  function CountRefreshes(calls: seq<Call>): nat
  {
    if calls == [] then 0 else (if calls[0].RefreshPermissions? then 1 else 0) + CountRefreshes(calls[1..])
  }

  function CountSuccessfulMutations(calls: seq<Call>): nat
  {
    if calls == [] then 0 else (if SuccessfulMutation(calls[0]) then 1 else 0) + CountSuccessfulMutations(calls[1..])
  }

  /** In a disciplined record there are exactly as many refreshes as successful mutations. */
  lemma {:induction false} RefreshesMatchMutations(calls: seq<Call>)
    requires Disciplined(calls)
    ensures CountRefreshes(calls) == CountSuccessfulMutations(calls)
    decreases |calls|
  {
    if calls != [] {
      if SuccessfulMutation(calls[0]) {
        RefreshesMatchMutations(calls[2..]);
        assert calls[1..][1..] == calls[2..];
      } else {
        RefreshesMatchMutations(calls[1..]);
      }
    }
  }

  /**
   * A disciplined record, read position by position: a call is a refresh exactly
   * when the call before it is a successful mutation, and no successful
   * mutation is the last call.
   */
  lemma {:induction false} RefreshExactlyAfterMutation(calls: seq<Call>)
    requires Disciplined(calls)
    ensures forall i :: 0 <= i < |calls| ==>
              (calls[i].RefreshPermissions? <==> i > 0 && SuccessfulMutation(calls[i - 1]))
    ensures forall i :: 0 <= i < |calls| && SuccessfulMutation(calls[i]) ==> i + 1 < |calls|
    decreases |calls|
  {
    if calls != [] {
      var skip := if SuccessfulMutation(calls[0]) then 2 else 1;
      var rest := calls[skip..];
      RefreshExactlyAfterMutation(rest);
      forall i | 0 <= i < |calls|
        ensures calls[i].RefreshPermissions? <==> i > 0 && SuccessfulMutation(calls[i - 1])
        ensures SuccessfulMutation(calls[i]) ==> i + 1 < |calls|
      {
        if i >= skip {
          assert calls[i] == rest[i - skip];
          if i > skip {
            assert calls[i - 1] == rest[i - 1 - skip];
          } else if skip == 2 {
            assert !SuccessfulMutation(calls[1]);
          }
        }
      }
    }
  }

  /** Managing a query twice with the same parameters changes nothing more. */
  lemma ManageQueryIdempotent(q: Query, params: Parameters)
    ensures ManageQuery(ManageQuery(q, params), params) == ManageQuery(q, params)
  {
  }
}
