/**
 * The dashboard's panel editor: opening it on an existing panel or for a new
 * one, applying its changes to the panels and panel groups, and closing it.
 *
 * Every state update runs on a draft that is committed only when the update
 * completes; an update that throws commits nothing. Here a method that fails
 * returns the error and leaves the store exactly as it was.
 */
module PanelEditor {
  import opened Wrappers

  type PanelKey = string
  type ItemId = string
  type GroupId = nat

  /** A panel definition; `displayName` is the name shown on the panel. */
  datatype PanelDefinition = PanelDefinition(displayName: string, plugin: string)

  /** The position and size of one item of a panel group's grid. */
  datatype Layout = Layout(i: ItemId, x: int, y: int, w: int, h: int)

  /** A panel group: its grid items, and for each item the key of the panel it shows. */
  datatype PanelGroup = PanelGroup(id: GroupId, title: Option<string>, itemLayouts: seq<Layout>, itemPanelKeys: map<ItemId, PanelKey>)

  /** Where an item sits: its group and its layout identifier. */
  datatype GroupItemId = GroupItemId(panelGroupId: GroupId, itemId: ItemId)

  datatype Mode = Create | Update

  /** The values the editor edits: the target group and the panel definition. */
  datatype EditorValues = EditorValues(groupId: GroupId, panelDefinition: PanelDefinition)

  /** What the editor's apply and close actions were built with when it opened. */
  datatype EditorContext = EditContext(panelKey: PanelKey, groupId: GroupId, itemId: ItemId) | AddContext

  datatype EditorState = EditorState(mode: Mode, initialValues: EditorValues, context: EditorContext)

  datatype EditorError =
    | NoGroupItem(item: GroupItemId)
    | NoPanel(panelKey: PanelKey)
    | MissingPanelGroup(groupId: GroupId)
    | MissingPanelGroupItem(itemId: ItemId)
    | NoNewGroup(groupId: GroupId)

  const NewGroupTitle := "Panel Group"
  const NewPanelWidth := 12
  const NewPanelHeight := 6

  // ---------------------------------------------------------------------------
  // Groups as values
  // ---------------------------------------------------------------------------

  /** The item identifiers a group lays out. */
  function ItemIds(g: PanelGroup): set<ItemId>
  {
    set l | l in g.itemLayouts :: l.i
  }

  /** Each layout identifier appears once, and exactly the laid-out items have a panel key. */
  predicate GroupWellFormed(g: PanelGroup)
  {
    && (forall j, k :: 0 <= j < k < |g.itemLayouts| ==> g.itemLayouts[j].i != g.itemLayouts[k].i)
    && ItemIds(g) == g.itemPanelKeys.Keys
  }

  /** The position of the first layout with identifier `id`, as `findIndex` finds it. */
  function FindLayout(layouts: seq<Layout>, id: ItemId): (r: Option<nat>)
    ensures r.Some? ==> r.value < |layouts| && layouts[r.value].i == id
                        && forall j :: 0 <= j < r.value ==> layouts[j].i != id
    ensures r.None? ==> forall j :: 0 <= j < |layouts| ==> layouts[j].i != id
  {
    if layouts == [] then None
    else if layouts[0].i == id then Some(0)
    else match FindLayout(layouts[1..], id)
      case None => None
      case Some(k) => Some(k + 1)
  }

  /** The group without the layout at `idx` and without that item's panel key. */
  function RemoveItem(g: PanelGroup, idx: nat): (r: PanelGroup)
    requires idx < |g.itemLayouts|
    ensures r.id == g.id && r.title == g.title
    ensures |r.itemLayouts| == |g.itemLayouts| - 1
    ensures forall j :: 0 <= j < idx ==> r.itemLayouts[j] == g.itemLayouts[j]
    ensures forall j :: idx <= j < |r.itemLayouts| ==> r.itemLayouts[j] == g.itemLayouts[j + 1]
    ensures r.itemPanelKeys == g.itemPanelKeys - {g.itemLayouts[idx].i}
  {
    g.(itemLayouts := g.itemLayouts[..idx] + g.itemLayouts[idx + 1..],
       itemPanelKeys := g.itemPanelKeys - {g.itemLayouts[idx].i})
  }

  /** The group with `layout` appended at the end and its item showing `key`. */
  function AppendItem(g: PanelGroup, layout: Layout, key: PanelKey): (r: PanelGroup)
    ensures r.id == g.id && r.title == g.title
    ensures |r.itemLayouts| == |g.itemLayouts| + 1
    ensures r.itemLayouts[..|g.itemLayouts|] == g.itemLayouts && r.itemLayouts[|g.itemLayouts|..] == [layout]
    ensures r.itemPanelKeys == g.itemPanelKeys[layout.i := key]
  {
    g.(itemLayouts := g.itemLayouts + [layout], itemPanelKeys := g.itemPanelKeys[layout.i := key])
  }

  /** Removing an item from a well-formed group keeps it well formed and drops exactly that item. */
  lemma RemoveItemWellFormed(g: PanelGroup, idx: nat)
    requires idx < |g.itemLayouts| && GroupWellFormed(g)
    ensures GroupWellFormed(RemoveItem(g, idx))
    ensures ItemIds(RemoveItem(g, idx)) == ItemIds(g) - {g.itemLayouts[idx].i}
  {
    var r := RemoveItem(g, idx);
    var id := g.itemLayouts[idx].i;
    forall l | l in r.itemLayouts
      ensures l in g.itemLayouts && l.i != id
    {
      var j :| 0 <= j < |r.itemLayouts| && r.itemLayouts[j] == l;
      if j < idx {
        assert g.itemLayouts[j] == l;
      } else {
        assert g.itemLayouts[j + 1] == l;
      }
    }
    forall l | l in g.itemLayouts && l.i != id
      ensures l in r.itemLayouts
    {
      var j :| 0 <= j < |g.itemLayouts| && g.itemLayouts[j] == l;
      if j < idx {
        assert r.itemLayouts[j] == l;
      } else {
        assert j != idx;
        assert r.itemLayouts[j - 1] == l;
      }
    }
    forall j, k | 0 <= j < k < |r.itemLayouts|
      ensures r.itemLayouts[j].i != r.itemLayouts[k].i
    {
      var j' := if j < idx then j else j + 1;
      var k' := if k < idx then k else k + 1;
      assert r.itemLayouts[j] == g.itemLayouts[j'] && r.itemLayouts[k] == g.itemLayouts[k'];
    }
  }

  /** Appending an item the group does not lay out keeps it well formed and adds exactly that item. */
  lemma AppendItemWellFormed(g: PanelGroup, layout: Layout, key: PanelKey)
    requires GroupWellFormed(g) && layout.i !in ItemIds(g)
    ensures GroupWellFormed(AppendItem(g, layout, key))
    ensures ItemIds(AppendItem(g, layout, key)) == ItemIds(g) + {layout.i}
  {
    var r := AppendItem(g, layout, key);
    assert r.itemLayouts == g.itemLayouts + [layout];
    forall j, k | 0 <= j < k < |r.itemLayouts|
      ensures r.itemLayouts[j].i != r.itemLayouts[k].i
    {
      if k == |g.itemLayouts| {
        assert r.itemLayouts[j] in g.itemLayouts;
      }
    }
  }

  // ---------------------------------------------------------------------------
  // The store
  // ---------------------------------------------------------------------------

  class DashboardStore {
    var panels: map<PanelKey, PanelDefinition>
    var panelGroups: map<GroupId, PanelGroup>
    var panelGroupOrder: seq<GroupId>
    /** The definition a new panel starts from, when a default panel kind is configured. */
    var initialValues: Option<PanelDefinition>
    /** The open editor, or None when it is closed. */
    var panelEditor: Option<EditorState>

    /** The row below a group's last item (not part of this model). */
    const yForNewRow: PanelGroup -> int
    /** A key derived from a panel name that is not yet used in the panels (not part of this model). */
    const validPanelKey: (string, map<PanelKey, PanelDefinition>) -> PanelKey
    /** Registers a new group in the groups and their order (not part of this model). */
    const addPanelGroup: (map<GroupId, PanelGroup>, seq<GroupId>, PanelGroup) -> (map<GroupId, PanelGroup>, seq<GroupId>)

    constructor (panels: map<PanelKey, PanelDefinition>, panelGroups: map<GroupId, PanelGroup>, panelGroupOrder: seq<GroupId>,
                 initialValues: Option<PanelDefinition>,
                 yForNewRow: PanelGroup -> int,
                 validPanelKey: (string, map<PanelKey, PanelDefinition>) -> PanelKey,
                 addPanelGroup: (map<GroupId, PanelGroup>, seq<GroupId>, PanelGroup) -> (map<GroupId, PanelGroup>, seq<GroupId>))
      ensures this.panels == panels && this.panelGroups == panelGroups && this.panelGroupOrder == panelGroupOrder
      ensures this.initialValues == initialValues && this.panelEditor == None
      ensures this.yForNewRow == yForNewRow && this.validPanelKey == validPanelKey && this.addPanelGroup == addPanelGroup
    {
      this.panels := panels;
      this.panelGroups := panelGroups;
      this.panelGroupOrder := panelGroupOrder;
      this.initialValues := initialValues;
      this.panelEditor := None;
      this.yForNewRow := yForNewRow;
      this.validPanelKey := validPanelKey;
      this.addPanelGroup := addPanelGroup;
    }

    /**
     * Every group is well formed, every item's panel key names a panel, and no
     * item identifier is laid out in two groups.
     */
    predicate WellFormed()
      reads this
    {
      StoreWellFormed(panels, panelGroups)
    }

    /** No group lays out `id`. */
    predicate ItemIdFresh(id: ItemId)
      reads this
    {
      forall gid :: gid in panelGroups ==> id !in ItemIds(panelGroups[gid])
    }

    /**
     * Opens the editor on the panel shown by `item`. Fails when the group or
     * its item's panel key is missing, or when no panel has that key; otherwise
     * the editor opens in update mode on that group and panel.
     */
    method OpenEditPanel(item: GroupItemId) returns (err: Option<EditorError>)
      modifies this`panelEditor
      ensures var g := item.panelGroupId;
              && (g !in panelGroups || item.itemId !in panelGroups[g].itemPanelKeys ==>
                    err == Some(NoGroupItem(item)) && panelEditor == old(panelEditor))
              && (g in panelGroups && item.itemId in panelGroups[g].itemPanelKeys ==>
                    var key := panelGroups[g].itemPanelKeys[item.itemId];
                    && (key !in panels ==> err == Some(NoPanel(key)) && panelEditor == old(panelEditor))
                    && (key in panels ==>
                          err == None
                          && panelEditor == Some(EditorState(Update, EditorValues(g, panels[key]),
                                                             EditContext(key, g, item.itemId)))))
    {
      if item.panelGroupId !in panelGroups || item.itemId !in panelGroups[item.panelGroupId].itemPanelKeys {
        return Some(NoGroupItem(item));
      }
      var panelKey := panelGroups[item.panelGroupId].itemPanelKeys[item.itemId];
      if panelKey !in panels {
        return Some(NoPanel(panelKey));
      }
      var panelToEdit := panels[panelKey];
      panelEditor := Some(EditorState(Update, EditorValues(item.panelGroupId, panelToEdit),
                                      EditContext(panelKey, item.panelGroupId, item.itemId)));
      return None;
    }

    /**
     * The apply action of an editor opened on `panelKey`, shown by item
     * `itemId` of group `groupId`. The new definition always replaces the panel
     * at `panelKey`. When the target group is unchanged nothing else changes;
     * otherwise the item moves: its first layout leaves the old group together
     * with its panel key, and a layout with the same identifier, width and
     * height is appended to the new group at x = 0 and the new group's next
     * row, showing the same key. Any missing group, layout or key aborts the
     * whole update.
     */
    method ApplyEditChanges(panelKey: PanelKey, groupId: GroupId, itemId: ItemId, next: EditorValues)
      returns (err: Option<EditorError>)
      modifies this`panels, this`panelGroups
      ensures err.Some? ==> panels == old(panels) && panelGroups == old(panelGroups)
      ensures err.None? ==> panels == old(panels)[panelKey := next.panelDefinition]
      ensures next.groupId == groupId ==> err.None? && panelGroups == old(panelGroups)
      ensures next.groupId != groupId && groupId !in old(panelGroups) ==> err == Some(MissingPanelGroup(groupId))
      ensures next.groupId != groupId && groupId in old(panelGroups) ==>
                var from := old(panelGroups)[groupId];
                var idx := FindLayout(from.itemLayouts, itemId);
                && (idx.None? || itemId !in from.itemPanelKeys ==> err == Some(MissingPanelGroupItem(itemId)))
                && (idx.Some? && itemId in from.itemPanelKeys && next.groupId !in old(panelGroups) ==>
                      err == Some(NoNewGroup(next.groupId)))
                && (idx.Some? && itemId in from.itemPanelKeys && next.groupId in old(panelGroups) ==>
                      var to := old(panelGroups)[next.groupId];
                      var layout := from.itemLayouts[idx.value];
                      && err.None?
                      && panelGroups.Keys == old(panelGroups).Keys
                      && panelGroups[groupId] == RemoveItem(from, idx.value)
                      && panelGroups[next.groupId]
                         == AppendItem(to, Layout(itemId, 0, yForNewRow(to), layout.w, layout.h), from.itemPanelKeys[itemId])
                      && forall g :: g in panelGroups && g != groupId && g != next.groupId ==>
                           panelGroups[g] == old(panelGroups)[g])
      ensures old(WellFormed()) ==> WellFormed()
    {
      var draftPanels := panels[panelKey := next.panelDefinition];
      if next.groupId == groupId {
        panels := draftPanels;
        return None;
      }
      if groupId !in panelGroups {
        return Some(MissingPanelGroup(groupId));
      }
      var existingGroup := panelGroups[groupId];
      var existingLayoutIdx := FindLayout(existingGroup.itemLayouts, itemId);
      if existingLayoutIdx.None? || itemId !in existingGroup.itemPanelKeys {
        return Some(MissingPanelGroupItem(itemId));
      }
      var idx := existingLayoutIdx.value;
      var existingLayout := existingGroup.itemLayouts[idx];
      var existingPanelKey := existingGroup.itemPanelKeys[itemId];
      var draftGroups := panelGroups[groupId := RemoveItem(existingGroup, idx)];
      if next.groupId !in draftGroups {
        return Some(NoNewGroup(next.groupId));
      }
      var newGroup := draftGroups[next.groupId];
      var moved := Layout(existingLayout.i, 0, yForNewRow(newGroup), existingLayout.w, existingLayout.h);
      draftGroups := draftGroups[next.groupId := AppendItem(newGroup, moved, existingPanelKey)];
      MoveKeepsWellFormed(panels, panelGroups, draftPanels, groupId, next.groupId, idx, moved, existingPanelKey);
      panels := draftPanels;
      panelGroups := draftGroups;
      return None;
    }

    /**
     * Opens the editor for a new panel. The target group is the given one, else
     * the first group in order, else a new empty group titled "Panel Group",
     * which is registered when the editor opens. The panel starts from the
     * configured initial definition, else from `created`.
     */
    method OpenAddPanel(panelGroupId: Option<GroupId>, emptyGroup: PanelGroup, created: PanelDefinition)
      modifies this`panelGroups, this`panelGroupOrder, this`panelEditor
      ensures var makesGroup := panelGroupId.None? && |old(panelGroupOrder)| == 0;
              var target := if panelGroupId.Some? then panelGroupId.value
                            else if |old(panelGroupOrder)| > 0 then old(panelGroupOrder)[0]
                            else emptyGroup.id;
              var definition := if initialValues.Some? then initialValues.value else created;
              && panelEditor == Some(EditorState(Create, EditorValues(target, definition), AddContext))
              && (makesGroup ==>
                    (panelGroups, panelGroupOrder)
                    == addPanelGroup(old(panelGroups), old(panelGroupOrder), emptyGroup.(title := Some(NewGroupTitle))))
              && (!makesGroup ==> panelGroups == old(panelGroups) && panelGroupOrder == old(panelGroupOrder))
    {
      var target: GroupId;
      var newGroup: Option<PanelGroup> := None;
      if panelGroupId.Some? {
        target := panelGroupId.value;
      } else if |panelGroupOrder| > 0 {
        target := panelGroupOrder[0];
      } else {
        newGroup := Some(emptyGroup.(title := Some(NewGroupTitle)));
        target := emptyGroup.id;
      }
      var definition := if initialValues.Some? then initialValues.value else created;
      if newGroup.Some? {
        var added := addPanelGroup(panelGroups, panelGroupOrder, newGroup.value);
        panelGroups, panelGroupOrder := added.0, added.1;
      }
      panelEditor := Some(EditorState(Create, EditorValues(target, definition), AddContext));
    }

    /**
     * The apply action of an editor opened for a new panel. The panel is stored
     * under the key derived from its name and the panels before the update; the
     * target group gains, at its end, a 12 by 6 layout at x = 0 on its next row
     * whose item `newItemId` shows that key. A missing group aborts the update.
     */
    method ApplyAddChanges(next: EditorValues, newItemId: ItemId) returns (err: Option<EditorError>)
      modifies this`panels, this`panelGroups
      ensures next.groupId !in old(panelGroups) ==>
                err == Some(MissingPanelGroup(next.groupId)) && panels == old(panels) && panelGroups == old(panelGroups)
      ensures next.groupId in old(panelGroups) ==>
                var key := validPanelKey(next.panelDefinition.displayName, old(panels));
                var group := old(panelGroups)[next.groupId];
                && err.None?
                && panels == old(panels)[key := next.panelDefinition]
                && panelGroups == old(panelGroups)[next.groupId :=
                     AppendItem(group, Layout(newItemId, 0, yForNewRow(group), NewPanelWidth, NewPanelHeight), key)]
      ensures old(WellFormed()) && old(ItemIdFresh(newItemId)) ==> WellFormed()
    {
      var panelKey := validPanelKey(next.panelDefinition.displayName, panels);
      var draftPanels := panels[panelKey := next.panelDefinition];
      if next.groupId !in panelGroups {
        return Some(MissingPanelGroup(next.groupId));
      }
      var group := panelGroups[next.groupId];
      var layout := Layout(newItemId, 0, yForNewRow(group), NewPanelWidth, NewPanelHeight);
      var draftGroups := panelGroups[next.groupId := AppendItem(group, layout, panelKey)];
      AddKeepsWellFormed(panels, panelGroups, draftPanels, next.groupId, layout, panelKey);
      panels := draftPanels;
      panelGroups := draftGroups;
      return None;
    }

    /** The close action of either editor: the editor closes and nothing else changes. */
    method Close()
      modifies this`panelEditor
      ensures panelEditor == None
    {
      panelEditor := None;
    }
  }

  // ---------------------------------------------------------------------------
  // The store invariant, on values
  // ---------------------------------------------------------------------------

  /**
   * Every group is well formed, every item's panel key names a panel, and no
   * item identifier is laid out in two groups.
   */
  predicate StoreWellFormed(panels: map<PanelKey, PanelDefinition>, groups: map<GroupId, PanelGroup>)
  {
    && (forall gid :: gid in groups ==> GroupWellFormed(groups[gid]))
    && (forall gid, item :: gid in groups && item in groups[gid].itemPanelKeys ==> groups[gid].itemPanelKeys[item] in panels)
    && (forall a, b :: a in groups && b in groups && a != b ==> ItemIds(groups[a]) !! ItemIds(groups[b]))
  }

  /** Moving an item between two groups of a well-formed store keeps it well formed. */
  lemma MoveKeepsWellFormed(panels: map<PanelKey, PanelDefinition>, groups: map<GroupId, PanelGroup>,
                            panels': map<PanelKey, PanelDefinition>,
                            from: GroupId, to: GroupId, idx: nat, moved: Layout, key: PanelKey)
    requires from in groups && to in groups && from != to
    requires idx < |groups[from].itemLayouts| && moved.i == groups[from].itemLayouts[idx].i
    requires moved.i in groups[from].itemPanelKeys && key == groups[from].itemPanelKeys[moved.i]
    requires panels.Keys <= panels'.Keys
    ensures StoreWellFormed(panels, groups) ==>
              StoreWellFormed(panels', groups[from := RemoveItem(groups[from], idx)][to := AppendItem(groups[to], moved, key)])
  {
    if StoreWellFormed(panels, groups) {
      var removed := RemoveItem(groups[from], idx);
      var appended := AppendItem(groups[to], moved, key);
      var groups' := groups[from := removed][to := appended];
      assert moved.i in ItemIds(groups[from]) by {
        assert groups[from].itemLayouts[idx] in groups[from].itemLayouts;
      }
      RemoveItemWellFormed(groups[from], idx);
      AppendItemWellFormed(groups[to], moved, key);
      MoveKeepsKeysResolved(panels, groups, panels', from, to, removed, appended, key);
      MoveKeepsItemsApart(groups, from, to, removed, appended, moved.i);
    }
  }

  /** After a move every item's panel key still names a panel. */
  lemma MoveKeepsKeysResolved(panels: map<PanelKey, PanelDefinition>, groups: map<GroupId, PanelGroup>,
                              panels': map<PanelKey, PanelDefinition>,
                              from: GroupId, to: GroupId, removed: PanelGroup, appended: PanelGroup, key: PanelKey)
    requires from in groups && to in groups && from != to
    requires forall gid, item :: gid in groups && item in groups[gid].itemPanelKeys ==> groups[gid].itemPanelKeys[item] in panels
    requires panels.Keys <= panels'.Keys && key in panels
    requires removed.itemPanelKeys.Keys <= groups[from].itemPanelKeys.Keys
    requires forall item :: item in removed.itemPanelKeys ==> removed.itemPanelKeys[item] == groups[from].itemPanelKeys[item]
    requires forall item :: item in appended.itemPanelKeys ==>
               appended.itemPanelKeys[item] == key
               || (item in groups[to].itemPanelKeys && appended.itemPanelKeys[item] == groups[to].itemPanelKeys[item])
    ensures var groups' := groups[from := removed][to := appended];
            forall gid, item :: gid in groups' && item in groups'[gid].itemPanelKeys ==> groups'[gid].itemPanelKeys[item] in panels'
  {
  }

  /** After a move no item identifier is laid out in two groups. */
  lemma MoveKeepsItemsApart(groups: map<GroupId, PanelGroup>, from: GroupId, to: GroupId,
                            removed: PanelGroup, appended: PanelGroup, id: ItemId)
    requires from in groups && to in groups && from != to
    requires forall a, b :: a in groups && b in groups && a != b ==> ItemIds(groups[a]) !! ItemIds(groups[b])
    requires id in ItemIds(groups[from])
    requires ItemIds(removed) == ItemIds(groups[from]) - {id}
    requires ItemIds(appended) == ItemIds(groups[to]) + {id}
    ensures var groups' := groups[from := removed][to := appended];
            forall a, b :: a in groups' && b in groups' && a != b ==> ItemIds(groups'[a]) !! ItemIds(groups'[b])
  {
    var groups' := groups[from := removed][to := appended];
    forall a, b | a in groups' && b in groups' && a != b
      ensures ItemIds(groups'[a]) !! ItemIds(groups'[b])
    {
      assert ItemIds(groups[a]) !! ItemIds(groups[b]);
      if a != from && a != to {
        assert ItemIds(groups[a]) !! ItemIds(groups[from]);
      }
      if b != from && b != to {
        assert ItemIds(groups[b]) !! ItemIds(groups[from]);
      }
    }
  }

  /** Adding a fresh item to a group of a well-formed store keeps it well formed. */
  lemma AddKeepsWellFormed(panels: map<PanelKey, PanelDefinition>, groups: map<GroupId, PanelGroup>,
                           panels': map<PanelKey, PanelDefinition>,
                           target: GroupId, layout: Layout, key: PanelKey)
    requires target in groups
    requires panels.Keys <= panels'.Keys && key in panels'
    ensures StoreWellFormed(panels, groups) && (forall gid :: gid in groups ==> layout.i !in ItemIds(groups[gid])) ==>
              StoreWellFormed(panels', groups[target := AppendItem(groups[target], layout, key)])
  {
    if StoreWellFormed(panels, groups) && (forall gid :: gid in groups ==> layout.i !in ItemIds(groups[gid])) {
      AppendItemWellFormed(groups[target], layout, key);
    }
  }
}
