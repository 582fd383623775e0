/**
 * The values the CLI tool registry works with: tool records, the two kinds of
 * update strategy, the snapshot entries it hands to consumers and the
 * notifications it sends; and the pure parts of the registry: telling the
 * strategy kinds apart, building the snapshot list and answering a
 * version-selection request.
 */
module CliTools {
  import opened Wrappers

  /** Who installed the tool's binary: the host application (through an extension) or someone else. */
  datatype InstallationSource = Extension | External

  /**
   * Identity of the extension that contributed the tool. `labelText` is the
   * extension's `label`; the field is renamed because `label` is a Dafny keyword.
   */
  datatype ExtensionInfo = ExtensionInfo(id: string, labelText: string)

  /**
   * A tool record as the registry reads it. The record's own state machine
   * (detection of `version`, `path`, `installationSource`) belongs to the tool
   * and is not modelled; `state` and `images` are carried through opaquely.
   */
  datatype CliTool = CliTool(
    id: string,
    name: string,
    displayName: string,
    markdownDescription: string,
    state: string,
    images: seq<string>,
    extensionInfo: ExtensionInfo,
    version: Option<string>,
    path: Option<string>,
    installationSource: Option<InstallationSource>)

  /**
   * An update strategy. `Predefined` is a strategy that knows its target
   * `version` up front; `Selectable` is one that asks for a version first,
   * and `selected` is the version its `selectVersion()` call resolves to.
   * The work `doUpdate` performs belongs to the strategy and is not modelled.
   */
  datatype Updater = Predefined(version: string) | Selectable(selected: string)

  /** The entry `getCliToolInfos` produces for one tool. */
  datatype CliToolInfo = CliToolInfo(
    id: string,
    name: string,
    displayName: string,
    description: string,
    state: string,
    images: seq<string>,
    extensionInfo: ExtensionInfo,
    version: Option<string>,
    path: Option<string>,
    newVersion: Option<string>,
    canUpdate: bool)

  /** A notification sent to consumers: an event name and, for most events, the tool id. */
  datatype Event = Event(name: string, id: Option<string>)

  const CreateEvent: string := "cli-tool-create"
  const ChangeEvent: string := "cli-tool-change"
  const RemoveEvent: string := "cli-tool-remove"

  /** A call the registry makes into a strategy's own code. */
  datatype StrategyCall = DoUpdate(toolId: string, updater: Updater) | SelectVersion(toolId: string, updater: Updater)

  /** `map.get(id)`: the updater stored under `id`, or nothing. */
  function Lookup(updaters: map<string, Updater>, id: string): Option<Updater>
  {
    if id in updaters then Some(updaters[id]) else None
  }

  /** The `version` property of a strategy object: defined only on the predefined-version kind. */
  function VersionProperty(u: Updater): Option<string>
  {
    match u
    case Predefined(v) => Some(v)
    case Selectable(_) => None
  }

  /**
   * The structural test the registry uses to tell the strategy kinds apart:
   * a strategy is the predefined-version kind iff its `version` is defined.
   * The test is exact: it holds of every predefined-version strategy and of no
   * selectable one.
   */
  function IsUpdaterToPredefinedVersion(u: Updater): (r: bool)
    ensures r <==> u.Predefined?
    ensures !r <==> u.Selectable?
  {
    VersionProperty(u) != None
  }

  /** The error message of a version selection that has no selectable updater. */
  function NoUpdaterMessage(id: string): string
  {
    "No updater registered for " + id
  }

  /**
   * What `selectCliToolVersionToUpdate(id)` resolves to: a failure when no
   * updater is registered for `id` or the registered one has a predefined
   * version, otherwise exactly the version the selectable updater selects.
   */
  function SelectOutcome(updaters: map<string, Updater>, id: string): (r: Result<string, string>)
    ensures r.Failure? <==> id !in updaters || updaters[id].Predefined?
    ensures r.Failure? ==> r.error == NoUpdaterMessage(id)
    ensures r.Success? ==> updaters[id] == Selectable(r.value)
  {
    if id !in updaters || IsUpdaterToPredefinedVersion(updaters[id]) then
      Failure(NoUpdaterMessage(id))
    else
      Success(updaters[id].selected)
  }

  /**
   * The snapshot entry of one tool given the updater registered for it, if
   * any. The tool's own fields are copied; `newVersion` is the updater's fixed
   * version exactly when a predefined-version updater is registered, and the
   * tool can be updated exactly when some updater is registered and the
   * binary was installed by an extension.
   */
  function ToInfo(tool: CliTool, updater: Option<Updater>): (info: CliToolInfo)
    ensures info.id == tool.id && info.name == tool.name && info.displayName == tool.displayName
    ensures info.description == tool.markdownDescription && info.state == tool.state
    ensures info.images == tool.images && info.extensionInfo == tool.extensionInfo
    ensures info.version == tool.version && info.path == tool.path
    ensures info.newVersion.Some? <==> updater.Some? && updater.value.Predefined?
    ensures info.newVersion.Some? ==> info.newVersion.value == updater.value.version
    ensures info.canUpdate <==> updater.Some? && tool.installationSource == Some(Extension)
  {
    var newVersion := if updater.Some? && IsUpdaterToPredefinedVersion(updater.value) then Some(updater.value.version) else None;
    var canUpdate := updater.Some? && tool.installationSource == Some(Extension);
    CliToolInfo(tool.id, tool.name, tool.displayName, tool.markdownDescription, tool.state,
                tool.images, tool.extensionInfo, tool.version, tool.path, newVersion, canUpdate)
  }

  /** Every tool is stored under its own id. */
  ghost predicate KeyedById(tools: map<string, CliTool>)
  {
    forall x :: x in tools ==> tools[x].id == x
  }

  /** No id occurs twice: the first id is not repeated later, and the rest has no repeats either. */
  ghost predicate Distinct(s: seq<string>)
  {
    s == [] || (s[0] !in s[1..] && Distinct(s[1..]))
  }

  /** In a duplicate-free sequence, different positions hold different ids. */
  lemma {:induction false} DistinctAt(s: seq<string>, i: nat, j: nat)
    requires Distinct(s)
    requires i < j < |s|
    ensures s[i] != s[j]
  {
    if i == 0 {
      assert s[j] == s[1..][j - 1];
    } else {
      DistinctAt(s[1..], i - 1, j - 1);
    }
  }

  /** Appending an id that is not there yet keeps a sequence duplicate-free. */
  lemma {:induction false} DistinctAppend(s: seq<string>, x: string)
    requires Distinct(s)
    requires x !in s
    ensures Distinct(s + [x])
  {
    if s != [] {
      DistinctAppend(s[1..], x);
      assert (s + [x])[1..] == s[1..] + [x];
    }
  }

  /**
   * The tool store's invariant: `order` lists each stored id exactly once and
   * every tool is stored under its own id.
   */
  ghost predicate StoreInvariant(order: seq<string>, tools: map<string, CliTool>)
  {
    && Distinct(order)
    && (forall x :: x in order <==> x in tools)
    && KeyedById(tools)
  }

  /**
   * Setting a tool in the store keeps the invariant: a new id goes to the end
   * of the order, an id already stored keeps its place.
   */
  lemma InsertKeepsStoreInvariant(order: seq<string>, tools: map<string, CliTool>, tool: CliTool)
    requires StoreInvariant(order, tools)
    ensures StoreInvariant(if tool.id in tools then order else order + [tool.id], tools[tool.id := tool])
  {
    if tool.id !in tools {
      DistinctAppend(order, tool.id);
    }
  }

  /**
   * The snapshot list: one entry per id of `order`, in that order, each built
   * from the tool stored under the id and the updater registered for it.
   */
  function Snapshot(order: seq<string>, tools: map<string, CliTool>, updaters: map<string, Updater>): (infos: seq<CliToolInfo>)
    requires forall id :: id in order ==> id in tools
    ensures |infos| == |order|
    ensures forall i :: 0 <= i < |order| ==> infos[i] == ToInfo(tools[order[i]], Lookup(updaters, order[i]))
  {
    if order == [] then []
    else [ToInfo(tools[order[0]], Lookup(updaters, order[0]))] + Snapshot(order[1..], tools, updaters)
  }

  /** An insertion order with one id deleted, as `Map.delete` leaves the key order. */
  function Without(order: seq<string>, x: string): (r: seq<string>)
    ensures forall y :: y in r <==> y in order && y != x
    ensures x !in order ==> r == order
  {
    if order == [] then []
    else if order[0] == x then Without(order[1..], x)
    else [order[0]] + Without(order[1..], x)
  }

  /** Deleting an id keeps an insertion order free of duplicates. */
  lemma {:induction false} WithoutDistinct(order: seq<string>, x: string)
    requires Distinct(order)
    ensures Distinct(Without(order, x))
  {
    if order != [] {
      WithoutDistinct(order[1..], x);
      if order[0] != x {
        var rest := Without(order[1..], x);
        assert order[0] !in rest;
        assert Without(order, x) == [order[0]] + rest;
      }
    }
  }

  /** Deleting an id from the store and from the order keeps the invariant. */
  lemma DeleteKeepsStoreInvariant(order: seq<string>, tools: map<string, CliTool>, id: string)
    requires StoreInvariant(order, tools)
    ensures StoreInvariant(Without(order, id), tools - {id})
  {
    WithoutDistinct(order, id);
  }

  /** A snapshot with the entries of one id dropped, the rest in their order. */
  function DropId(infos: seq<CliToolInfo>, id: string): (r: seq<CliToolInfo>)
    ensures forall info :: info in r <==> info in infos && info.id != id
  {
    if infos == [] then []
    else if infos[0].id == id then DropId(infos[1..], id)
    else [infos[0]] + DropId(infos[1..], id)
  }

  /**
   * Disposing a tool's entries from both stores and from the insertion order
   * leaves a snapshot that is the old one with that tool's entry dropped and
   * every other entry, in order, as it was.
   */
  lemma {:induction false} SnapshotWithout(order: seq<string>, tools: map<string, CliTool>, updaters: map<string, Updater>, id: string)
    requires forall x :: x in order ==> x in tools
    requires KeyedById(tools)
    ensures Snapshot(Without(order, id), tools - {id}, updaters - {id}) == DropId(Snapshot(order, tools, updaters), id)
  {
    if order != [] {
      SnapshotWithout(order[1..], tools, updaters, id);
      var infos := Snapshot(order, tools, updaters);
      assert infos[0] == ToInfo(tools[order[0]], Lookup(updaters, order[0]));
      assert infos[1..] == Snapshot(order[1..], tools, updaters);
      if order[0] != id {
        var rest, w := Without(order[1..], id), Without(order, id);
        assert w == [order[0]] + rest;
        assert w[0] == order[0] && w[1..] == rest;
        assert Lookup(updaters - {id}, order[0]) == Lookup(updaters, order[0]);
        assert Snapshot(w, tools - {id}, updaters - {id})
            == [infos[0]] + Snapshot(rest, tools - {id}, updaters - {id});
        assert DropId(infos, id) == [infos[0]] + DropId(infos[1..], id);
      }
    }
  }

  /** Deleting an id that was just appended to an order without it gives back that order. */
  lemma {:induction false} WithoutAppended(order: seq<string>, x: string)
    requires x !in order
    ensures Without(order + [x], x) == order
  {
    if order != [] {
      WithoutAppended(order[1..], x);
      assert (order + [x])[1..] == order[1..] + [x];
      assert order == [order[0]] + order[1..];
    }
  }

  /**
   * Storing a tool under a new id appends its entry at the end of the
   * snapshot and leaves every earlier entry as it was.
   */
  lemma SnapshotAppended(order: seq<string>, tools: map<string, CliTool>, updaters: map<string, Updater>, tool: CliTool)
    requires forall x :: x in order ==> x in tools
    requires tool.id !in order
    ensures Snapshot(order + [tool.id], tools[tool.id := tool], updaters)
         == Snapshot(order, tools, updaters) + [ToInfo(tool, Lookup(updaters, tool.id))]
  {
  }

  /**
   * Storing a tool under an id that is already in the order replaces that
   * id's entry in place and leaves every other entry as it was.
   */
  lemma SnapshotReplaced(order: seq<string>, tools: map<string, CliTool>, updaters: map<string, Updater>, tool: CliTool)
    requires forall x :: x in order ==> x in tools
    requires tool.id in order
    ensures var before, after := Snapshot(order, tools, updaters), Snapshot(order, tools[tool.id := tool], updaters);
      |after| == |before| &&
      forall i :: 0 <= i < |after| ==>
        after[i] == if order[i] == tool.id then ToInfo(tool, Lookup(updaters, tool.id)) else before[i]
  {
  }

  /**
   * The snapshot never looks up an id that is not in the order, so deleting
   * such an id's updater leaves the snapshot as it was.
   */
  lemma SnapshotIgnoresAbsentUpdater(order: seq<string>, tools: map<string, CliTool>, updaters: map<string, Updater>, id: string)
    requires forall x :: x in order ==> x in tools
    requires id !in order
    ensures Snapshot(order, tools, updaters - {id}) == Snapshot(order, tools, updaters)
  {
  }

  /**
   * Creating a tool under a new id and then disposing it gives back the
   * snapshot from before: the tool store and the order are restored, and
   * the snapshot is the same whether or not an updater was registered under
   * that id in the meantime.
   */
  lemma CreateThenDispose(order: seq<string>, tools: map<string, CliTool>, updaters: map<string, Updater>, tool: CliTool)
    requires forall x :: x in order ==> x in tools
    requires KeyedById(tools) && tool.id !in tools
    ensures forall x :: x in order + [tool.id] ==> x in tools[tool.id := tool]
    ensures KeyedById(tools[tool.id := tool])
    ensures Without(order + [tool.id], tool.id) == order
    ensures tools[tool.id := tool] - {tool.id} == tools
    ensures Snapshot(Without(order + [tool.id], tool.id), tools[tool.id := tool] - {tool.id}, updaters - {tool.id})
         == Snapshot(order, tools, updaters)
  {
    WithoutAppended(order, tool.id);
    assert tools[tool.id := tool] - {tool.id} == tools;
    SnapshotIgnoresAbsentUpdater(order, tools, updaters, tool.id);
  }

  /**
   * Over a duplicate-free order that lists exactly the stored tools, the
   * snapshot has one entry for each stored tool and for nothing else.
   */
  lemma SnapshotOnePerTool(order: seq<string>, tools: map<string, CliTool>, updaters: map<string, Updater>)
    requires Distinct(order)
    requires forall x :: x in order <==> x in tools
    requires KeyedById(tools)
    ensures var infos := Snapshot(order, tools, updaters);
      forall id :: id in tools <==> exists i :: 0 <= i < |infos| && infos[i].id == id
    ensures var infos := Snapshot(order, tools, updaters);
      forall i, j :: 0 <= i < j < |infos| ==> infos[i].id != infos[j].id
  {
    var infos := Snapshot(order, tools, updaters);
    assert forall i :: 0 <= i < |infos| ==> infos[i].id == order[i] by {
      forall i | 0 <= i < |infos| ensures infos[i].id == order[i] {
        assert infos[i] == ToInfo(tools[order[i]], Lookup(updaters, order[i]));
      }
    }
    forall i, j | 0 <= i < j < |infos|
      ensures infos[i].id != infos[j].id
    {
      DistinctAt(order, i, j);
    }
    forall id | id in tools
      ensures exists i :: 0 <= i < |infos| && infos[i].id == id
    {
      var i :| 0 <= i < |order| && order[i] == id;
      assert infos[i].id == id;
    }
  }
}
