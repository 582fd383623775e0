/**
 * The CLI tool registry: the in-memory authority over command-line tool
 * plugins. It keeps the tool records and the update strategies, both keyed by
 * tool id, sends a notification for every change, and dispatches update and
 * version-selection requests to the registered strategy.
 */
module Registry {
  import opened Wrappers
  import opened CliTools

  class CliToolRegistry {
    /** The tool store: id -> tool record. */
    var tools: map<string, CliTool>
    /** The ids of `tools` in the order the store iterates them: first insertion first. */
    var order: seq<string>
    /** The updater store: id -> update strategy (at most one per id). */
    var updaters: map<string, Updater>
    /** The notifications sent so far, oldest first. */
    ghost var events: seq<Event>
    /** The calls made into strategies' own code so far, oldest first. */
    ghost var calls: seq<StrategyCall>
    /** The ids whose version-changed callback the registry has subscribed; never withdrawn. */
    ghost var subscribed: set<string>

    /**
     * The registry invariant: the tool store's invariant (`StoreInvariant`:
     * `order` lists each stored id once, and every tool is stored under its
     * own id), and every stored id has its version-changed callback subscribed.
     */
    ghost predicate Valid()
      reads this
    {
      && StoreInvariant(order, tools)
      && (forall x :: x in tools ==> x in subscribed)
    }

    constructor ()
      ensures Valid()
      ensures tools == map[] && order == [] && updaters == map[]
      ensures events == [] && calls == [] && subscribed == {}
    {
      tools, order, updaters := map[], [], map[];
      events, calls, subscribed := [], [], {};
    }

    /**
     * `getCliToolInfos`: one entry per stored tool, in insertion order, each
     * built from the tool record and the updater registered under its id.
     */
    function CliToolInfos(): (infos: seq<CliToolInfo>)
      reads this
      requires Valid()
      ensures |infos| == |order|
      ensures forall i :: 0 <= i < |infos| ==> infos[i].id == order[i]
      ensures forall i :: 0 <= i < |infos| ==> infos[i] == ToInfo(tools[order[i]], Lookup(updaters, order[i]))
    {
      Snapshot(order, tools, updaters)
    }

    /**
     * `createCliTool`: stores the record the tool constructor produced under
     * its id (a record already stored under that id is replaced and keeps its
     * place in the order), sends one `cli-tool-create` notification without an
     * id and subscribes to the tool's version changes. Updaters are untouched.
     */
    method CreateCliTool(tool: CliTool) returns (created: CliTool)
      requires Valid()
      modifies this`tools, this`order, this`events, this`subscribed
      ensures Valid()
      ensures created == tool
      ensures tools == old(tools)[tool.id := tool]
      ensures order == if tool.id in old(tools) then old(order) else old(order) + [tool.id]
      ensures events == old(events) + [Event(CreateEvent, None)]
      ensures subscribed == old(subscribed) + {tool.id}
      ensures updaters == old(updaters) && calls == old(calls)
      ensures old(tool.id !in tools) ==>
        CliToolInfos() == old(CliToolInfos()) + [ToInfo(tool, Lookup(updaters, tool.id))]
      ensures old(tool.id in tools) ==> forall i :: 0 <= i < |CliToolInfos()| ==>
        CliToolInfos()[i] == if order[i] == tool.id then ToInfo(tool, Lookup(updaters, tool.id)) else old(CliToolInfos())[i]
    {
      InsertKeepsStoreInvariant(order, tools, tool);
      if tool.id !in tools {
        SnapshotAppended(order, tools, updaters, tool);
        order := order + [tool.id];
      } else {
        SnapshotReplaced(order, tools, updaters, tool);
      }
      tools := tools[tool.id := tool];
      events := events + [Event(CreateEvent, None)];
      subscribed := subscribed + {tool.id};
      created := tool;
    }

    /**
     * The callback `createCliTool` subscribes to a tool's version changes:
     * sends one `cli-tool-change` notification with the tool's id. The
     * subscription outlives the tool's disposal.
     */
    method CliToolVersionUpdated(id: string)
      requires Valid()
      requires id in subscribed
      modifies this`events
      ensures Valid()
      ensures events == old(events) + [Event(ChangeEvent, Some(id))]
    {
      events := events + [Event(ChangeEvent, Some(id))];
    }

    /**
     * `registerUpdate`: stores `updater` under the tool's id, replacing any
     * updater stored there (last write wins), without a notification, and
     * returns the handle whose release removes the entry again. The tool
     * need not be in the tool store.
     */
    method RegisterUpdate(tool: CliTool, updater: Updater) returns (handle: UpdaterDisposable)
      requires Valid()
      modifies this`updaters
      ensures Valid()
      ensures updaters == old(updaters)[tool.id := updater]
      ensures tools == old(tools) && order == old(order) && events == old(events)
      ensures fresh(handle) && handle.registry == this && handle.toolId == tool.id
      ensures forall i :: 0 <= i < |CliToolInfos()| ==>
        CliToolInfos()[i] == if order[i] == tool.id then ToInfo(tools[order[i]], Some(updater)) else old(CliToolInfos())[i]
    {
      updaters := updaters[tool.id := updater];
      handle := new UpdaterDisposable(this, tool.id);
    }

    /**
     * `updateCliTool`: calls `doUpdate` of the updater registered for `id`
     * exactly once, or does nothing, without error, when there is none.
     * Neither store and no notification changes.
     */
    method UpdateCliTool(id: string)
      requires Valid()
      modifies this`calls
      ensures Valid()
      ensures calls == old(calls) + if id in updaters then [DoUpdate(id, updaters[id])] else []
      ensures tools == old(tools) && updaters == old(updaters) && events == old(events)
    {
      if id in updaters {
        calls := calls + [DoUpdate(id, updaters[id])];
      }
    }

    /**
     * `selectCliToolVersionToUpdate`: fails with "No updater registered for
     * <id>" when no updater or a predefined-version updater is registered for
     * `id`; otherwise calls that updater's `selectVersion` once and returns
     * its result. Neither store and no notification changes.
     */
    method SelectCliToolVersionToUpdate(id: string) returns (r: Result<string, string>)
      requires Valid()
      modifies this`calls
      ensures Valid()
      ensures r == SelectOutcome(updaters, id)
      ensures calls == old(calls) + if r.Success? then [SelectVersion(id, updaters[id])] else []
      ensures tools == old(tools) && updaters == old(updaters) && events == old(events)
    {
      if id !in updaters || IsUpdaterToPredefinedVersion(updaters[id]) {
        r := Failure(NoUpdaterMessage(id));
      } else {
        calls := calls + [SelectVersion(id, updaters[id])];
        r := Success(updaters[id].selected);
      }
    }

    /**
     * `disposeCliTool`: removes the tool's id from both stores and sends one
     * `cli-tool-remove` notification with the id. Every other entry stays,
     * and the snapshot loses exactly the disposed tool's entry.
     */
    method DisposeCliTool(tool: CliTool)
      requires Valid()
      modifies this`tools, this`order, this`updaters, this`events
      ensures Valid()
      ensures tools == old(tools) - {tool.id}
      ensures order == Without(old(order), tool.id)
      ensures updaters == old(updaters) - {tool.id}
      ensures events == old(events) + [Event(RemoveEvent, Some(tool.id))]
      ensures CliToolInfos() == DropId(old(CliToolInfos()), tool.id)
      ensures forall i :: 0 <= i < |CliToolInfos()| ==> CliToolInfos()[i].id != tool.id
    {
      DeleteKeepsStoreInvariant(order, tools, tool.id);
      tools := tools - {tool.id};
      order := Without(order, tool.id);
      updaters := updaters - {tool.id};
      events := events + [Event(RemoveEvent, Some(tool.id))];
      assert Valid();
      assert CliToolInfos() == DropId(old(CliToolInfos()), tool.id) by {
        SnapshotWithout(old(order), old(tools), old(updaters), tool.id);
      }
    }
  }

  /**
   * The handle `registerUpdate` returns. Releasing it removes whatever
   * updater is then stored under the tool's id (not necessarily the one it
   * was created for) and sends one `cli-tool-change` notification with the id.
   */
  class UpdaterDisposable {
    const registry: CliToolRegistry
    const toolId: string

    constructor (registry: CliToolRegistry, toolId: string)
      ensures this.registry == registry && this.toolId == toolId
    {
      this.registry := registry;
      this.toolId := toolId;
    }

    method Dispose()
      requires registry.Valid()
      modifies registry`updaters, registry`events
      ensures registry.Valid()
      ensures registry.updaters == old(registry.updaters) - {toolId}
      ensures registry.events == old(registry.events) + [Event(ChangeEvent, Some(toolId))]
      ensures forall i :: 0 <= i < |registry.CliToolInfos()| ==>
        registry.CliToolInfos()[i] ==
          if registry.order[i] == toolId then ToInfo(registry.tools[toolId], None) else old(registry.CliToolInfos())[i]
    {
      registry.updaters := registry.updaters - {toolId};
      registry.events := registry.events + [Event(ChangeEvent, Some(toolId))];
    }
  }

  /**
   * Releasing the handle of an earlier registration after the updater was
   * replaced removes the newer updater: the tool is left with none.
   */
  method StaleHandleRemovesNewerUpdater(registry: CliToolRegistry, tool: CliTool, first: Updater, second: Updater)
    requires registry.Valid()
    modifies registry
    ensures registry.Valid()
    ensures tool.id !in registry.updaters
    ensures registry.events == old(registry.events) + [Event(ChangeEvent, Some(tool.id))]
  {
    var firstHandle := registry.RegisterUpdate(tool, first);
    var secondHandle := registry.RegisterUpdate(tool, second);
    assert registry.updaters[tool.id] == second;
    firstHandle.Dispose();
  }
}
