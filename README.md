# CLI tool registry — a verified Dafny model

This project models the CLI tool registry of Podman Desktop
(`packages/main/src/plugin/cli-tool-registry.ts`). The registry is the
in-memory authority over command-line tool plugins. It keeps two stores keyed
by tool id: the tool records and the update strategies ("updaters"). It
creates and disposes tool records. It attaches updaters through a revocable
handle. It dispatches update and version-selection requests to the registered
updater, and it builds the snapshot list `getCliToolInfos` for consumers.

Layout:

- `wrappers.dfy` — `Option` (the source's `undefined`) and `Result` (a thrown `Error`).
- `cli_tools.dfy` — module `CliTools`, the pure part. It holds the tool record,
  the two updater kinds as a tagged datatype, the snapshot entry, the
  notification and the strategy-call records. It also holds the discriminator
  `IsUpdaterToPredefinedVersion`, the selection outcome, the snapshot
  `Snapshot` and the lemmas about them.
- `registry.dfy` — module `Registry`. The class `CliToolRegistry` holds the two
  stores as `map` fields that its methods reassign. A `seq` field `order`
  keeps the tool store's iteration order: a JavaScript `Map` iterates in first
  insertion order, and re-setting a key keeps its place. The class
  `UpdaterDisposable` is the handle that `registerUpdate` returns. It captures
  the registry and the tool id, as the source's closure does.

Notifications sent through `apiSender.send` are appended to a ghost log
`events` of `(name, optional id)`. Calls into an updater's own code
(`doUpdate`, `selectVersion`) are appended to a ghost log `calls`. A
`Selectable` updater carries, as a parameter, the version its `selectVersion()`
resolves to.

The tool store's invariant (`CliTools.StoreInvariant`) says two things.
`order` lists every stored id exactly once, and every tool is stored under its
own id. The registry's invariant (`Registry.CliToolRegistry.Valid`) adds a
third: every stored id has had its version-changed callback subscribed.

Behaviour of the code worth noting; the model follows it:

- Releasing a handle deletes whatever updater is stored under the tool id at
  that moment. If `registerUpdate` was called again for the same tool, the
  older handle therefore removes the newer updater
  (`Registry.StaleHandleRemovesNewerUpdater`).
- The release callback deletes whatever is stored under the id and sends one
  `cli-tool-change` notification, even after the tool was disposed.
- `registerUpdate` accepts a tool that is not in the tool store, so the
  updater store may hold ids the tool store does not. Such an updater has no
  snapshot entry.
- The version-changed subscription made by `createCliTool` is never removed,
  so the callback can still send `cli-tool-change` after the tool is disposed
  (the ghost set `subscribed` only grows).

## Model

| member | source | states |
|---|---|---|
| `CliTools.IsUpdaterToPredefinedVersion` | packages/main/src/plugin/cli-tool-registry.ts:69-71 | the structural test (the `version` property is defined) holds exactly of predefined-version updaters and fails exactly for selectable ones, so the two kinds are exclusive and exhaustive |
| `CliTools.SelectOutcome` | packages/main/src/plugin/cli-tool-registry.ts:61-67 | selection fails, with the message "No updater registered for <id>", iff no updater is stored for the id or the stored one has a predefined version; otherwise it succeeds with exactly the selectable updater's selected version |
| `CliTools.ToInfo` | packages/main/src/plugin/cli-tool-registry.ts:81-99 | a snapshot entry copies the tool's fields; `newVersion` is defined iff a predefined-version updater is registered, and then equals its version; `canUpdate` holds iff some updater is registered and the installation source is `extension` |
| `CliTools.Snapshot` | packages/main/src/plugin/cli-tool-registry.ts:79-101 | the snapshot has one entry per id of the insertion order, in that order, and entry i is built from the tool and the updater stored under the i-th id |
| `CliTools.Without` | packages/main/src/plugin/cli-tool-registry.ts:74 | deleting a key from the insertion order keeps exactly the other ids, and changes nothing when the key is absent |
| `CliTools.WithoutDistinct` | packages/main/src/plugin/cli-tool-registry.ts:74 | deleting a key keeps the insertion order free of duplicates |
| `CliTools.DistinctAt` | packages/main/src/plugin/cli-tool-registry.ts:34 | in a duplicate-free insertion order, two different positions hold two different ids |
| `CliTools.DistinctAppend` | packages/main/src/plugin/cli-tool-registry.ts:39 | appending a new key keeps the insertion order free of duplicates |
| `CliTools.InsertKeepsStoreInvariant` | packages/main/src/plugin/cli-tool-registry.ts:39 | `Map.set` on the tool store keeps the store invariant: a new id goes last, an existing id keeps its place |
| `CliTools.DeleteKeepsStoreInvariant` | packages/main/src/plugin/cli-tool-registry.ts:74 | `Map.delete` on the tool store keeps the store invariant |
| `CliTools.SnapshotWithout` | packages/main/src/plugin/cli-tool-registry.ts:73-77 | after the id is deleted from both stores, the snapshot is the old snapshot with that tool's entry dropped, and the other entries keep their order and contents |
| `CliTools.SnapshotAppended` | packages/main/src/plugin/cli-tool-registry.ts:39 | storing a tool under a new id appends its entry to the end of the snapshot; earlier entries are unchanged |
| `CliTools.SnapshotReplaced` | packages/main/src/plugin/cli-tool-registry.ts:39 | storing a tool under an existing id replaces that entry in place; all other entries are unchanged |
| `CliTools.SnapshotIgnoresAbsentUpdater` | packages/main/src/plugin/cli-tool-registry.ts:79-83 | the snapshot looks up updaters only for stored ids, so deleting the updater of an id outside the order leaves the snapshot unchanged |
| `CliTools.CreateThenDispose` | packages/main/src/plugin/cli-tool-registry.ts:37-77 | creating a tool under a new id and then disposing it restores the earlier tool store, order and snapshot exactly; only the updater store differs, having lost any entry under that id |
| `CliTools.SnapshotOnePerTool` | packages/main/src/plugin/cli-tool-registry.ts:79-101 | under the store invariant, the snapshot has an entry for an id iff that id is stored, and no two entries share an id |
| `Registry.CliToolRegistry.constructor` | packages/main/src/plugin/cli-tool-registry.ts:29-35 | a new registry has empty stores, no notifications and no strategy calls |
| `Registry.CliToolRegistry.CliToolInfos` | packages/main/src/plugin/cli-tool-registry.ts:79-101 | `getCliToolInfos` returns one entry per stored tool, in insertion order, each built from the tool and its registered updater; it reads state only |
| `Registry.CliToolRegistry.CreateCliTool` | packages/main/src/plugin/cli-tool-registry.ts:37-42 | the tool is stored under its id; a new id goes last in the order and a known id keeps its place; exactly one `cli-tool-create` notification without an id is sent; the version callback is subscribed; the updaters are unchanged; the snapshot gains or replaces exactly that entry |
| `Registry.CliToolRegistry.CliToolVersionUpdated` | packages/main/src/plugin/cli-tool-registry.ts:41 | the subscribed version-changed callback sends exactly one `cli-tool-change` notification with the tool id and changes nothing else |
| `Registry.CliToolRegistry.RegisterUpdate` | packages/main/src/plugin/cli-tool-registry.ts:45-52 | the updater is stored under the tool id, replacing any earlier one (last write wins); the tool store and the notifications are unchanged; a fresh handle for that id and this registry is returned; only that id's snapshot entry changes |
| `Registry.UpdaterDisposable.Dispose` | packages/main/src/plugin/cli-tool-registry.ts:48-51 | releasing the handle removes the updater entry for its id, whichever updater is stored there, and sends exactly one `cli-tool-change` notification with that id; that id's snapshot entry loses `newVersion` and `canUpdate` |
| `Registry.CliToolRegistry.UpdateCliTool` | packages/main/src/plugin/cli-tool-registry.ts:54-59 | calls the registered updater's `doUpdate` exactly once, or nothing when none is registered (no error); the stores and the notifications are unchanged |
| `Registry.CliToolRegistry.SelectCliToolVersionToUpdate` | packages/main/src/plugin/cli-tool-registry.ts:61-67 | the result is the selection outcome above; `selectVersion` is called exactly once on success and never on failure; the stores and the notifications are unchanged |
| `Registry.CliToolRegistry.DisposeCliTool` | packages/main/src/plugin/cli-tool-registry.ts:73-77 | the id is removed from both stores and from the order; all other entries are untouched; exactly one `cli-tool-remove` notification with the id is sent; the snapshot is the old one without that tool's entry, and no entry carries the id |
| `Registry.StaleHandleRemovesNewerUpdater` | packages/main/src/plugin/cli-tool-registry.ts:45-51 | registering two updaters for one tool and then releasing the first handle leaves the tool with no updater and sends one `cli-tool-change` notification |

## Left out

- The tool record's own implementation (`CliToolImpl`: state detection, discovery of `version`, `path` and `installationSource`) is not part of this model. The tool is a value record whose id the constructor has already assigned. `CreateCliTool` takes that record as a parameter.
- Changes the tool record makes to its own fields after creation are not modelled. The snapshot reads the record as it was stored. The version-changed callback is modelled only as the notification it sends (`CliToolVersionUpdated`).
- Process execution (`Exec`) is passed through to the tool constructor and is not modelled.
- The notification transport (`ApiSenderType`) is modelled as appending to the ghost `events` log.
- The internals of `Disposable` are not part of this model. `UpdaterDisposable.Dispose` models the release callback's body only, so nothing is claimed about releasing twice.
- Promises, `await` and the `Logger` passed to `doUpdate` are not modelled. The work `doUpdate` and `selectVersion` perform belongs to strategy code. Each is an entry in the ghost `calls` log, and `selectVersion`'s result is the `selected` field of a `Selectable` updater. Errors thrown by that code propagate unchanged in the source and are not modelled.
- `state` and `images` are opaque values (a string and a sequence of strings) that the snapshot copies through.
