# RelationshipNotifier, modelled in Dafny

RelationshipNotifier is a client plugin. It shows a toast when someone
removes you as a friend, adds you as a friend, blocks you or unblocks you, and
when you do one of those things yourself. Three pieces of `src/index.ts` hold
its logic, and this project models each of them:

- **The change handler** (`onRelationshipChange`). It compares the cached
  relationship map (user id → type code, FRIEND = 1, BLOCKED = 2, …) with the
  store's current map. A cached entry that vanished can only produce
  "removed you as a friend". A new or changed entry can produce "added",
  "blocked" and "unblocked", in that order. Self, users without a directory
  record and, when `ignoreBots` is set, bots are skipped. The cache is then
  replaced with the current map.
- **The four wrappers** (`patchRemoveRelationship`, `patchAddRelationship`,
  `patchBlockUser`, `patchUnblockUser`). Each may show one "You …" toast,
  decided on the state before the call. It then calls the wrapped reference
  once with the same arguments and returns its result unchanged.
- **The lifecycle** (`onStart`/`onStop`). `onStart` caches the store's map.
  If the relationship manager exists, it saves the manager's four function
  slots and replaces each with its wrapper. `onStop` puts back only the
  slots whose saved reference is set. The `??=` defaults are modelled too.

Layout:

- `relationships.dfy` (module `Relationships`): type codes, user records, snapshots, notifications, and the trace of events.
- `config.dfy` (module `Config`): the stored settings, the `??=` defaults, and the five flags.
- `rules.dfy` (module `Rules`): the per-entry rules, the handler's output as a function (`HandlerEvents`), and the lemmas about it.
- `interception.dfy` (module `Interception`): function references, wrapper toasts, and patch/restore of the slot table.
- `plugin.dfy` (module `Plugin`): the mutable objects.
  - `RelationshipManager` has the four slots as fields.
  - `RelationshipNotifier` has the cache, the saved slots, the listener flag and the trace.
  - Its methods are proved against the functions above.
- `scenarios.dfy` (module `Scenarios`): worked examples, including a client method that runs wrap, call and restore.

Modelling choices:

- **One trace.** Every toast and every call of a host original goes on one
  `trace: seq<Event>`. That is how "the toast comes before the call" is stated.
- **Subject id on toasts.** A toast carries the id of the user it is about.
  The shown text (`Text`) holds only the username. The id is there so that
  "never about self" can be stated.
- **Key order.** A snapshot is a map plus the key order `Object.entries`
  yields. `WellFormed` says every key is listed exactly once. The order is
  an input.
- **Function references.** A slot holds `Missing` (`undefined`),
  `Original(k)` (a host function) or `Wrapped(op, inner)`. What an original
  returns, or throws, is the opaque `reply` that `Invoke` hands back.
- **Lookups.** `getRelationshipType(id)` is modelled as a lookup in the
  store's map, with NONE for a user who has no entry. `UserStore.getUser` is
  the `users` map. `getCurrentUser().id` is `Env.selfId`.
- **Settings.** `storage` is read through `Config`, passed to each call.
  The handler and the wrappers are synchronous, so the flags cannot change
  during one call.

Behaviours worth noting:

- **BLOCKED → FRIEND.** The toasts come as "added", then "unblocked"
  (`BlockedToFriendDualFire`).
- **An absent entry is not the same as an entry with code NONE.**
  - A FRIEND entry that turns into an explicit NONE entry shows nothing (`FriendToPresentNoneSilent`).
  - A BLOCKED entry that turns into NONE shows "unblocked".
  - A BLOCKED entry that vanishes shows nothing (`UnblockedYouIff`, `VanishedBlockSilent`).
- **A repeated text is not a repeated notification.** No (kind, user id)
  pair is shown twice in one run, but two users with the same username who
  both vanish get two toasts with the same text (`SharedUsernameRepeatsText`).
- **Restore is not complete.**
  - A slot that held nothing at `onStart` keeps its wrapper after `onStop` (`StartThenStop`).
  - A second `onStart` before `onStop` saves the first wrappers as "originals". The next `onStop` then leaves one layer of wrappers installed (`DoubleStartThenStop`).

## Model

| member | source | states |
|---|---|---|
| Config.FreshInstallDefaults | src/index.ts:10-15 | on empty storage the flags read: adds, removals, blocks and unblocks on, ignoreBots off |
| Config.DefaultsKeepStoredValues | src/index.ts:10-15 | `??=` keeps every value the user stored, and after it no field is absent |
| Config.DefaultsDecide | src/index.ts:10-15 | after the defaults, each notification kind is on unless the user stored `false` for it, and bots are ignored only if the user stored `true` |
| Config.DefaultsIdempotent | src/index.ts:10-15 | running the defaults block a second time changes nothing |
| Rules.RemovalEventsSound | src/index.ts:93-107 | every toast of the first loop is a "removed you" toast about a cached FRIEND that vanished, is not self, has a record, passes the bot filter, with the removals flag on |
| Rules.RemovalEventsComplete | src/index.ts:93-107 | every such toast for an enumerated cached entry is shown |
| Rules.ChangeEventsSound | src/index.ts:110-140 | every toast of the second loop is an added/blocked/unblocked toast about a present, non-self, eligible user whose rule holds for its previous and current type |
| Rules.ChangeEventsComplete | src/index.ts:110-140 | every toast a rule allows for an enumerated current entry is shown |
| Rules.HandlerEventsExactly | src/index.ts:88-144 | a toast is shown by one handler run if and only if the removal rule or one of the change rules allows it |
| Rules.HandlerToastsAreFiltered | src/index.ts:93-118 | the handler shows only toasts, never about self, only about users with a record that pass the bot filter, under their username |
| Rules.UnchangedUserSilent | src/index.ts:112 | a user whose cached and current type are equal gets no toast |
| Rules.VanishedBlockSilent | src/index.ts:93-107 | a cached BLOCKED entry that vanished gets no toast at all, in particular no "unblocked" |
| Rules.RemovedYouIff | src/index.ts:93-107 | "removed you" for a user is shown iff they were cached as FRIEND, are absent now, are not self, are eligible, and the removals flag is on |
| Rules.AddedYouIff | src/index.ts:121-125 | "added you" is shown iff the user is present as FRIEND, was not cached as FRIEND, is not self, is eligible, and the adds flag is on |
| Rules.BlockedYouIff | src/index.ts:128-132 | "blocked you" is shown iff the user is present as BLOCKED, was not cached as BLOCKED, is not self, is eligible, and the blocks flag is on |
| Rules.UnblockedYouIff | src/index.ts:135-139 | "unblocked you" is shown iff the user is present and not BLOCKED, was cached as BLOCKED, is not self, is eligible, and the unblocks flag is on |
| Rules.FriendToPresentNoneSilent | src/index.ts:95-139 | a cached FRIEND still present with code NONE gets no toast |
| Rules.BlockedToFriendDualFire | src/index.ts:121-139 | BLOCKED to FRIEND shows "added" then "unblocked", each only under its own flag |
| Rules.RemovalSubjects | src/index.ts:93-107 | the first loop's toasts over the first n entries are about users among those n keys |
| Rules.ChangeSubjects | src/index.ts:110-140 | the second loop's toasts over the first n entries are about users among those n keys |
| Rules.ChangeEntryFacts | src/index.ts:121-139 | one entry's toasts are about that user and pairwise different |
| Rules.RemovalEventsNoDuplicates | src/index.ts:93-107 | the first loop never repeats a (kind, user id) notification |
| Rules.ChangeEventsNoDuplicates | src/index.ts:110-140 | the second loop never repeats a (kind, user id) notification |
| Rules.HandlerEventsNoDuplicates | src/index.ts:88-144 | one handler run never shows the same (kind, user id) notification twice; the shown text can still repeat when two users share a username |
| Interception.RemoveWrapperIff | src/index.ts:147-161 | the remove wrapper shows at most one toast, "You removed", iff the first argument has a record, its type before the call is FRIEND, the removals flag is on and the bot filter passes |
| Interception.OtherWrappersIff | src/index.ts:164-209 | the add, block and unblock wrappers show at most one toast iff the first argument has a record, their own flag is on and the bot filter passes; the store's state does not matter |
| Interception.WrappersIgnoreBots | src/index.ts:147-209 | no wrapper announces a bot while `ignoreBots` is on |
| Interception.ChainEffects | src/index.ts:147-210 | a chain of wrappers shows at most one toast per layer, each about the first argument, and nothing but toasts before the final call |
| Interception.SingleWrapper | src/index.ts:164-177 | one wrapper around an original: at most one toast, then exactly the call of that original with the same arguments |
| Interception.StartThenStop | src/index.ts:42-86 | after patch then restore, each slot whose saved reference was set holds it again; a slot that held nothing keeps its wrapper |
| Interception.StartThenStopRoundTrip | src/index.ts:50-85 | when all four slots held a reference, patch then restore is the identity |
| Interception.StopWithoutPatchIsNoOp | src/index.ts:75-85 | restore with `origFunctions` undefined, or with an empty saved table, changes no slot |
| Interception.StopIdempotent | src/index.ts:75-85 | restoring twice equals restoring once |
| Interception.DoubleStartThenStop | src/index.ts:47-85 | two patches then one restore leave exactly one layer of wrappers |
| Plugin.RelationshipNotifier.Notify | src/index.ts:213-215 | appends exactly one toast to the trace |
| Plugin.RelationshipNotifier.OnStart | src/index.ts:42-68 | the cache becomes the store's map and the handler is registered; with a manager, the saved table is its old slots and every slot holds its wrapper; without one, nothing is saved |
| Plugin.RelationshipNotifier.OnStop | src/index.ts:70-86 | the handler is unregistered and the manager's slots become `Restore(old slots, origFunctions)` |
| Plugin.RelationshipNotifier.CheckRemoved | src/index.ts:93-107 | the first callback appends exactly that entry's removal toast, if any |
| Plugin.RelationshipNotifier.CheckChanged | src/index.ts:110-140 | the second callback appends exactly that entry's added/blocked/unblocked toasts, in that order |
| Plugin.RelationshipNotifier.ReportRemovals | src/index.ts:93-107 | the first loop appends the removal toasts of all cached entries in enumeration order |
| Plugin.RelationshipNotifier.ReportChanges | src/index.ts:110-140 | the second loop appends the change toasts of all current entries in enumeration order |
| Plugin.RelationshipNotifier.OnRelationshipChange | src/index.ts:88-144 | the trace grows by exactly `HandlerEvents(old cache, current)` and the cache then equals the current map |
| Plugin.RelationshipNotifier.Invoke | src/index.ts:147-210 | calling a slot appends each wrapper layer's toast, then the single call of the original with the same arguments; the original's reply is returned unchanged |
| Scenarios.FriendRemovalScenario | src/index.ts:93-107 | {u1: FRIEND} to {} shows exactly "removed you" about u1 |
| Scenarios.NewBlockScenario | src/index.ts:127-132 | {} to {u1: BLOCKED} shows exactly "blocked you" about u1 |
| Scenarios.UnblockAndAddScenario | src/index.ts:120-139 | {u1: BLOCKED} to {u1: FRIEND} shows "added" then "unblocked" |
| Scenarios.BotSuppressionScenario | src/index.ts:114-118 | a bot with `ignoreBots` on gets no toast from the handler nor from any wrapper |
| Scenarios.FriendRemovalText | src/index.ts:105 | the removal toast for alice reads "alice removed you as a friend." |
| Scenarios.NewBlockText | src/index.ts:131 | the block toast for alice reads "alice blocked you." |
| Scenarios.AddedText | src/index.ts:124 | the add toast for alice reads "alice added you as a friend." |
| Scenarios.UnblockedText | src/index.ts:138 | the unblock toast for alice reads "alice unblocked you." |
| Scenarios.LocalAddText | src/index.ts:172 | the add wrapper's toast for alice reads "You added alice as a friend." |
| Scenarios.SharedUsernameText | src/index.ts:105 | the removal text depends only on the username, so two users named bob get the same string |
| Scenarios.SharedUsernameRepeatsText | src/index.ts:93-107 | two vanished friends named bob give two different notifications with the same shown text |

## Left out

- src/Settings.tsx: the settings screen that toggles the storage fields. It is rendering only; the model takes the flags as an input.
- `showToast` and its 5000 ms duration: a display side effect. `notify` appends to the trace.
- `findByProps`, `definePlugin`, `after`, `findInReactTree` and the `storage` persistence proxy: host plumbing. The model receives the manager, the maps and the flags as inputs.
- `storage.showInChat ??= true` (src/index.ts:14): written but never read.
- Listener registration: recorded only as a flag. The identity of the bound handler is not modelled, so a second `onStart` that registers a second handler is not tracked.
- Reentrancy: an original that synchronously runs the change handler inside the wrapper's call is not modelled. Host event dispatch is not visible.
- What the originals do to the store: the model does not update the relationship map when an original runs.
- Asynchronous results and thrown errors of the originals: both are the opaque `reply` that `Invoke` passes through.
- Wrapper arguments: modelled as strings with the user id first. An argument of another shape (an object) is not represented.
- `Object.entries` order: an input of the model (`Snapshot.order`), not computed from the keys.
- `getRelationshipType`, `UserStore.getUser` and `getCurrentUser`: their implementations are not part of this model. The first is taken to be a lookup in the store's map that gives NONE for a missing entry.
