/**
 The four interception wrappers and the save/patch/restore of the
 relationship manager's function slots, on values. A slot holds a function
 reference: nothing, one of the host's originals, or a wrapper around the
 reference it replaced. The Plugin module's methods are proved against
 these functions.
 */
module Interception {
  import opened Relationships
  import opened Config

  /** The four wrapped entry points. */
  datatype Op = RemoveRelationship | AddRelationship | BlockUser | UnblockUser

  /** A function reference held in a slot; `Missing` is `undefined`. */
  datatype Fn = Missing | Original(id: nat) | Wrapped(op: Op, inner: Fn)

  /** What calling a slot gives back: the host's reply, or the TypeError of calling `undefined`. */
  datatype CallResult<R> = Returned(reply: R) | NotAFunction

  /** `args[0]`, the user id every wrapper reads; `undefined` when there are no arguments. */
  function Target(args: seq<string>): Option<UserId> {
    if |args| > 0 then Some(args[0]) else None
  }

  /** `getRelationshipType(userId)`: the store's code, NONE for a user with no entry. */
  function TypeOf(store: map<UserId, int>, id: UserId): int {
    if id in store then store[id] else NONE
  }

  /** The operation-specific part of a wrapper's test. */
  predicate Gate(op: Op, relationshipType: int, cfg: Config) {
    match op
    case RemoveRelationship => relationshipType == FRIEND && cfg.notifyFriendRemovals
    case AddRelationship => cfg.notifyFriendAdds
    case BlockUser => cfg.notifyBlocks
    case UnblockUser => cfg.notifyUnblocks
  }

  function YouKind(op: Op): Kind {
    match op
    case RemoveRelationship => YouRemoved
    case AddRelationship => YouAdded
    case BlockUser => YouBlocked
    case UnblockUser => YouUnblocked
  }

  /** The toast (if any) one wrapper of `op` shows before it delegates. */
  function WrapperNote(op: Op, args: seq<string>, users: map<UserId, User>, store: map<UserId, int>, cfg: Config): seq<Event> {
    match Target(args)
    case None => []
    case Some(id) =>
      if id in users && Gate(op, TypeOf(store, id), cfg) && !(cfg.ignoreBots && users[id].bot)
      then [Toast(Notification(YouKind(op), id, users[id].username))]
      else []
  }

  /** The reference a chain of wrappers finally delegates to. */
  function Root(f: Fn): Fn {
    if f.Wrapped? then Root(f.inner) else f
  }

  /** The toasts of every wrapper layer of `f`, outermost first. */
  function Notes(f: Fn, args: seq<string>, users: map<UserId, User>, store: map<UserId, int>, cfg: Config): seq<Event> {
    match f
    case Wrapped(op, inner) => WrapperNote(op, args, users, store, cfg) + Notes(inner, args, users, store, cfg)
    case _ => []
  }

  /** The call of the host's original at the bottom of a chain, if there is one. */
  function FinalCall(f: Fn, args: seq<string>): seq<Event> {
    match Root(f)
    case Original(k) => [Called(k, args)]
    case _ => []
  }

  /** How many wrapper layers `f` has. */
  function Depth(f: Fn): nat {
    if f.Wrapped? then 1 + Depth(f.inner) else 0
  }

  /** The manager's four slots. */
  datatype SlotTable = SlotTable(removeRelationship: Fn, addRelationship: Fn, blockUser: Fn, unblockUser: Fn)

  /** `origFunctions` right after `this.origFunctions = {}` when no manager was found. */
  const NothingSaved := SlotTable(Missing, Missing, Missing, Missing)

  /** Each slot replaced by its wrapper around the reference it held. */
  function PatchAll(s: SlotTable): SlotTable {
    SlotTable(
      Wrapped(RemoveRelationship, s.removeRelationship),
      Wrapped(AddRelationship, s.addRelationship),
      Wrapped(BlockUser, s.blockUser),
      Wrapped(UnblockUser, s.unblockUser))
  }

  /** `if (saved) slot = saved`: a falsy saved reference leaves the slot alone. */
  function RestoreSlot(slot: Fn, saved: Fn): Fn {
    if saved != Missing then saved else slot
  }

  /** onStop's restore; `None` is `origFunctions` still undefined. */
  function Restore(s: SlotTable, saved: Option<SlotTable>): SlotTable {
    match saved
    case None => s
    case Some(o) =>
      SlotTable(
        RestoreSlot(s.removeRelationship, o.removeRelationship),
        RestoreSlot(s.addRelationship, o.addRelationship),
        RestoreSlot(s.blockUser, o.blockUser),
        RestoreSlot(s.unblockUser, o.unblockUser))
  }

  // ---------------------------------------------------------------------
  // The wrappers

  /**
   The remove wrapper shows "You removed" exactly when the user has a record,
   the store says FRIEND before the call, the flag is on and the bot filter
   does not drop the user.
   */
  lemma RemoveWrapperIff(args: seq<string>, users: map<UserId, User>, store: map<UserId, int>, cfg: Config)
    ensures var note := WrapperNote(RemoveRelationship, args, users, store, cfg);
      && |note| <= 1
      && (note != [] <==>
           && |args| > 0 && args[0] in users
           && args[0] in store && store[args[0]] == FRIEND
           && cfg.notifyFriendRemovals
           && !(cfg.ignoreBots && users[args[0]].bot))
      && (note != [] ==> note[0] == Toast(Notification(YouRemoved, args[0], users[args[0]].username)))
  {
  }

  /**
   The add, block and unblock wrappers need only a user record, their own
   flag and the bot filter; what the store says does not matter.
   */
  lemma OtherWrappersIff(op: Op, args: seq<string>, users: map<UserId, User>, store: map<UserId, int>, cfg: Config)
    requires op != RemoveRelationship
    ensures var note := WrapperNote(op, args, users, store, cfg);
      && |note| <= 1
      && (note != [] <==>
           && |args| > 0 && args[0] in users
           && (match op
               case AddRelationship => cfg.notifyFriendAdds
               case BlockUser => cfg.notifyBlocks
               case _ => cfg.notifyUnblocks)
           && !(cfg.ignoreBots && users[args[0]].bot))
      && (note != [] ==> note[0] == Toast(Notification(YouKind(op), args[0], users[args[0]].username)))
      && (forall other: map<UserId, int> :: WrapperNote(op, args, users, other, cfg) == note)
  {
  }

  /** A bot is never announced by any wrapper while bots are ignored. */
  lemma WrappersIgnoreBots(op: Op, args: seq<string>, users: map<UserId, User>, store: map<UserId, int>, cfg: Config)
    requires cfg.ignoreBots && |args| > 0 && args[0] in users && users[args[0]].bot
    ensures WrapperNote(op, args, users, store, cfg) == []
  {
  }

  /**
   Calling a chain shows only toasts, at most one per wrapper layer, each
   about the first argument, and all of them before the one call of the
   original, which gets the same argument list.
   */
  lemma {:induction false} ChainEffects(f: Fn, args: seq<string>, users: map<UserId, User>, store: map<UserId, int>, cfg: Config)
    ensures var notes := Notes(f, args, users, store, cfg);
      && |notes| <= Depth(f)
      && (forall e :: e in notes ==> e.Toast? && Target(args) == Some(e.note.subject))
  {
    if f.Wrapped? {
      ChainEffects(f.inner, args, users, store, cfg);
    }
  }

  /** A single wrapper around an original: at most one toast, then exactly one call. */
  lemma SingleWrapper(op: Op, k: nat, args: seq<string>, users: map<UserId, User>, store: map<UserId, int>, cfg: Config)
    ensures var f := Wrapped(op, Original(k));
      && Notes(f, args, users, store, cfg) + FinalCall(f, args) == WrapperNote(op, args, users, store, cfg) + [Called(k, args)]
      && |WrapperNote(op, args, users, store, cfg)| <= 1
  {
    var note := WrapperNote(op, args, users, store, cfg);
    assert Notes(Wrapped(op, Original(k)), args, users, store, cfg) == note + [];
    assert Root(Wrapped(op, Original(k))) == Original(k);
    assert FinalCall(Wrapped(op, Original(k)), args) == [Called(k, args)];
  }

  // ---------------------------------------------------------------------
  // The lifecycle

  /**
   onStart then onStop puts back every slot whose saved reference was set;
   a slot that held nothing keeps its wrapper, since `if (saved)` skips it.
   */
  lemma StartThenStop(s: SlotTable)
    ensures var r := Restore(PatchAll(s), Some(s));
      && r.removeRelationship == (if s.removeRelationship != Missing then s.removeRelationship else Wrapped(RemoveRelationship, Missing))
      && r.addRelationship == (if s.addRelationship != Missing then s.addRelationship else Wrapped(AddRelationship, Missing))
      && r.blockUser == (if s.blockUser != Missing then s.blockUser else Wrapped(BlockUser, Missing))
      && r.unblockUser == (if s.unblockUser != Missing then s.unblockUser else Wrapped(UnblockUser, Missing))
  {
  }

  /** When every slot held a reference, onStart then onStop is the identity on the slots. */
  lemma StartThenStopRoundTrip(s: SlotTable)
    requires s.removeRelationship != Missing && s.addRelationship != Missing
    requires s.blockUser != Missing && s.unblockUser != Missing
    ensures Restore(PatchAll(s), Some(s)) == s
  {
  }

  /** onStop before any onStart, or after one that found no manager, changes no slot. */
  lemma StopWithoutPatchIsNoOp(s: SlotTable)
    ensures Restore(s, None) == s
    ensures Restore(s, Some(NothingSaved)) == s
  {
  }

  /** A second onStop restores nothing more than the first. */
  lemma StopIdempotent(s: SlotTable, saved: Option<SlotTable>)
    ensures Restore(Restore(s, saved), saved) == Restore(s, saved)
  {
  }

  /**
   A second onStart before onStop saves the first wrappers as the originals,
   so the onStop that follows leaves one layer of wrappers installed.
   */
  lemma DoubleStartThenStop(s: SlotTable)
    ensures Restore(PatchAll(PatchAll(s)), Some(PatchAll(s))) == PatchAll(s)
  {
  }
}
