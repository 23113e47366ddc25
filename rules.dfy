/**
 The rule table of the relationship-change handler: which toasts one cached
 entry and one current entry produce, and the whole handler output as the
 concatenation of those, in enumeration order. The handler method in module
 Plugin is proved to append exactly `HandlerEvents`.
 */
module Rules {
  import opened Relationships
  import opened Config

  /** The directory has a record for `id` and the bot filter does not drop it. */
  predicate Eligible(users: map<UserId, User>, id: UserId, cfg: Config) {
    id in users && !(cfg.ignoreBots && users[id].bot)
  }

  // The first loop skips an entry that is still present, or is self.
  predicate StillPresentOrSelf(id: UserId, current: map<UserId, int>, selfId: UserId) {
    id in current || id == selfId
  }

  // The second loop skips an entry whose type did not change, or is self.
  predicate UnchangedOrSelf(id: UserId, curType: int, cached: map<UserId, int>, selfId: UserId) {
    Lookup(cached, id) == Some(curType) || id == selfId
  }

  predicate FiresRemoval(prevType: int, cfg: Config) {
    prevType == FRIEND && cfg.notifyFriendRemovals
  }

  predicate FiresAdd(prev: Option<int>, curType: int, cfg: Config) {
    curType == FRIEND && prev != Some(FRIEND) && cfg.notifyFriendAdds
  }

  predicate FiresBlock(prev: Option<int>, curType: int, cfg: Config) {
    curType == BLOCKED && prev != Some(BLOCKED) && cfg.notifyBlocks
  }

  predicate FiresUnblock(prev: Option<int>, curType: int, cfg: Config) {
    curType != BLOCKED && prev == Some(BLOCKED) && cfg.notifyUnblocks
  }

  function ToastIf(c: bool, n: Notification): seq<Event> {
    if c then [Toast(n)] else []
  }

  /** What the first loop shows for one cached entry `(id, prevType)`. */
  function RemovalEntry(id: UserId, prevType: int, current: map<UserId, int>, env: Env, cfg: Config): seq<Event> {
    if StillPresentOrSelf(id, current, env.selfId) || !Eligible(env.users, id, cfg) then []
    else ToastIf(FiresRemoval(prevType, cfg), Notification(RemovedYou, id, env.users[id].username))
  }

  /** What the second loop shows for one current entry `(id, curType)`: added, blocked, unblocked, in that order. */
  function ChangeEntry(id: UserId, curType: int, cached: map<UserId, int>, env: Env, cfg: Config): seq<Event> {
    if UnchangedOrSelf(id, curType, cached, env.selfId) || !Eligible(env.users, id, cfg) then []
    else
      var name := env.users[id].username;
      var prev := Lookup(cached, id);
      ToastIf(FiresAdd(prev, curType, cfg), Notification(AddedYou, id, name))
      + ToastIf(FiresBlock(prev, curType, cfg), Notification(BlockedYou, id, name))
      + ToastIf(FiresUnblock(prev, curType, cfg), Notification(UnblockedYou, id, name))
  }

  /** The first loop's toasts for the first `n` cached entries. */
  function RemovalEvents(cached: Snapshot, n: nat, current: map<UserId, int>, env: Env, cfg: Config): seq<Event>
    requires WellFormed(cached) && n <= |cached.order|
  {
    if n == 0 then []
    else
      var id := cached.order[n - 1];
      RemovalEvents(cached, n - 1, current, env, cfg) + RemovalEntry(id, cached.types[id], current, env, cfg)
  }

  /** The second loop's toasts for the first `n` current entries. */
  function ChangeEvents(current: Snapshot, n: nat, cached: map<UserId, int>, env: Env, cfg: Config): seq<Event>
    requires WellFormed(current) && n <= |current.order|
  {
    if n == 0 then []
    else
      var id := current.order[n - 1];
      ChangeEvents(current, n - 1, cached, env, cfg) + ChangeEntry(id, current.types[id], cached, env, cfg)
  }

  /** Everything one run of the handler shows, going from `cached` to `current`. */
  function HandlerEvents(cached: Snapshot, current: Snapshot, env: Env, cfg: Config): seq<Event>
    requires WellFormed(cached) && WellFormed(current)
  {
    RemovalEvents(cached, |cached.order|, current.types, env, cfg)
    + ChangeEvents(current, |current.order|, cached.types, env, cfg)
  }

  // ---------------------------------------------------------------------
  // What a toast of each loop means

  /** `e` is a "removed you" toast that the first loop's rule allows. */
  predicate IsRemovalToast(e: Event, cached: map<UserId, int>, current: map<UserId, int>, env: Env, cfg: Config) {
    && e.Toast?
    && var id := e.note.subject;
    && e.note.kind == RemovedYou
    && id in cached && !StillPresentOrSelf(id, current, env.selfId)
    && Eligible(env.users, id, cfg) && e.note.username == env.users[id].username
    && FiresRemoval(cached[id], cfg)
  }

  /** `e` is an added, blocked or unblocked toast that the second loop's rules allow. */
  predicate IsChangeToast(e: Event, cached: map<UserId, int>, current: map<UserId, int>, env: Env, cfg: Config) {
    && e.Toast?
    && var id := e.note.subject;
    && id in current && id != env.selfId
    && Eligible(env.users, id, cfg) && e.note.username == env.users[id].username
    && var prev, cur := Lookup(cached, id), current[id];
    match e.note.kind
    case AddedYou => FiresAdd(prev, cur, cfg)
    case BlockedYou => FiresBlock(prev, cur, cfg)
    case UnblockedYou => FiresUnblock(prev, cur, cfg)
    case _ => false
  }

  /** Every toast of the first loop is one its rule allows. */
  lemma {:induction false} RemovalEventsSound(cached: Snapshot, n: nat, current: map<UserId, int>, env: Env, cfg: Config)
    requires WellFormed(cached) && n <= |cached.order|
    ensures forall e :: e in RemovalEvents(cached, n, current, env, cfg) ==> IsRemovalToast(e, cached.types, current, env, cfg)
  {
    if n > 0 {
      RemovalEventsSound(cached, n - 1, current, env, cfg);
    }
  }

  /** Every toast the first loop's rule allows for one of the first `n` entries is shown. */
  lemma {:induction false} RemovalEventsComplete(cached: Snapshot, n: nat, current: map<UserId, int>, env: Env, cfg: Config, j: nat, e: Event)
    requires WellFormed(cached) && j < n <= |cached.order|
    requires IsRemovalToast(e, cached.types, current, env, cfg) && e.note.subject == cached.order[j]
    ensures e in RemovalEvents(cached, n, current, env, cfg)
  {
    if j < n - 1 {
      RemovalEventsComplete(cached, n - 1, current, env, cfg, j, e);
    }
  }

  /** Every toast of the second loop is one its rules allow. */
  lemma {:induction false} ChangeEventsSound(current: Snapshot, n: nat, cached: map<UserId, int>, env: Env, cfg: Config)
    requires WellFormed(current) && n <= |current.order|
    ensures forall e :: e in ChangeEvents(current, n, cached, env, cfg) ==> IsChangeToast(e, cached, current.types, env, cfg)
  {
    if n > 0 {
      ChangeEventsSound(current, n - 1, cached, env, cfg);
    }
  }

  /** Every toast the second loop's rules allow for one of the first `n` entries is shown. */
  lemma {:induction false} ChangeEventsComplete(current: Snapshot, n: nat, cached: map<UserId, int>, env: Env, cfg: Config, j: nat, e: Event)
    requires WellFormed(current) && j < n <= |current.order|
    requires IsChangeToast(e, cached, current.types, env, cfg) && e.note.subject == current.order[j]
    ensures e in ChangeEvents(current, n, cached, env, cfg)
  {
    if j < n - 1 {
      ChangeEventsComplete(current, n - 1, cached, env, cfg, j, e);
    }
  }

  /** The handler shows exactly the toasts the rule table allows. */
  lemma HandlerEventsExactly(cached: Snapshot, current: Snapshot, env: Env, cfg: Config, e: Event)
    requires WellFormed(cached) && WellFormed(current)
    ensures e in HandlerEvents(cached, current, env, cfg) <==>
      IsRemovalToast(e, cached.types, current.types, env, cfg) || IsChangeToast(e, cached.types, current.types, env, cfg)
  {
    RemovalEventsSound(cached, |cached.order|, current.types, env, cfg);
    ChangeEventsSound(current, |current.order|, cached.types, env, cfg);
    if IsRemovalToast(e, cached.types, current.types, env, cfg) {
      var j :| 0 <= j < |cached.order| && cached.order[j] == e.note.subject;
      RemovalEventsComplete(cached, |cached.order|, current.types, env, cfg, j, e);
    }
    if IsChangeToast(e, cached.types, current.types, env, cfg) {
      var j :| 0 <= j < |current.order| && current.order[j] == e.note.subject;
      ChangeEventsComplete(current, |current.order|, cached.types, env, cfg, j, e);
    }
  }

  // ---------------------------------------------------------------------
  // Properties of the handler

  /** Only toasts, never about self, only about eligible users, with their username. */
  lemma HandlerToastsAreFiltered(cached: Snapshot, current: Snapshot, env: Env, cfg: Config)
    requires WellFormed(cached) && WellFormed(current)
    ensures forall e :: e in HandlerEvents(cached, current, env, cfg) ==>
      && e.Toast?
      && e.note.subject != env.selfId
      && e.note.subject in env.users
      && !(cfg.ignoreBots && env.users[e.note.subject].bot)
      && e.note.username == env.users[e.note.subject].username
  {
    RemovalEventsSound(cached, |cached.order|, current.types, env, cfg);
    ChangeEventsSound(current, |current.order|, cached.types, env, cfg);
  }

  /** A user whose type is the same in the cache and in the store gets no toast. */
  lemma UnchangedUserSilent(cached: Snapshot, current: Snapshot, env: Env, cfg: Config, id: UserId)
    requires WellFormed(cached) && WellFormed(current)
    requires id in cached.types && id in current.types && cached.types[id] == current.types[id]
    ensures forall e :: e in HandlerEvents(cached, current, env, cfg) ==> !About(e, id)
  {
    RemovalEventsSound(cached, |cached.order|, current.types, env, cfg);
    ChangeEventsSound(current, |current.order|, cached.types, env, cfg);
  }

  /** A cached BLOCKED entry that vanished produces no toast at all. */
  lemma VanishedBlockSilent(cached: Snapshot, current: Snapshot, env: Env, cfg: Config, id: UserId)
    requires WellFormed(cached) && WellFormed(current)
    requires id in cached.types && cached.types[id] == BLOCKED && id !in current.types
    ensures forall e :: e in HandlerEvents(cached, current, env, cfg) ==> !About(e, id)
  {
    RemovalEventsSound(cached, |cached.order|, current.types, env, cfg);
    ChangeEventsSound(current, |current.order|, cached.types, env, cfg);
  }

  /** "removed you as a friend" fires exactly for a cached FRIEND that vanished. */
  lemma RemovedYouIff(cached: Snapshot, current: Snapshot, env: Env, cfg: Config, id: UserId, name: string)
    requires WellFormed(cached) && WellFormed(current)
    ensures Toast(Notification(RemovedYou, id, name)) in HandlerEvents(cached, current, env, cfg) <==>
      && id in cached.types && id !in current.types && id != env.selfId
      && id in env.users && !(cfg.ignoreBots && env.users[id].bot) && name == env.users[id].username
      && cached.types[id] == FRIEND && cfg.notifyFriendRemovals
  {
    HandlerEventsExactly(cached, current, env, cfg, Toast(Notification(RemovedYou, id, name)));
  }

  /** "added you as a friend" fires exactly for a present FRIEND that was not one before. */
  lemma AddedYouIff(cached: Snapshot, current: Snapshot, env: Env, cfg: Config, id: UserId, name: string)
    requires WellFormed(cached) && WellFormed(current)
    ensures Toast(Notification(AddedYou, id, name)) in HandlerEvents(cached, current, env, cfg) <==>
      && id in current.types && id != env.selfId
      && id in env.users && !(cfg.ignoreBots && env.users[id].bot) && name == env.users[id].username
      && current.types[id] == FRIEND && Lookup(cached.types, id) != Some(FRIEND) && cfg.notifyFriendAdds
  {
    HandlerEventsExactly(cached, current, env, cfg, Toast(Notification(AddedYou, id, name)));
  }

  /** "blocked you" fires exactly for a present BLOCKED that was not blocked before. */
  lemma BlockedYouIff(cached: Snapshot, current: Snapshot, env: Env, cfg: Config, id: UserId, name: string)
    requires WellFormed(cached) && WellFormed(current)
    ensures Toast(Notification(BlockedYou, id, name)) in HandlerEvents(cached, current, env, cfg) <==>
      && id in current.types && id != env.selfId
      && id in env.users && !(cfg.ignoreBots && env.users[id].bot) && name == env.users[id].username
      && current.types[id] == BLOCKED && Lookup(cached.types, id) != Some(BLOCKED) && cfg.notifyBlocks
  {
    HandlerEventsExactly(cached, current, env, cfg, Toast(Notification(BlockedYou, id, name)));
  }

  /**
   "unblocked you" fires exactly for a present entry that was BLOCKED and is
   no longer; so a BLOCKED entry that disappears from the store is not reported.
   */
  lemma UnblockedYouIff(cached: Snapshot, current: Snapshot, env: Env, cfg: Config, id: UserId, name: string)
    requires WellFormed(cached) && WellFormed(current)
    ensures Toast(Notification(UnblockedYou, id, name)) in HandlerEvents(cached, current, env, cfg) <==>
      && id in current.types && id != env.selfId
      && id in env.users && !(cfg.ignoreBots && env.users[id].bot) && name == env.users[id].username
      && current.types[id] != BLOCKED && Lookup(cached.types, id) == Some(BLOCKED) && cfg.notifyUnblocks
  {
    HandlerEventsExactly(cached, current, env, cfg, Toast(Notification(UnblockedYou, id, name)));
  }

  /**
   FRIEND to an entry that is still present with code NONE shows nothing:
   only a vanished entry is a removal, and no rule of the second loop fires.
   */
  lemma FriendToPresentNoneSilent(cached: Snapshot, current: Snapshot, env: Env, cfg: Config, id: UserId)
    requires WellFormed(cached) && WellFormed(current)
    requires id in cached.types && cached.types[id] == FRIEND
    requires id in current.types && current.types[id] == NONE
    ensures forall e :: e in HandlerEvents(cached, current, env, cfg) ==> !About(e, id)
  {
    RemovalEventsSound(cached, |cached.order|, current.types, env, cfg);
    ChangeEventsSound(current, |current.order|, cached.types, env, cfg);
  }

  /** BLOCKED to FRIEND shows "added" and then "unblocked", each under its own flag. */
  lemma BlockedToFriendDualFire(id: UserId, cached: map<UserId, int>, env: Env, cfg: Config)
    requires id != env.selfId && Eligible(env.users, id, cfg)
    requires Lookup(cached, id) == Some(BLOCKED)
    ensures var name := env.users[id].username;
      ChangeEntry(id, FRIEND, cached, env, cfg)
      == (if cfg.notifyFriendAdds then [Toast(Notification(AddedYou, id, name))] else [])
       + (if cfg.notifyUnblocks then [Toast(Notification(UnblockedYou, id, name))] else [])
  {
  }

  // ---------------------------------------------------------------------
  // Each notification (kind, user id) at most once per run

  predicate NoDuplicates(s: seq<Event>) {
    forall i, j :: 0 <= i < j < |s| ==> s[i] != s[j]
  }

  /** The first loop's toasts for `n` entries are about users among the first `n` keys. */
  lemma {:induction false} RemovalSubjects(cached: Snapshot, n: nat, current: map<UserId, int>, env: Env, cfg: Config)
    requires WellFormed(cached) && n <= |cached.order|
    ensures forall e :: e in RemovalEvents(cached, n, current, env, cfg) ==> e.Toast? && e.note.subject in cached.order[..n]
  {
    if n > 0 {
      RemovalSubjects(cached, n - 1, current, env, cfg);
      assert cached.order[..n] == cached.order[..n - 1] + [cached.order[n - 1]];
    }
  }

  /** The second loop's toasts for `n` entries are about users among the first `n` keys. */
  lemma {:induction false} ChangeSubjects(current: Snapshot, n: nat, cached: map<UserId, int>, env: Env, cfg: Config)
    requires WellFormed(current) && n <= |current.order|
    ensures forall e :: e in ChangeEvents(current, n, cached, env, cfg) ==> e.Toast? && e.note.subject in current.order[..n]
  {
    if n > 0 {
      ChangeSubjects(current, n - 1, cached, env, cfg);
      assert current.order[..n] == current.order[..n - 1] + [current.order[n - 1]];
    }
  }

  /** Two sequences without repeats, with nothing in common, concatenate without repeats. */
  lemma AppendNoDuplicates(a: seq<Event>, b: seq<Event>)
    requires NoDuplicates(a) && NoDuplicates(b)
    requires forall x :: x in a ==> x !in b
    ensures NoDuplicates(a + b)
  {
    forall i, j | 0 <= i < j < |a + b| ensures (a + b)[i] != (a + b)[j] {
      if j >= |a| && i < |a| {
        assert (a + b)[i] in a && (a + b)[j] in b;
      }
    }
  }

  lemma {:induction false} RemovalEventsNoDuplicates(cached: Snapshot, n: nat, current: map<UserId, int>, env: Env, cfg: Config)
    requires WellFormed(cached) && n <= |cached.order|
    ensures NoDuplicates(RemovalEvents(cached, n, current, env, cfg))
  {
    if n > 0 {
      var id := cached.order[n - 1];
      RemovalEventsNoDuplicates(cached, n - 1, current, env, cfg);
      RemovalSubjects(cached, n - 1, current, env, cfg);
      assert id !in cached.order[..n - 1];
      AppendNoDuplicates(RemovalEvents(cached, n - 1, current, env, cfg), RemovalEntry(id, cached.types[id], current, env, cfg));
    }
  }

  /** One entry's toasts are all about that entry, and differ in kind. */
  lemma ChangeEntryFacts(id: UserId, curType: int, cached: map<UserId, int>, env: Env, cfg: Config)
    ensures NoDuplicates(ChangeEntry(id, curType, cached, env, cfg))
    ensures forall e :: e in ChangeEntry(id, curType, cached, env, cfg) ==> e.Toast? && e.note.subject == id
  {
  }

  lemma {:induction false} ChangeEventsNoDuplicates(current: Snapshot, n: nat, cached: map<UserId, int>, env: Env, cfg: Config)
    requires WellFormed(current) && n <= |current.order|
    ensures NoDuplicates(ChangeEvents(current, n, cached, env, cfg))
  {
    if n > 0 {
      var id := current.order[n - 1];
      var prefix := ChangeEvents(current, n - 1, cached, env, cfg);
      var entry := ChangeEntry(id, current.types[id], cached, env, cfg);
      ChangeEventsNoDuplicates(current, n - 1, cached, env, cfg);
      ChangeSubjects(current, n - 1, cached, env, cfg);
      ChangeEntryFacts(id, current.types[id], cached, env, cfg);
      assert id !in current.order[..n - 1];
      forall x | x in prefix ensures x !in entry {
        assert x.note.subject in current.order[..n - 1];
      }
      AppendNoDuplicates(prefix, entry);
    }
  }

  /**
   One run of the handler never repeats a notification, that is a (kind,
   user id) pair: the key orders enumerate each user once, and the few
   toasts of one entry differ in kind. The shown text can still repeat, when
   two users share a username (`Scenarios.SharedUsernameRepeatsText`).
   */
  lemma HandlerEventsNoDuplicates(cached: Snapshot, current: Snapshot, env: Env, cfg: Config)
    requires WellFormed(cached) && WellFormed(current)
    ensures NoDuplicates(HandlerEvents(cached, current, env, cfg))
  {
    var r := RemovalEvents(cached, |cached.order|, current.types, env, cfg);
    var c := ChangeEvents(current, |current.order|, cached.types, env, cfg);
    RemovalEventsNoDuplicates(cached, |cached.order|, current.types, env, cfg);
    ChangeEventsNoDuplicates(current, |current.order|, cached.types, env, cfg);
    RemovalEventsSound(cached, |cached.order|, current.types, env, cfg);
    ChangeEventsSound(current, |current.order|, cached.types, env, cfg);
    AppendNoDuplicates(r, c);
  }
}
