/**
 The plugin object and the host's relationship manager, as classes whose
 fields the source updates in place: the cached relationship snapshot, the
 saved original functions, the listener registration, and the manager's
 four function slots. Every toast and every call into an original is
 appended to one trace, so that "before" and "after" can be stated.
 */
module Plugin {
  import opened Relationships
  import opened Config
  import opened Rules
  import opened Interception

  /** The host module holding the four mutation entry points. */
  class RelationshipManager {
    var removeRelationship: Fn
    var addRelationship: Fn
    var blockUser: Fn
    var unblockUser: Fn

    function Slots(): SlotTable
      reads this
    {
      SlotTable(removeRelationship, addRelationship, blockUser, unblockUser)
    }

    constructor (s: SlotTable)
      ensures Slots() == s
    {
      removeRelationship := s.removeRelationship;
      addRelationship := s.addRelationship;
      blockUser := s.blockUser;
      unblockUser := s.unblockUser;
    }
  }

  class RelationshipNotifier {
    /** `this.cachedRelationships`, with the key order `Object.entries` will see. */
    var cachedRelationships: Snapshot
    /** `this.origFunctions`; `None` until the first onStart. */
    var origFunctions: Option<SlotTable>
    /** Whether the change handler is registered with the store. */
    var listening: bool
    /** Everything shown and every original called, oldest first. */
    var trace: seq<Event>

    predicate Valid()
      reads this
    {
      WellFormed(cachedRelationships)
    }

    constructor ()
      ensures Valid()
      ensures cachedRelationships == EmptySnapshot && origFunctions == None
      ensures !listening && trace == []
    {
      cachedRelationships := EmptySnapshot;
      origFunctions := None;
      listening := false;
      trace := [];
    }

    /** `notify`: one toast. */
    method Notify(n: Notification)
      modifies this`trace
      ensures trace == old(trace) + [Toast(n)]
    {
      trace := trace + [Toast(n)];
    }

    /**
     onStart: cache the store's map, save the four slots and wrap them when
     the manager exists, and register the change handler.
     */
    method OnStart(store: Snapshot, manager: RelationshipManager?)
      requires WellFormed(store)
      modifies this`cachedRelationships, this`origFunctions, this`listening, manager
      ensures Valid() && cachedRelationships == store && listening
      ensures manager == null ==> origFunctions == Some(NothingSaved)
      ensures manager != null ==>
        && origFunctions == Some(old(manager.Slots()))
        && manager.Slots() == PatchAll(old(manager.Slots()))
    {
      cachedRelationships := store;
      origFunctions := Some(NothingSaved);
      if manager != null {
        origFunctions := Some(manager.Slots());
        manager.removeRelationship := Wrapped(RemoveRelationship, manager.removeRelationship);
        manager.addRelationship := Wrapped(AddRelationship, manager.addRelationship);
        manager.blockUser := Wrapped(BlockUser, manager.blockUser);
        manager.unblockUser := Wrapped(UnblockUser, manager.unblockUser);
      }
      listening := true;
    }

    /**
     onStop: unregister the handler and, when both the manager and the saved
     table exist, put back each slot whose saved reference is set.
     */
    method OnStop(manager: RelationshipManager?)
      modifies this`listening, manager
      ensures !listening
      ensures manager != null ==> manager.Slots() == Restore(old(manager.Slots()), origFunctions)
    {
      listening := false;
      if manager != null && origFunctions.Some? {
        var saved := origFunctions.value;
        if saved.removeRelationship != Missing {
          manager.removeRelationship := saved.removeRelationship;
        }
        if saved.addRelationship != Missing {
          manager.addRelationship := saved.addRelationship;
        }
        if saved.blockUser != Missing {
          manager.blockUser := saved.blockUser;
        }
        if saved.unblockUser != Missing {
          manager.unblockUser := saved.unblockUser;
        }
      }
    }

    /** The first `forEach` callback, for the cached entry `(userId, relationshipType)`. */
    method CheckRemoved(userId: UserId, relationshipType: int, current: map<UserId, int>, env: Env, cfg: Config)
      modifies this`trace
      ensures trace == old(trace) + RemovalEntry(userId, relationshipType, current, env, cfg)
    {
      if StillPresentOrSelf(userId, current, env.selfId) {
        return;
      }
      if !Eligible(env.users, userId, cfg) {
        return;
      }
      if FiresRemoval(relationshipType, cfg) {
        Notify(Notification(RemovedYou, userId, env.users[userId].username));
      }
    }

    /** The second `forEach` callback, for the current entry `(userId, relationshipType)`. */
    method CheckChanged(userId: UserId, relationshipType: int, env: Env, cfg: Config)
      modifies this`trace
      ensures trace == old(trace) + ChangeEntry(userId, relationshipType, cachedRelationships.types, env, cfg)
    {
      if UnchangedOrSelf(userId, relationshipType, cachedRelationships.types, env.selfId) {
        return;
      }
      if !Eligible(env.users, userId, cfg) {
        return;
      }
      var name := env.users[userId].username;
      var prev := Lookup(cachedRelationships.types, userId);
      ghost var start := trace;
      if FiresAdd(prev, relationshipType, cfg) {
        Notify(Notification(AddedYou, userId, name));
      }
      ghost var afterAdd := trace;
      if FiresBlock(prev, relationshipType, cfg) {
        Notify(Notification(BlockedYou, userId, name));
      }
      ghost var afterBlock := trace;
      if FiresUnblock(prev, relationshipType, cfg) {
        Notify(Notification(UnblockedYou, userId, name));
      }
      assert afterAdd == start + ToastIf(FiresAdd(prev, relationshipType, cfg), Notification(AddedYou, userId, name));
      assert afterBlock == afterAdd + ToastIf(FiresBlock(prev, relationshipType, cfg), Notification(BlockedYou, userId, name));
      assert trace == afterBlock + ToastIf(FiresUnblock(prev, relationshipType, cfg), Notification(UnblockedYou, userId, name));
    }

    /** The first loop: every cached entry whose user vanished from `current`. */
    method ReportRemovals(current: map<UserId, int>, env: Env, cfg: Config)
      requires Valid()
      modifies this`trace
      ensures trace == old(trace) + RemovalEvents(cachedRelationships, |cachedRelationships.order|, current, env, cfg)
    {
      var cached := cachedRelationships;
      var i := 0;
      while i < |cached.order|
        invariant 0 <= i <= |cached.order|
        invariant trace == old(trace) + RemovalEvents(cached, i, current, env, cfg)
      {
        var userId := cached.order[i];
        CheckRemoved(userId, cached.types[userId], current, env, cfg);
        i := i + 1;
      }
    }

    /** The second loop: every current entry that is new or changed against the cache. */
    method ReportChanges(current: Snapshot, env: Env, cfg: Config)
      requires WellFormed(current)
      modifies this`trace
      ensures trace == old(trace) + ChangeEvents(current, |current.order|, cachedRelationships.types, env, cfg)
    {
      var j := 0;
      while j < |current.order|
        invariant 0 <= j <= |current.order|
        invariant trace == old(trace) + ChangeEvents(current, j, cachedRelationships.types, env, cfg)
      {
        var userId := current.order[j];
        CheckChanged(userId, current.types[userId], env, cfg);
        j := j + 1;
      }
    }

    /**
     onRelationshipChange: report vanished entries, then new or changed
     ones, then replace the cache with the store's map.
     */
    method OnRelationshipChange(current: Snapshot, env: Env, cfg: Config)
      requires Valid() && WellFormed(current)
      modifies this`cachedRelationships, this`trace
      ensures Valid() && cachedRelationships == current
      ensures trace == old(trace) + HandlerEvents(old(cachedRelationships), current, env, cfg)
    {
      ReportRemovals(current.types, env, cfg);
      ReportChanges(current, env, cfg);
      cachedRelationships := current;
    }

    /**
     Calling whatever a slot holds with `args`: each wrapper layer shows its
     toast and delegates to the reference it wrapped; an original is called
     once with the same arguments and its reply is handed back unchanged.
     `reply` is what the host's original returns (or throws) for this call.
     */
    method Invoke<R>(f: Fn, args: seq<string>, users: map<UserId, User>, store: map<UserId, int>, cfg: Config, reply: R)
      returns (result: CallResult<R>)
      modifies this`trace
      ensures trace == old(trace) + Notes(f, args, users, store, cfg) + FinalCall(f, args)
      ensures result == if Root(f).Original? then Returned(reply) else NotAFunction
      decreases f
    {
      match f {
        case Missing =>
          result := NotAFunction;
        case Original(k) =>
          trace := trace + [Called(k, args)];
          result := Returned(reply);
        case Wrapped(op, inner) =>
          var userId := Target(args);
          if userId.Some? && userId.value in users {
            var user := users[userId.value];
            if Gate(op, TypeOf(store, userId.value), cfg) && !(cfg.ignoreBots && user.bot) {
              Notify(Notification(YouKind(op), userId.value, user.username));
            }
          }
          result := Invoke(inner, args, users, store, cfg, reply);
      }
    }
  }
}
