/**
 Worked examples, computed from the model.
 */
module Scenarios {
  import opened Relationships
  import opened Config
  import opened Rules
  import opened Interception
  import opened Plugin

  const Alice := User("alice", false)
  const Robot := User("robot", true)
  const Session := Env("u2", map["u1" := Alice, "b1" := Robot])
  const AllOn := Current(WithDefaults(NothingStored))

  /** A friend who disappears from the store: one "removed you" toast. */
  lemma FriendRemovalScenario()
    ensures var events := HandlerEvents(Snapshot(map["u1" := FRIEND], ["u1"]), EmptySnapshot, Session, AllOn);
      events == [Toast(Notification(RemovedYou, "u1", "alice"))]
  {
    FreshInstallDefaults();
    var cached := Snapshot(map["u1" := FRIEND], ["u1"]);
    assert RemovalEvents(cached, 1, map[], Session, AllOn)
      == RemovalEntry("u1", FRIEND, map[], Session, AllOn)
      == [Toast(Notification(RemovedYou, "u1", "alice"))];
  }

  /** A new BLOCKED entry: one "blocked you" toast. */
  lemma NewBlockScenario()
    ensures var events := HandlerEvents(EmptySnapshot, Snapshot(map["u1" := BLOCKED], ["u1"]), Session, AllOn);
      events == [Toast(Notification(BlockedYou, "u1", "alice"))]
  {
    FreshInstallDefaults();
    var current := Snapshot(map["u1" := BLOCKED], ["u1"]);
    assert ChangeEvents(current, 1, map[], Session, AllOn)
      == ChangeEntry("u1", BLOCKED, map[], Session, AllOn)
      == [Toast(Notification(BlockedYou, "u1", "alice"))];
  }

  /** BLOCKED to FRIEND: "added" and then "unblocked". */
  lemma UnblockAndAddScenario()
    ensures HandlerEvents(Snapshot(map["u1" := BLOCKED], ["u1"]), Snapshot(map["u1" := FRIEND], ["u1"]), Session, AllOn)
      == [Toast(Notification(AddedYou, "u1", "alice")), Toast(Notification(UnblockedYou, "u1", "alice"))]
  {
    FreshInstallDefaults();
    var cached := Snapshot(map["u1" := BLOCKED], ["u1"]);
    var current := Snapshot(map["u1" := FRIEND], ["u1"]);
    assert RemovalEvents(cached, 1, current.types, Session, AllOn) == [];
    assert ChangeEvents(current, 1, cached.types, Session, AllOn)
      == ChangeEntry("u1", FRIEND, cached.types, Session, AllOn);
    BlockedToFriendDualFire("u1", cached.types, Session, AllOn);
  }

  /** A bot is reported by nothing while bots are ignored. */
  lemma BotSuppressionScenario(op: Op)
    ensures var cfg := Config(true, true, true, true, true);
      && HandlerEvents(Snapshot(map["b1" := FRIEND], ["b1"]), Snapshot(map["b1" := BLOCKED], ["b1"]), Session, cfg) == []
      && WrapperNote(op, ["b1"], Session.users, map["b1" := FRIEND], cfg) == []
  {
    var cfg := Config(true, true, true, true, true);
    var cached := Snapshot(map["b1" := FRIEND], ["b1"]);
    var current := Snapshot(map["b1" := BLOCKED], ["b1"]);
    assert RemovalEvents(cached, 1, current.types, Session, cfg) == [];
    assert ChangeEvents(current, 1, cached.types, Session, cfg) == [];
  }

  /** The strings the scenarios above put on screen. */
  lemma FriendRemovalText()
    ensures Text(Notification(RemovedYou, "u1", "alice")) == "alice removed you as a friend."
  {
    assert Text(Notification(RemovedYou, "u1", "alice")) == "alice" + " removed you as a friend.";
  }

  lemma NewBlockText()
    ensures Text(Notification(BlockedYou, "u1", "alice")) == "alice blocked you."
  {
    assert Text(Notification(BlockedYou, "u1", "alice")) == "alice" + " blocked you.";
  }

  lemma AddedText()
    ensures Text(Notification(AddedYou, "u1", "alice")) == "alice added you as a friend."
  {
    assert Text(Notification(AddedYou, "u1", "alice")) == "alice" + " added you as a friend.";
  }

  lemma UnblockedText()
    ensures Text(Notification(UnblockedYou, "u1", "alice")) == "alice unblocked you."
  {
    assert Text(Notification(UnblockedYou, "u1", "alice")) == "alice" + " unblocked you.";
  }

  lemma LocalAddText()
    ensures Text(Notification(YouAdded, "u1", "alice")) == "You added alice as a friend."
  {
    assert Text(Notification(YouAdded, "u1", "alice")) == "You added " + "alice" + " as a friend.";
  }

  /** Two different users named "bob" get the same removal text. */
  lemma SharedUsernameText()
    ensures Text(Notification(RemovedYou, "a", "bob")) == Text(Notification(RemovedYou, "b", "bob")) == "bob removed you as a friend."
  {
    assert Text(Notification(RemovedYou, "a", "bob")) == "bob" + " removed you as a friend.";
    assert Text(Notification(RemovedYou, "b", "bob")) == "bob" + " removed you as a friend.";
  }

  /**
   Two friends with the same username who both vanish in one run: the two
   notifications differ in their user id, but the shown text is the same.
   */
  lemma SharedUsernameRepeatsText()
    ensures var env := Env("me", map["a" := User("bob", false), "b" := User("bob", false)]);
      var events := HandlerEvents(Snapshot(map["a" := FRIEND, "b" := FRIEND], ["a", "b"]), EmptySnapshot, env, AllOn);
      && events == [Toast(Notification(RemovedYou, "a", "bob")), Toast(Notification(RemovedYou, "b", "bob"))]
      && events[0] != events[1]
      && Text(events[0].note) == Text(events[1].note)
  {
    FreshInstallDefaults();
    SharedUsernameText();
    var env := Env("me", map["a" := User("bob", false), "b" := User("bob", false)]);
    var cached := Snapshot(map["a" := FRIEND, "b" := FRIEND], ["a", "b"]);
    assert RemovalEvents(cached, 1, map[], env, AllOn) == [Toast(Notification(RemovedYou, "a", "bob"))];
    assert RemovalEvents(cached, 2, map[], env, AllOn)
      == RemovalEvents(cached, 1, map[], env, AllOn) + RemovalEntry("b", FRIEND, map[], env, AllOn);
  }

  /** onStart, a local add through the patched slot, then onStop. */
  method LocalAddScenario() {
    var originals := SlotTable(Original(0), Original(1), Original(2), Original(3));
    var manager := new RelationshipManager(originals);
    var plugin := new RelationshipNotifier();
    FreshInstallDefaults();
    plugin.OnStart(EmptySnapshot, manager);
    assert manager.addRelationship == Wrapped(AddRelationship, Original(1));
    var result := plugin.Invoke(manager.addRelationship, ["u1"], Session.users, map[], AllOn, 42);
    assert Notes(Wrapped(AddRelationship, Original(1)), ["u1"], Session.users, map[], AllOn)
      == [Toast(Notification(YouAdded, "u1", "alice"))];
    assert plugin.trace == [Toast(Notification(YouAdded, "u1", "alice")), Called(1, ["u1"])];
    assert result == Returned(42);
    plugin.OnStop(manager);
    assert manager.Slots() == originals;
    assert !plugin.listening;
  }
}
