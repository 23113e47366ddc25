/**
 The notifier's settings: the persisted storage fields, the defaults filled
 in at load time with `??=`, and the five flags every decision reads.
 */
module Config {
  import opened Relationships

  /** The five flags, as read at the moment a decision is made. */
  datatype Config = Config(
    notifyFriendAdds: bool,
    notifyFriendRemovals: bool,
    notifyBlocks: bool,
    notifyUnblocks: bool,
    ignoreBots: bool)

  /** The persisted storage; `None` is a field that was never written. */
  datatype Storage = Storage(
    notifyFriendAdds: Option<bool>,
    notifyFriendRemovals: Option<bool>,
    notifyBlocks: Option<bool>,
    notifyUnblocks: Option<bool>,
    ignoreBots: Option<bool>)

  const NothingStored := Storage(None, None, None, None, None)

  /** `field ??= default` */
  function FillAbsent(field: Option<bool>, default: bool): Option<bool> {
    if field.Some? then field else Some(default)
  }

  /** The default-settings block run when the plugin module loads. */
  function WithDefaults(s: Storage): Storage {
    Storage(
      FillAbsent(s.notifyFriendAdds, true),
      FillAbsent(s.notifyFriendRemovals, true),
      FillAbsent(s.notifyBlocks, true),
      FillAbsent(s.notifyUnblocks, true),
      FillAbsent(s.ignoreBots, false))
  }

  /** Reading a storage field in a condition: an absent field is falsy. */
  function Truthy(field: Option<bool>): bool {
    field == Some(true)
  }

  /** The flags as a decision sees them. */
  function Current(s: Storage): Config {
    Config(
      Truthy(s.notifyFriendAdds),
      Truthy(s.notifyFriendRemovals),
      Truthy(s.notifyBlocks),
      Truthy(s.notifyUnblocks),
      Truthy(s.ignoreBots))
  }

  /** On empty storage every notification is on and bots are not ignored. */
  lemma FreshInstallDefaults()
    ensures Current(WithDefaults(NothingStored)) == Config(true, true, true, true, false)
  {
  }

  /**
   `??=` writes only absent fields: a value the user stored survives, and
   after the block no field is absent.
   */
  lemma DefaultsKeepStoredValues(s: Storage)
    ensures var r := WithDefaults(s);
      && (s.notifyFriendAdds.Some? ==> r.notifyFriendAdds == s.notifyFriendAdds)
      && (s.notifyFriendRemovals.Some? ==> r.notifyFriendRemovals == s.notifyFriendRemovals)
      && (s.notifyBlocks.Some? ==> r.notifyBlocks == s.notifyBlocks)
      && (s.notifyUnblocks.Some? ==> r.notifyUnblocks == s.notifyUnblocks)
      && (s.ignoreBots.Some? ==> r.ignoreBots == s.ignoreBots)
    ensures var r := WithDefaults(s);
      && r.notifyFriendAdds.Some? && r.notifyFriendRemovals.Some?
      && r.notifyBlocks.Some? && r.notifyUnblocks.Some? && r.ignoreBots.Some?
  {
  }

  /**
   What a decision reads after the defaults block: a notification kind is on
   unless the user switched it off, and bots are ignored only when the user
   switched that on.
   */
  lemma DefaultsDecide(s: Storage)
    ensures var c := Current(WithDefaults(s));
      && (c.notifyFriendAdds <==> s.notifyFriendAdds != Some(false))
      && (c.notifyFriendRemovals <==> s.notifyFriendRemovals != Some(false))
      && (c.notifyBlocks <==> s.notifyBlocks != Some(false))
      && (c.notifyUnblocks <==> s.notifyUnblocks != Some(false))
      && (c.ignoreBots <==> s.ignoreBots == Some(true))
  {
    forall f: Option<bool>
      ensures Truthy(FillAbsent(f, true)) <==> f != Some(false)
      ensures Truthy(FillAbsent(f, false)) <==> f == Some(true)
    {
      match f
      case None =>
      case Some(b) =>
    }
  }

  /** Loading the plugin again changes nothing once the defaults are in. */
  lemma DefaultsIdempotent(s: Storage)
    ensures WithDefaults(WithDefaults(s)) == WithDefaults(s)
  {
  }
}
