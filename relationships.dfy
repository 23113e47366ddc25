/**
 The values the relationship notifier works on: relationship type codes,
 user records, relationship snapshots, the notifications it raises and the
 observable trace (toasts and calls into the host's original functions).
 */
module Relationships {

  datatype Option<T> = None | Some(value: T)

  /** An account id as the host hands it out (a snowflake string). */
  type UserId = string

  // Relationship type codes, as `getRelationshipType` and the store report them.
  const NONE: int := 0
  const FRIEND: int := 1
  const BLOCKED: int := 2
  const PENDING_INCOMING: int := 3
  const PENDING_OUTGOING: int := 4
  const IMPLICIT: int := 5

  /** The part of a `UserStore.getUser` record the notifier reads. */
  datatype User = User(username: string, bot: bool)

  /** The session: who "self" is and the user directory. */
  datatype Env = Env(selfId: UserId, users: map<UserId, User>)

  /**
   A relationship map as `Object.entries` sees it: the type code of every
   user id, and the order in which the ids are enumerated.
   */
  datatype Snapshot = Snapshot(types: map<UserId, int>, order: seq<UserId>)

  /** Every key is enumerated exactly once, and nothing else is. */
  predicate WellFormed(s: Snapshot) {
    && (forall i, j :: 0 <= i < j < |s.order| ==> s.order[i] != s.order[j])
    && (forall k :: k in s.types ==> k in s.order)
    && (forall k :: k in s.order ==> k in s.types)
  }

  const EmptySnapshot := Snapshot(map[], [])

  /** `m[userId]` on a plain object: the stored code, or `undefined`. */
  function Lookup(m: map<UserId, int>, id: UserId): Option<int> {
    if id in m then Some(m[id]) else None
  }

  /** The eight messages the notifier can show. */
  datatype Kind =
    | RemovedYou | AddedYou | BlockedYou | UnblockedYou
    | YouRemoved | YouAdded | YouBlocked | YouUnblocked

  /**
   One notification. The shown text (see `Text`) holds only the username;
   the subject id is kept so that properties can say whom it is about.
   */
  datatype Notification = Notification(kind: Kind, subject: UserId, username: string)

  /** What an observer sees happen, in order: toasts, and calls of originals. */
  datatype Event =
    | Toast(note: Notification)
    | Called(original: nat, args: seq<string>)

  /** Whether an event is a toast about user `id`. */
  predicate About(e: Event, id: UserId) {
    e.Toast? && e.note.subject == id
  }

  /** The string handed to the toast. */
  function Text(n: Notification): string {
    match n.kind
    case RemovedYou => n.username + " removed you as a friend."
    case AddedYou => n.username + " added you as a friend."
    case BlockedYou => n.username + " blocked you."
    case UnblockedYou => n.username + " unblocked you."
    case YouRemoved => "You removed " + n.username + " as a friend."
    case YouAdded => "You added " + n.username + " as a friend."
    case YouBlocked => "You blocked " + n.username + "."
    case YouUnblocked => "You unblocked " + n.username + "."
  }
}
