/** The subscription entity, its lifecycle statuses, the transition table and the
    webhook event record. */
module Domain {
  import opened Wrappers

  /** A UUID. The all-zero UUID is the one Go code calls `uuid.Nil`. */
  type UUID = nat
  const NIL_UUID: UUID := 0

  /** An instant, in nanoseconds since the Unix epoch. */
  type Time = int

  /** Go's zero `time.Time`, the start of year 1. */
  const ZERO_TIME: Time := -62135596800000000000

  function UnixMilli(millis: int): Time {
    millis * 1000000
  }

  function MillisOf(t: Time): int {
    t / 1000000
  }

  /** A millisecond is a million nanoseconds; reading one off an instant rounds down; and the year 1 begins
      719162 days of the Gregorian calendar before the epoch. */
  lemma TimesAreRight(millis: int, t: Time)
    ensures UnixMilli(1) == 1000000 && UnixMilli(millis + 1) == UnixMilli(millis) + UnixMilli(1)
    ensures MillisOf(UnixMilli(millis)) == millis
    ensures UnixMilli(MillisOf(t)) <= t < UnixMilli(MillisOf(t) + 1)
    ensures MillisOf(t) < millis <==> t < UnixMilli(millis)
    ensures ZERO_TIME == UnixMilli(-(1969 * 365 + 1969 / 4 - 1969 / 100 + 1969 / 400) * 24 * 60 * 60 * 1000)
  {
  }

  datatype Provider = Apple | Google

  /** A status as stored; `Unrecognized` stands for every text the database check refuses. */
  datatype Status =
    | Inactive
    | Active
    | GracePeriod
    | BillingRetry
    | Expired
    | Cancelled
    | Revoked
    | Unrecognized(text: string)
  {
    predicate Valid() {
      !Unrecognized?
    }
  }

  datatype Environment = Sandbox | Production

  const VALID_TRANSITIONS: map<Status, set<Status>> := map[
    Inactive := {Active, GracePeriod, BillingRetry, Cancelled, Expired, Revoked},
    Active := {Active, Cancelled, GracePeriod, BillingRetry, Expired, Revoked},
    GracePeriod := {Active, BillingRetry, Expired, Revoked},
    BillingRetry := {Active, Expired, Revoked},
    Cancelled := {Active, Expired, Revoked},
    Expired := {Active, Revoked},
    Revoked := {}
  ]

  predicate CanTransition(from: Status, to: Status) {
    from in VALID_TRANSITIONS && to in VALID_TRANSITIONS[from]
  }

  /** How many more non-activating updates a row in this status can take. */
  function Rank(s: Status): nat {
    match s
    case Inactive => 4
    case Active => 4
    case GracePeriod => 3
    case BillingRetry => 2
    case Cancelled => 2
    case Expired => 1
    case Revoked => 0
    case Unrecognized(_) => 0
  }

  /** The transition table: out of every status but revoked, into active or down in rank, except from grace
      into cancelled. */
  lemma TransitionsExactly(from: Status, to: Status)
    ensures CanTransition(from, to) <==>
              from.Valid() && from != Revoked && to.Valid() && (to == Active || Rank(to) < Rank(from))
              && !(from == GracePeriod && to == Cancelled)
  {
  }

  /** One row of the subscriptions table: every column a statement reads or writes. */
  datatype Row = Row(
    id: UUID,
    userID: UUID,
    provider: Provider,
    productID: string,
    originalTransactionID: Option<string>,
    transactionID: Option<string>,
    purchaseToken: Option<string>,
    status: Status,
    environment: Option<Environment>,
    expiresAt: Option<Time>,
    autoRenew: Option<bool>,
    cancelledAt: Option<Time>,
    lastEventAt: Option<Time>,
    createdAt: Time,
    updatedAt: Time)
  {
    predicate HasActiveAccess(now: Time) {
      match status
      case Active => expiresAt.Some? ==> expiresAt.value > now
      case GracePeriod => expiresAt.Some? ==> expiresAt.value > now
      case Cancelled => expiresAt.Some? && expiresAt.value > now
      case _ => false
    }
  }

  /** The row a constructor call builds before any provider data is filled in. */
  function NewRow(id: UUID, userID: UUID, provider: Provider, productID: string, now: Time): Row {
    Row(id, userID, provider, productID, None, None, None, Inactive, None, None, None, None, None, now, now)
  }

  datatype TransitionError = InvalidStatus | InvalidStateTransition

  /** The entity the application works on: read from the table, changed field by field, and handed
      back to the repository. Its fields are the columns of `row`. */
  class Subscription {
    var row: Row

    constructor New(id: UUID, userID: UUID, provider: Provider, productID: string, now: Time)
      ensures row.id == id && row.userID == userID && row.provider == provider && row.productID == productID
      ensures row == NewRow(id, userID, provider, productID, now) && row.createdAt == row.updatedAt == now
      ensures row.originalTransactionID == row.transactionID == row.purchaseToken == None
      ensures row.environment == None && row.autoRenew == None
      ensures row.expiresAt == row.cancelledAt == row.lastEventAt == None
      ensures forall t :: !row.HasActiveAccess(t)
      ensures forall to :: CanTransition(row.status, to) <==> to.Valid() && to != Inactive
    {
      row := NewRow(id, userID, provider, productID, now);
    }

    constructor Scan(row: Row)
      ensures this.row == row
    {
      this.row := row;
    }

    /** Moves to `newStatus` when the transition table allows it, and otherwise changes nothing. */
    method TransitionTo(newStatus: Status, now: Time) returns (r: Option<TransitionError>)
      modifies this
      ensures r.None? <==> CanTransition(old(row).status, newStatus)
      ensures r.None? <==> old(row).status.Valid() && old(row).status != Revoked && newStatus.Valid()
                           && (newStatus == Active || Rank(newStatus) < Rank(old(row).status))
                           && !(old(row).status == GracePeriod && newStatus == Cancelled)
      ensures r.None? ==> row == old(row).(status := newStatus, updatedAt := now)
      ensures r.Some? ==> row == old(row)
      ensures r == Some(InvalidStatus) <==> !newStatus.Valid()
    {
      TransitionsExactly(row.status, newStatus);
      if !newStatus.Valid() {
        return Some(InvalidStatus);
      }
      if !CanTransition(row.status, newStatus) {
        return Some(InvalidStateTransition);
      }
      row := row.(status := newStatus);
      row := row.(updatedAt := now);
      return None;
    }
  }

  /** The idempotency key of a webhook event: unique in the events table. */
  datatype EventKey = EventKey(provider: Provider, eventID: string)

  datatype EventType =
    | AppleType(notificationType: string)
    | TestNotification
    | NonSubscription
    | UpstreamMissing(code: int)
    | GoogleType(code: int)

  datatype Event = Event(key: EventKey, eventType: EventType, processedAt: Time)
}
