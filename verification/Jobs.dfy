/** What one call to the service comes to, once its input is decoded, and what it does to the store. */
module Jobs {
  import opened Wrappers
  import opened Domain
  import opened Repository
  import opened UpdateGuard
  import AppleStore

  /** The repository call of this job that does not get through, if any. */
  datatype Fault = NoFault | BeginFails | RecordFails | LookupFails | WriteFails | CommitFails

  datatype ServiceError =
    | InvalidWebhookPayload
    | ReconciliationFailed(api: AppleStore.ApiError)
    | UnsupportedProduct
    | BundleIDMismatch
    | GoogleNotConfigured
    | GoogleLookupFailed
    | Storage(cause: RepoError)

  /** What a webhook wants to write to the row it is about. */
  datatype Change = Change(
    key: SubKey,
    user: Option<UUID>,
    productID: Option<string>,
    transactionID: Option<string>,
    status: Status,
    environment: Environment,
    expiresAt: Option<Time>,
    autoRenew: bool,
    eventAt: Option<Time>,
    cancelledAt: Option<Time>,
    now: Time,
    freshID: UUID)

  /** What a verified purchase wants to write. */
  datatype Purchase = Purchase(
    key: SubKey,
    userID: UUID,
    productID: string,
    transactionID: Option<string>,
    status: Status,
    environment: Environment,
    expiresAt: Option<Time>,
    autoRenew: bool,
    clearsCancellation: bool,
    now: Time,
    freshID: UUID)

  datatype Job =
    | Refuse(error: ServiceError)
    | Ignore
    | Note(event: Event, fault: Fault)
    | Hook(event: Event, change: Change, fault: Fault)
    | Check(purchase: Purchase, fault: Fault)
    | Forget(userID: UUID, fails: bool)

  function OrElse<T>(a: Option<T>, b: Option<T>): Option<T> {
    if a.Some? then a else b
  }

  function WithKey(row: Row, key: SubKey): Row {
    match key
    case ByTransaction(_, id) => row.(originalTransactionID := Some(id))
    case ByToken(_, token) => row.(purchaseToken := Some(token))
  }

  /** The cancellation time a change leaves behind. */
  function CancelledAfter(current: Option<Time>, ch: Change): Option<Time> {
    if ch.status == Cancelled then OrElse(ch.cancelledAt, OrElse(current, Some(ch.now)))
    else if ch.status == Active then None
    else current
  }

  /** A row with a change written over it. */
  function Changed(row: Row, ch: Change): Row {
    row.(productID := if ch.productID.Some? then ch.productID.value else row.productID,
         transactionID := OrElse(ch.transactionID, row.transactionID),
         status := ch.status,
         environment := Some(ch.environment),
         expiresAt := ch.expiresAt,
         autoRenew := Some(ch.autoRenew),
         lastEventAt := OrElse(ch.eventAt, row.lastEventAt),
         cancelledAt := CancelledAfter(row.cancelledAt, ch),
         updatedAt := ch.now)
  }

  function Blank(id: UUID, userID: UUID, productID: string, key: SubKey, now: Time): Row {
    WithKey(NewRow(id, userID, key.provider, productID, now), key)
  }

  datatype Effect = Keep | Insert(row: Row) | Overwrite(row: Row)

  /** What a webhook does about the row it found, or did not find: an Apple change without a user is
      dropped, a change the guard refuses is dropped, and only a change naming a user creates a row. */
  function HookEffect(found: Option<Row>, ch: Change): Effect {
    match found
    case None =>
      if ch.user.None? then Keep
      else
        var product := if ch.productID.Some? then ch.productID.value else "";
        Insert(Changed(Blank(ch.freshID, ch.user.value, product, ch.key, ch.now), ch))
    case Some(row) =>
      if ch.key.ByTransaction? && ch.user.None? && row.userID == NIL_UUID then Keep
      else if ShouldApplyUpdate(found, ch.status, ch.expiresAt, ch.eventAt) then Overwrite(Changed(row, ch))
      else Keep
  }

  /** The object a verification hands back: the found row, or a new one, with the purchase written over it. */
  function Verified(found: Option<Row>, p: Purchase): Row {
    var row := if found.Some? then found.value else Blank(p.freshID, p.userID, p.productID, p.key, p.now);
    row.(userID := p.userID,
         productID := p.productID,
         transactionID := OrElse(p.transactionID, row.transactionID),
         status := p.status,
         environment := Some(p.environment),
         expiresAt := p.expiresAt,
         autoRenew := Some(p.autoRenew),
         cancelledAt := if p.clearsCancellation then None else row.cancelledAt,
         updatedAt := p.now)
  }

  function AttemptEffect(rows: Rows, eff: Effect, fails: bool): Result<Rows, RepoError> {
    match eff
    case Keep => Ok(rows)
    case Insert(row) => if fails then Err(Unavailable) else Inserted(rows, row)
    case Overwrite(row) => if fails then Err(Unavailable) else Updated(rows, row)
  }

  function WithEvent(s: Store, event: Event): Store {
    s.(events := s.events[event.key := event])
  }

  /** The rows after looking up the row of a change and doing what has to be done about it. */
  ghost function Resolved(rows: Rows, ch: Change, fault: Fault): Result<Rows, RepoError> {
    if fault == LookupFails then Err(Unavailable)
    else AttemptEffect(rows, HookEffect(Find(rows, ch.key), ch), fault == WriteFails)
  }

  /** The webhook transaction between begin and commit. */
  ghost function HookBody(s: Store, event: Event, ch: Change, fault: Fault): (Store, Option<ServiceError>) {
    if fault == RecordFails then (s, Some(Storage(Unavailable)))
    else if event.key in s.events then (s, None)
    else
      match Resolved(s.rows, ch, fault)
      case Ok(rows) => (WithEvent(s, event).(rows := rows), None)
      case Err(e) => (WithEvent(s, event), Some(Storage(e)))
  }

  /** Storing what a verification found or made: the rows after it, and the object it hands back. */
  function AttemptPurchase(rows: Rows, found: Option<Row>, p: Purchase, fails: bool): Result<Rows, RepoError> {
    if fails then Err(Unavailable)
    else if found.Some? then Upserted(rows, Verified(found, p))
    else Inserted(rows, Verified(found, p))
  }

  /** The verification transaction between begin and commit. */
  ghost function CheckBody(s: Store, p: Purchase, fault: Fault): (Store, Result<Row, ServiceError>) {
    if fault == LookupFails then (s, Err(Storage(Unavailable)))
    else
      var found := Find(s.rows, p.key);
      match AttemptPurchase(s.rows, found, p, fault == WriteFails)
      case Ok(rows) => (s.(rows := rows), Ok(Verified(found, p)))
      case Err(e) => (s, Err(Storage(e)))
  }

  /** The store a job leaves behind, and what it answers: an error, or success with the subscription
      a verification returns. */
  datatype Performed = Performed(store: Store, reply: Result<Option<Row>, ServiceError>)

  ghost function Perform(s: Store, job: Job): Performed {
    match job
    case Refuse(e) => Performed(s, Err(e))
    case Ignore => Performed(s, Ok(None))
    case Note(event, fault) =>
      Performed(if fault == RecordFails || event.key in s.events then s else WithEvent(s, event), Ok(None))
    case Hook(event, ch, fault) =>
      if fault == BeginFails then Performed(s, Err(Storage(Unavailable)))
      else
        var (after, failure) := HookBody(s, event, ch, fault);
        if failure.Some? then Performed(s, Err(failure.value))
        else if fault == CommitFails then Performed(s, Err(Storage(Unavailable)))
        else Performed(after, Ok(None))
    case Check(p, fault) =>
      if fault == BeginFails then Performed(s, Err(Storage(Unavailable)))
      else
        var (after, result) := CheckBody(s, p, fault);
        if result.Err? then Performed(s, Err(result.error))
        else if fault == CommitFails then Performed(s, Err(Storage(Unavailable)))
        else Performed(after, Ok(Some(result.value)))
    case Forget(user, fails) =>
      if fails then Performed(s, Err(Storage(Unavailable)))
      else Performed(s.(rows := WithoutUser(s.rows, user)), Ok(None))
  }

  /** The store after a sequence of jobs, each in a transaction of its own, one after the other. */
  ghost function Run(s: Store, jobs: seq<Job>): Store
    decreases |jobs|
  {
    if jobs == [] then s else Run(Perform(s, jobs[0]).store, jobs[1..])
  }

  /** A job a webhook comes to. */
  predicate IsWebhook(job: Job) {
    !job.Check? && !job.Forget?
  }

  /** What every job the service derives from its input guarantees. */
  predicate Sound(env: Environment, job: Job) {
    match job
    case Hook(event, ch, _) => event.key.provider == ch.key.provider && SoundChange(env, ch)
    case Check(p, _) => SoundPurchase(env, p)
    case _ => true
  }

  predicate SoundChange(env: Environment, ch: Change) {
    && ch.status.Valid() && ch.status != Inactive
    && (ch.status == Cancelled ==> !ch.autoRenew)
    && (ch.key.ByTransaction? ==> ch.key.provider == Apple && ch.environment == env && ch.productID.Some?)
    && (ch.key.ByToken? ==> ch.key.provider == Google && ch.user.None?
                            && (ch.autoRenew ==> ch.status == Active || ch.status == GracePeriod))
  }

  predicate SoundPurchase(env: Environment, p: Purchase) {
    && p.status.Valid() && p.status != Inactive
    && (p.status == Cancelled ==> !p.autoRenew)
    && (p.status == Active ==> p.clearsCancellation)
    && (p.key.ByTransaction? ==> p.key.provider == Apple && p.environment == env && p.status != Cancelled)
    && (p.key.ByToken? ==> p.key.provider == Google
                           && (p.autoRenew ==> p.status == Active || p.status == GracePeriod))
  }

  predicate SoundRun(env: Environment, jobs: seq<Job>) {
    forall i :: 0 <= i < |jobs| ==> Sound(env, jobs[i])
  }

  predicate WebhookRun(jobs: seq<Job>) {
    forall i :: 0 <= i < |jobs| ==> IsWebhook(jobs[i])
  }
}
