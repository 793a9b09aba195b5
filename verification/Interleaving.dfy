/** Transactions interleaved: every transaction is a sequence of steps, one for each repository call,
    and steps of different transactions alternate freely. A step reads what is committed. A write to an
    event key, a row id or a lookup key that another open transaction has written waits for it; a
    statement that would fail is never taken, the transaction can then only abort, as it can at any time. */
module Interleaving {
  import opened Wrappers
  import opened Domain
  import opened Repository
  import opened Jobs
  import opened Invariants

  type TxID = nat

  /** Which call a transaction comes from last: begun; its event inserted, or found there already; the
      row looked up; the write done (of no row, when there was nothing to write). */
  datatype Phase =
    | Begun
    | Recorded
    | Duplicate
    | LookedUp(found: Option<Row>)
    | Written(read: Option<Row>, row: Option<Row>)

  datatype Tx = Tx(job: Job, phase: Phase)

  /** One committed transaction: its event key, whether it inserted that event, the row it wrote. */
  datatype Commit = Commit(key: Option<EventKey>, recorded: bool, wrote: Option<Row>)

  /** The committed tables; the open transactions; the lookup key each row id was ever handed out for;
      the commits so far; the event keys recorded outside transactions. */
  datatype Sys = Sys(
    store: Store,
    txs: map<TxID, Tx>,
    issued: map<UUID, SubKey>,
    log: seq<Commit>,
    noted: set<EventKey>)

  datatype Action =
    | Start(tid: TxID, job: Job)
    | Record(tid: TxID)
    | Lookup(tid: TxID)
    | Write(tid: TxID)
    | CommitTx(tid: TxID)
    | Abort(tid: TxID)
    | NoteNow(event: Event)
    | Delete(user: UUID)

  const INITIAL: Sys := Sys(Store(map[], map[]), map[], map[], [], {})

  predicate Transactional(job: Job) {
    job.Hook? || job.Check?
  }

  function JobKey(job: Job): SubKey
    requires Transactional(job)
  {
    if job.Hook? then job.change.key else job.purchase.key
  }

  /** The event key an open transaction has inserted and not committed. */
  function PendingEvent(tx: Tx): Option<EventKey> {
    if tx.job.Hook? && (tx.phase.Recorded? || tx.phase.LookedUp? || tx.phase.Written?) then Some(tx.job.event.key)
    else None
  }

  /** The row an open transaction has written and not committed. */
  function PendingRow(tx: Tx): Option<Row> {
    if tx.phase.Written? then tx.phase.row else None
  }

  datatype Statement = Nothing | InsertRow(row: Row) | UpdateRow(row: Row) | UpsertRow(row: Row)

  /** What a transaction runs after its lookup. */
  function StatementOf(job: Job, found: Option<Row>): Statement
    requires Transactional(job)
  {
    if job.Hook? then
      match HookEffect(found, job.change)
      case Keep => Nothing
      case Insert(row) => InsertRow(row)
      case Overwrite(row) => UpdateRow(row)
    else if found.Some? then UpsertRow(Verified(found, job.purchase))
    else InsertRow(Verified(found, job.purchase))
  }

  /** The row a statement puts into the committed rows, if it gets through. */
  function Stored(rows: Rows, st: Statement): Result<Option<Row>, RepoError> {
    match st
    case Nothing => Ok(None)
    case InsertRow(row) => if Inserted(rows, row).Ok? then Ok(Some(row)) else Err(Constraint)
    case UpdateRow(row) => StoredUpdate(rows, row)
    case UpsertRow(row) =>
      if row.id in rows then StoredUpdate(rows, row)
      else if Inserted(rows, row).Ok? then Ok(Some(row))
      else Err(Constraint)
  }

  function StoredUpdate(rows: Rows, row: Row): Result<Option<Row>, RepoError> {
    match Updated(rows, row)
    case Ok(_) => Ok(Some(Merged(rows[row.id], row)))
    case Err(e) => Err(e)
  }

  /** Two uncommitted writes that do not lock each other out. */
  predicate Apart(a: Tx, b: Tx) {
    && (PendingEvent(a).Some? ==> PendingEvent(a) != PendingEvent(b))
    && (PendingRow(a).Some? && PendingRow(b).Some? ==>
          PendingRow(a).value.id != PendingRow(b).value.id
          && KeyOf(PendingRow(a).value) != KeyOf(PendingRow(b).value))
  }

  /** No other open transaction holds what `tx` is about to hold. */
  predicate Unblocked(sys: Sys, tid: TxID, tx: Tx) {
    forall other :: other in sys.txs && other != tid ==> Apart(tx, sys.txs[other])
  }

  /** The transaction after its next step. */
  ghost function Advanced(sys: Sys, a: Action): Tx
    requires a.Record? || a.Lookup? || a.Write?
    requires a.tid in sys.txs && Transactional(sys.txs[a.tid].job)
  {
    var tx := sys.txs[a.tid];
    match a
    case Record(_) =>
      if tx.job.Hook? && tx.job.event.key !in sys.store.events then tx.(phase := Recorded) else tx.(phase := Duplicate)
    case Lookup(_) => tx.(phase := LookedUp(Find(sys.store.rows, JobKey(tx.job))))
    case Write(_) =>
      if tx.phase.LookedUp? then
        var stored := Stored(sys.store.rows, StatementOf(tx.job, tx.phase.found));
        tx.(phase := Written(tx.phase.found, if stored.Ok? then stored.value else None))
      else tx
  }

  ghost predicate Enabled(sys: Sys, a: Action) {
    match a
    case Start(tid, job) => tid !in sys.txs && Transactional(job) && NewIDs(job) !! sys.issued.Keys
    case Record(tid) =>
      && tid in sys.txs && sys.txs[tid].job.Hook? && sys.txs[tid].phase == Begun
      && Unblocked(sys, tid, Tx(sys.txs[tid].job, Recorded))
    case Lookup(tid) =>
      && tid in sys.txs && Transactional(sys.txs[tid].job)
      && sys.txs[tid].phase == (if sys.txs[tid].job.Hook? then Recorded else Begun)
    case Write(tid) =>
      && tid in sys.txs && Transactional(sys.txs[tid].job) && sys.txs[tid].phase.LookedUp?
      && Stored(sys.store.rows, StatementOf(sys.txs[tid].job, sys.txs[tid].phase.found)).Ok?
      && Unblocked(sys, tid, Advanced(sys, a))
    case CommitTx(tid) => tid in sys.txs && (sys.txs[tid].phase.Duplicate? || sys.txs[tid].phase.Written?)
    case Abort(tid) => tid in sys.txs
    case NoteNow(event) => forall tid :: tid in sys.txs ==> PendingEvent(sys.txs[tid]) != Some(event.key)
    case Delete(user) => forall tid :: tid in sys.txs ==> !LocksRowOf(sys, sys.txs[tid], user)
  }

  /** The transaction has updated a committed row of the user. */
  predicate LocksRowOf(sys: Sys, tx: Tx, user: UUID) {
    PendingRow(tx).Some? && PendingRow(tx).value.id in sys.store.rows
    && sys.store.rows[PendingRow(tx).value.id].userID == user
  }

  function Committed(store: Store, tx: Tx): Store {
    var events :=
      if tx.job.Hook? && PendingEvent(tx).Some? then store.events[tx.job.event.key := tx.job.event] else store.events;
    var rows := if PendingRow(tx).Some? then store.rows[PendingRow(tx).value.id := PendingRow(tx).value] else store.rows;
    Store(rows, events)
  }

  function CommitRecord(tx: Tx): Commit {
    Commit(if tx.job.Hook? then Some(tx.job.event.key) else None, PendingEvent(tx).Some?, PendingRow(tx))
  }

  function IssuedTo(job: Job): map<UUID, SubKey>
    requires Transactional(job)
  {
    map id | id in NewIDs(job) :: JobKey(job)
  }

  ghost function Step(sys: Sys, a: Action): Sys
    requires Enabled(sys, a)
  {
    match a
    case Start(tid, job) => sys.(txs := sys.txs[tid := Tx(job, Begun)], issued := sys.issued + IssuedTo(job))
    case Record(tid) => sys.(txs := sys.txs[tid := Advanced(sys, a)])
    case Lookup(tid) => sys.(txs := sys.txs[tid := Advanced(sys, a)])
    case Write(tid) => sys.(txs := sys.txs[tid := Advanced(sys, a)])
    case CommitTx(tid) =>
      sys.(store := Committed(sys.store, sys.txs[tid]), txs := sys.txs - {tid},
           log := sys.log + [CommitRecord(sys.txs[tid])])
    case Abort(tid) => sys.(txs := sys.txs - {tid})
    case NoteNow(event) =>
      if event.key in sys.store.events then sys
      else sys.(store := WithEvent(sys.store, event), noted := sys.noted + {event.key})
    case Delete(user) => sys.(store := sys.store.(rows := WithoutUser(sys.store.rows, user)))
  }

  /** The actions can be taken one after the other. */
  ghost predicate Executable(sys: Sys, actions: seq<Action>)
    decreases |actions|
  {
    actions == [] || (Enabled(sys, actions[0]) && Executable(Step(sys, actions[0]), actions[1..]))
  }

  ghost function Exec(sys: Sys, actions: seq<Action>): Sys
    requires Executable(sys, actions)
    decreases |actions|
  {
    if actions == [] then sys else Exec(Step(sys, actions[0]), actions[1..])
  }

  predicate SoundAction(env: Environment, a: Action) {
    a.Start? ==> Sound(env, a.job)
  }

  predicate SoundActions(env: Environment, actions: seq<Action>) {
    forall i :: 0 <= i < |actions| ==> SoundAction(env, actions[i])
  }

  // The invariant.

  /** A row under an id handed out for the row's own key. */
  predicate OnRecord(env: Environment, issued: map<UUID, SubKey>, row: Row) {
    WellFormed(env, row) && row.id in issued && issued[row.id] == KeyOf(row)
  }

  /** A row that can be put into the committed rows at any moment without breaking a constraint. */
  predicate Fits(rows: Rows, row: Row) {
    && (row.id in rows ==> SameIdentity(rows[row.id], row))
    && (forall id :: id in rows && id != row.id ==> KeyOf(rows[id]) != KeyOf(row))
  }

  predicate ReadOK(env: Environment, issued: map<UUID, SubKey>, key: SubKey, found: Option<Row>) {
    found.Some? ==> OnRecord(env, issued, found.value) && KeyOf(found.value) == key
  }

  /** What an open transaction has written follows from what it read. */
  predicate WrittenFrom(job: Job, read: Option<Row>, row: Row)
    requires Transactional(job)
  {
    var st := StatementOf(job, read);
    !st.Nothing? && row == Merged(row, st.row) && (st.InsertRow? ==> row == st.row)
  }

  predicate TxOK(env: Environment, store: Store, issued: map<UUID, SubKey>, tx: Tx) {
    && Transactional(tx.job) && Sound(env, tx.job)
    && (forall id :: id in NewIDs(tx.job) ==> id in issued && issued[id] == JobKey(tx.job))
    && (PendingEvent(tx).Some? ==> PendingEvent(tx).value !in store.events)
    && (tx.phase.LookedUp? ==> ReadOK(env, issued, JobKey(tx.job), tx.phase.found))
    && (tx.phase.Written? ==> ReadOK(env, issued, JobKey(tx.job), tx.phase.read))
    && (tx.phase.Written? && tx.phase.row.None? ==> StatementOf(tx.job, tx.phase.read).Nothing?)
    && (PendingRow(tx).Some? ==>
          && OnRecord(env, issued, PendingRow(tx).value) && KeyOf(PendingRow(tx).value) == JobKey(tx.job)
          && WrittenFrom(tx.job, tx.phase.read, PendingRow(tx).value)
          && Fits(store.rows, PendingRow(tx).value))
  }

  /** The event keys that committed transactions inserted. */
  function RecordedIn(log: seq<Commit>): set<EventKey> {
    set c | c in log && c.recorded && c.key.Some? :: c.key.value
  }

  /** Each event key was inserted by one committed transaction, or noted, and only an insertion of the
      event goes with a webhook's write. */
  predicate LogOK(store: Store, log: seq<Commit>, noted: set<EventKey>) {
    && store.events.Keys == RecordedIn(log) + noted
    && (forall i, j :: 0 <= i < j < |log| && log[i].recorded && log[j].recorded ==> log[i].key != log[j].key)
    && (forall i :: 0 <= i < |log| && log[i].recorded ==> log[i].key.Some? && log[i].key.value !in noted)
    && (forall i :: 0 <= i < |log| && log[i].wrote.Some? && log[i].key.Some? ==> log[i].recorded)
  }

  ghost predicate Inv(env: Environment, sys: Sys) {
    && Good(env, sys.store.rows)
    && (forall id :: id in sys.store.rows ==> OnRecord(env, sys.issued, sys.store.rows[id]))
    && (forall tid :: tid in sys.txs ==> TxOK(env, sys.store, sys.issued, sys.txs[tid]))
    && (forall a, b :: a in sys.txs && b in sys.txs && a != b ==> Apart(sys.txs[a], sys.txs[b]))
    && LogOK(sys.store, sys.log, sys.noted)
  }

  // Every action keeps it.

  /** The row a transaction's statement carries is well-formed and has the key it looked up. */
  lemma StatementIsWellFormed(env: Environment, issued: map<UUID, SubKey>, job: Job, found: Option<Row>)
    requires Transactional(job) && Sound(env, job)
    requires forall id :: id in NewIDs(job) ==> id in issued && issued[id] == JobKey(job)
    requires ReadOK(env, issued, JobKey(job), found)
    ensures var st := StatementOf(job, found);
            !st.Nothing? ==> OnRecord(env, issued, st.row) && KeyOf(st.row) == JobKey(job)
  {
  }

  /** A statement that gets through puts in a well-formed row that fits. */
  lemma StatementFits(env: Environment, rows: Rows, issued: map<UUID, SubKey>, job: Job, found: Option<Row>)
    requires Good(env, rows) && forall id :: id in rows ==> OnRecord(env, issued, rows[id])
    requires Transactional(job) && Sound(env, job)
    requires forall id :: id in NewIDs(job) ==> id in issued && issued[id] == JobKey(job)
    requires ReadOK(env, issued, JobKey(job), found)
    requires Stored(rows, StatementOf(job, found)).Ok? && !StatementOf(job, found).Nothing?
    ensures var row := Stored(rows, StatementOf(job, found)).value;
            && row.Some? && OnRecord(env, issued, row.value) && KeyOf(row.value) == JobKey(job)
            && WrittenFrom(job, found, row.value) && Fits(rows, row.value)
  {
    var st := StatementOf(job, found);
    StatementIsWellFormed(env, issued, job, found);
    var row := Stored(rows, st).value.value;
    assert !Violates(rows, row);
    forall id | id in rows && id != row.id
      ensures KeyOf(rows[id]) != KeyOf(row)
    {
      assert !Collide(rows[id], row);
    }
  }
}
