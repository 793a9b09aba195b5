/** Where uncommitted rows come from under interleaving: row ids stay with the transaction they were handed to,
    and what an account deletion takes away stays away. */
module Provenance {
  import opened Wrappers
  import opened Domain
  import opened Repository
  import opened Jobs
  import opened Invariants
  import opened Lifecycle
  import opened Ownership
  import opened Interleaving
  import opened ExactlyOnce
  import opened Ordering

  /** The row a transaction has read. */
  function ReadRow(tx: Tx): Option<Row> {
    match tx.phase
    case LookedUp(found) => found
    case Written(read, _) => read
    case _ => None
  }

  /** The row ids a transaction may have in its hands. */
  function Holds(tx: Tx): set<UUID> {
    NewIDs(tx.job) + (if ReadRow(tx).Some? then {ReadRow(tx).value.id} else {})
  }

  /** The uncommitted row of a transaction is one it holds; and if no such row is stored, it inserts it, just
      as its job made it. */
  ghost predicate IsTraced(store: Store, tx: Tx) {
    PendingRow(tx).Some? && Transactional(tx.job) ==>
      && PendingRow(tx).value.id in Holds(tx)
      && (ReadRow(tx).None? ==> PendingRow(tx).value.id in NewIDs(tx.job))
      && (PendingRow(tx).value.id !in store.rows ==>
            var st := StatementOf(tx.job, ReadRow(tx));
            (st.InsertRow? || st.UpsertRow?) && PendingRow(tx).value == st.row)
  }

  /** The ids handed to an open transaction are in no stored row and in no other transaction's hands. */
  ghost predicate Traced(sys: Sys) {
    && (forall tid :: tid in sys.txs ==> IsTraced(sys.store, sys.txs[tid]))
    && (forall tid :: tid in sys.txs ==> NewIDs(sys.txs[tid].job) !! sys.store.rows.Keys)
    && (forall a, b :: a in sys.txs && b in sys.txs && a != b ==> NewIDs(sys.txs[a].job) !! Holds(sys.txs[b]))
  }

  lemma HoldsIssued(env: Environment, sys: Sys, tid: TxID)
    requires Inv(env, sys) && tid in sys.txs
    ensures Holds(sys.txs[tid]) <= sys.issued.Keys
  {
    assert TxOK(env, sys.store, sys.issued, sys.txs[tid]);
  }

  lemma RowsAreIssued(env: Environment, sys: Sys)
    requires Inv(env, sys)
    ensures sys.store.rows.Keys <= sys.issued.Keys
  {
    forall id | id in sys.store.rows
      ensures id in sys.issued
    {
      assert OnRecord(env, sys.issued, sys.store.rows[id]);
    }
  }

  /** A new transaction whose ids have never been handed out. */
  lemma StartIsTraced(sys: Sys, tid: TxID, job: Job, issued: map<UUID, SubKey>)
    requires Traced(sys) && tid !in sys.txs && NewIDs(job) !! sys.issued.Keys
    requires sys.store.rows.Keys <= sys.issued.Keys
    requires forall other :: other in sys.txs ==> Holds(sys.txs[other]) <= sys.issued.Keys
    ensures Traced(sys.(txs := sys.txs[tid := Tx(job, Begun)], issued := issued))
  {
    forall other | other in sys.txs
      ensures Holds(sys.txs[other]) !! NewIDs(job) && NewIDs(sys.txs[other].job) !! Holds(Tx(job, Begun))
    {
      assert NewIDs(sys.txs[other].job) <= Holds(sys.txs[other]);
    }
  }

  lemma StartKeepsTraced(env: Environment, sys: Sys, a: Action)
    requires Inv(env, sys) && Traced(sys) && a.Start? && Enabled(sys, a)
    ensures Traced(Step(sys, a))
  {
    RowsAreIssued(env, sys);
    forall tid | tid in sys.txs
      ensures Holds(sys.txs[tid]) <= sys.issued.Keys
    {
      HoldsIssued(env, sys, tid);
    }
    StartIsTraced(sys, a.tid, a.job, sys.issued + IssuedTo(a.job));
  }

  /** Replacing a transaction by a later phase of itself that holds nothing handed to another. */
  lemma AdvanceKeepsTraced(sys: Sys, tid: TxID, tx: Tx)
    requires Traced(sys) && tid in sys.txs && tx.job == sys.txs[tid].job && IsTraced(sys.store, tx)
    requires Holds(tx) <= Holds(sys.txs[tid]) + sys.store.rows.Keys
    ensures Traced(sys.(txs := sys.txs[tid := tx]))
  {
  }

  lemma LookupKeepsTraced(env: Environment, sys: Sys, a: Action)
    requires Inv(env, sys) && Traced(sys) && a.Lookup? && Enabled(sys, a)
    ensures Traced(Step(sys, a))
  {
    FindAnswers(sys.store.rows, JobKey(sys.txs[a.tid].job));
    AdvanceKeepsTraced(sys, a.tid, Advanced(sys, a));
  }

  /** What a statement that gets through makes the uncommitted row. */
  lemma WriteIsTraced(env: Environment, store: Store, job: Job, found: Option<Row>)
    requires Transactional(job) && Sound(env, job) && Stored(store.rows, StatementOf(job, found)).Ok?
    requires found.Some? ==> WellFormed(env, found.value) && Matches(found.value, JobKey(job))
    ensures IsTraced(store, Tx(job, Written(found, Stored(store.rows, StatementOf(job, found)).value)))
  {
    if job.Hook? {
      HookEffectIsWellFormed(env, found, job.change);
    } else {
      VerifiedIsWellFormed(env, found, job.purchase);
    }
  }

  /** A transaction found what it looked for, well-formed. */
  lemma FoundIsFit(env: Environment, sys: Sys, tid: TxID)
    requires Inv(env, sys) && tid in sys.txs && sys.txs[tid].phase.LookedUp?
    ensures var tx := sys.txs[tid];
            && Transactional(tx.job) && Sound(env, tx.job)
            && (tx.phase.found.Some? ==>
                  WellFormed(env, tx.phase.found.value) && Matches(tx.phase.found.value, JobKey(tx.job)))
  {
    var tx := sys.txs[tid];
    assert TxOK(env, sys.store, sys.issued, tx);
    ProperJobKey(env, tx.job);
    if tx.phase.found.Some? {
      WellFormedHasOneKey(env, tx.phase.found.value, JobKey(tx.job));
    }
  }

  lemma WriteKeepsTraced(env: Environment, sys: Sys, a: Action)
    requires Inv(env, sys) && Traced(sys) && a.Write? && Enabled(sys, a)
    ensures Traced(Step(sys, a))
  {
    var tx := sys.txs[a.tid];
    FoundIsFit(env, sys, a.tid);
    WriteIsTraced(env, sys.store, tx.job, tx.phase.found);
    AdvanceKeepsTraced(sys, a.tid, Advanced(sys, a));
  }

  lemma CommitKeepsTraced(env: Environment, sys: Sys, a: Action)
    requires Inv(env, sys) && Traced(sys) && a.CommitTx? && Enabled(sys, a)
    ensures Traced(Step(sys, a))
  {
    assert TxOK(env, sys.store, sys.issued, sys.txs[a.tid]);
    assert IsTraced(sys.store, sys.txs[a.tid]);
    var next := Step(sys, a);
    forall tid | tid in next.txs
      ensures IsTraced(next.store, next.txs[tid]) && NewIDs(next.txs[tid].job) !! next.store.rows.Keys
    {
      assert IsTraced(sys.store, sys.txs[tid]);
      assert NewIDs(sys.txs[tid].job) !! Holds(sys.txs[a.tid]);
    }
  }

  /** A deletion takes no row that an uncommitted row is about. */
  lemma DeleteKeepsTraced(env: Environment, sys: Sys, a: Action)
    requires Inv(env, sys) && Traced(sys) && a.Delete? && Enabled(sys, a)
    ensures Traced(Step(sys, a))
  {
    var next := Step(sys, a);
    forall tid | tid in next.txs
      ensures IsTraced(next.store, next.txs[tid])
    {
      assert IsTraced(sys.store, sys.txs[tid]);
      assert !LocksRowOf(sys, sys.txs[tid], a.user);
    }
  }

  lemma StepKeepsTraced(env: Environment, sys: Sys, a: Action)
    requires Inv(env, sys) && Traced(sys) && Enabled(sys, a)
    ensures Traced(Step(sys, a))
  {
    match a {
      case Start(_, _) => StartKeepsTraced(env, sys, a);
      case Record(tid) => AdvanceKeepsTraced(sys, tid, Advanced(sys, a));
      case Lookup(_) => LookupKeepsTraced(env, sys, a);
      case Write(_) => WriteKeepsTraced(env, sys, a);
      case CommitTx(_) => CommitKeepsTraced(env, sys, a);
      case Abort(_) =>
      case NoteNow(_) =>
      case Delete(_) => DeleteKeepsTraced(env, sys, a);
    }
  }

  lemma {:induction false} ExecKeepsTraced(env: Environment, sys: Sys, actions: seq<Action>)
    requires Inv(env, sys) && Traced(sys) && Executable(sys, actions) && SoundActions(env, actions)
    ensures Inv(env, Exec(sys, actions)) && Traced(Exec(sys, actions))
    decreases |actions|
  {
    if actions == [] {
    } else {
      assert SoundAction(env, actions[0]);
      StepKeepsInv(env, sys, actions[0]);
      StepKeepsTraced(env, sys, actions[0]);
      ExecKeepsTraced(env, Step(sys, actions[0]), actions[1..]);
    }
  }

  lemma ReachableIsTraced(env: Environment, actions: seq<Action>)
    requires Executable(INITIAL, actions) && SoundActions(env, actions)
    ensures Inv(env, Exec(INITIAL, actions)) && Traced(Exec(INITIAL, actions))
  {
    InitialInv(env);
    ExecKeepsTraced(env, INITIAL, actions);
  }

  /** In every state a run reaches, a transaction that would turn a row's event clock back was overtaken: it
      read the row, and the row's clock has moved on since. */
  lemma StaleMeansOvertaken(env: Environment, actions: seq<Action>, tid: TxID)
    requires Executable(INITIAL, actions) && SoundActions(env, actions) && tid in Exec(INITIAL, actions).txs
    requires var sys := Exec(INITIAL, actions); IsStale(sys.store.rows, sys.txs[tid])
    ensures var sys := Exec(INITIAL, actions);
            var tx := sys.txs[tid];
            && tx.phase.read.Some?
            && PendingRow(tx).value.id == tx.phase.read.value.id
            && !NotBefore(sys.store.rows[PendingRow(tx).value.id].lastEventAt, tx.phase.read.value.lastEventAt)
  {
    ReachableIsTraced(env, actions);
    var sys := Exec(INITIAL, actions);
    StaleWasRead(env, sys, tid);
  }

  lemma StaleWasRead(env: Environment, sys: Sys, tid: TxID)
    requires Inv(env, sys) && Traced(sys) && tid in sys.txs && IsStale(sys.store.rows, sys.txs[tid])
    ensures var tx := sys.txs[tid];
            && tx.phase.read.Some?
            && PendingRow(tx).value.id == tx.phase.read.value.id
            && !NotBefore(sys.store.rows[PendingRow(tx).value.id].lastEventAt, tx.phase.read.value.lastEventAt)
  {
    assert TxOK(env, sys.store, sys.issued, sys.txs[tid]);
    assert IsTraced(sys.store, sys.txs[tid]);
    StaleReadIsOvertaken(env, sys, tid);
  }

  // Deletion.

  /** Nothing of the user is stored or about to be: no row, no uncommitted row, no open transaction that names
      them or verifies as them. */
  ghost predicate IsGone(sys: Sys, user: UUID) {
    && !HasRows(sys.store.rows, user)
    && forall tid :: tid in sys.txs ==>
         LeavesOut(sys.txs[tid].job, user)
         && (PendingRow(sys.txs[tid]).Some? ==> PendingRow(sys.txs[tid]).value.userID != user)
  }

  predicate StartsWithout(actions: seq<Action>, user: UUID) {
    forall i :: 0 <= i < |actions| && actions[i].Start? ==> LeavesOut(actions[i].job, user)
  }

  lemma WriteIsNotTheirs(env: Environment, rows: Rows, job: Job, found: Option<Row>, user: UUID)
    requires Transactional(job) && Sound(env, job) && LeavesOut(job, user) && !HasRows(rows, user)
    requires found.Some? ==> WellFormed(env, found.value) && Matches(found.value, JobKey(job))
    requires Stored(rows, StatementOf(job, found)).Ok?
    ensures var row := Stored(rows, StatementOf(job, found)).value;
            row.Some? ==> row.value.userID != user
  {
    if job.Hook? {
      HookEffectIsWellFormed(env, found, job.change);
    } else {
      VerifiedIsWellFormed(env, found, job.purchase);
    }
  }

  lemma StepKeepsGone(env: Environment, sys: Sys, a: Action, user: UUID)
    requires Inv(env, sys) && Enabled(sys, a) && IsGone(sys, user)
    requires a.Start? ==> LeavesOut(a.job, user)
    ensures IsGone(Step(sys, a), user)
  {
    if a.Write? {
      var tx := sys.txs[a.tid];
      FoundIsFit(env, sys, a.tid);
      WriteIsNotTheirs(env, sys.store.rows, tx.job, tx.phase.found, user);
    }
  }

  lemma {:induction false} ExecKeepsGone(env: Environment, sys: Sys, actions: seq<Action>, user: UUID)
    requires Inv(env, sys) && Executable(sys, actions) && SoundActions(env, actions)
    requires IsGone(sys, user) && StartsWithout(actions, user)
    ensures IsGone(Exec(sys, actions), user)
    decreases |actions|
  {
    if actions == [] {
    } else {
      assert SoundAction(env, actions[0]);
      StepKeepsInv(env, sys, actions[0]);
      StepKeepsGone(env, sys, actions[0], user);
      ExecKeepsGone(env, Step(sys, actions[0]), actions[1..], user);
    }
  }

  lemma DeletionMakesGone(env: Environment, sys: Sys, user: UUID)
    requires Inv(env, sys) && Traced(sys) && Enabled(sys, Delete(user))
    requires forall tid :: tid in sys.txs ==> LeavesOut(sys.txs[tid].job, user)
    ensures IsGone(Step(sys, Delete(user)), user)
  {
    forall tid | tid in sys.txs && PendingRow(sys.txs[tid]).Some?
      ensures PendingRow(sys.txs[tid]).value.userID != user
    {
      var tx := sys.txs[tid];
      assert TxOK(env, sys.store, sys.issued, tx) && IsTraced(sys.store, tx) && !LocksRowOf(sys, tx, user);
    }
  }

  /** Deletion stays deleted under interleaving: if no transaction open at the deletion and none started later
      names the user or verifies as them, no row of the user is ever stored again. */
  lemma InterleavedDeletionStays(env: Environment, before: seq<Action>, user: UUID, after: seq<Action>)
    requires Executable(INITIAL, before) && SoundActions(env, before)
    requires var sys := Exec(INITIAL, before);
             && Enabled(sys, Delete(user)) && Executable(Step(sys, Delete(user)), after)
             && forall tid :: tid in sys.txs ==> LeavesOut(sys.txs[tid].job, user)
    requires SoundActions(env, after) && StartsWithout(after, user)
    ensures !HasRows(Exec(Step(Exec(INITIAL, before), Delete(user)), after).store.rows, user)
  {
    ReachableIsTraced(env, before);
    var sys := Exec(INITIAL, before);
    DeletionMakesGone(env, sys, user);
    StepKeepsInv(env, sys, Delete(user));
    ExecKeepsGone(env, Step(sys, Delete(user)), after, user);
  }

  /** The condition is needed: a verification by the user that is open at the deletion, its row looked up,
      stores the row anew. */
  lemma OpenVerificationReinserts(env: Environment, sys: Sys, tid: TxID, row: Row, user: UUID) returns (last: Sys)
    requires Inv(env, sys) && LookedUpAlone(sys, tid, Some(row)) && sys.txs[tid].job.Check?
    requires row.id in sys.store.rows && SameIdentity(sys.store.rows[row.id], row)
    requires row.userID == sys.txs[tid].job.purchase.userID == user
    ensures Enabled(sys, Delete(user)) && Leads(Step(sys, Delete(user)), Finish(tid), last)
    ensures !HasRows(Step(sys, Delete(user)).store.rows, user) && HasRows(last.store.rows, user)
  {
    FoundIsFit(env, sys, tid);
    ReinsertGetsThrough(env, sys.store.rows, row, sys.txs[tid].job.purchase, user);
    DeletesAlone(sys, tid, Some(row), user);
    last := UpsertsAnew(Step(sys, Delete(user)), tid, row);
  }

  lemma DeletesAlone(sys: Sys, tid: TxID, read: Option<Row>, user: UUID)
    requires LookedUpAlone(sys, tid, read)
    ensures Enabled(sys, Delete(user)) && LookedUpAlone(Step(sys, Delete(user)), tid, read)
    ensures Step(sys, Delete(user)).txs == sys.txs
    ensures Step(sys, Delete(user)).store.rows == WithoutUser(sys.store.rows, user)
  {
  }

  lemma UpsertsAnew(sys: Sys, tid: TxID, row: Row) returns (last: Sys)
    requires LookedUpAlone(sys, tid, Some(row)) && sys.txs[tid].job.Check?
    requires var anew := Verified(Some(row), sys.txs[tid].job.purchase);
             Stored(sys.store.rows, UpsertRow(anew)) == Ok(Some(anew))
    ensures Leads(sys, Finish(tid), last) && HasRows(last.store.rows, sys.txs[tid].job.purchase.userID)
  {
    var anew := Verified(Some(row), sys.txs[tid].job.purchase);
    WritesThrough(sys, tid, Some(row), anew);
    last := Exec(sys, Finish(tid));
    assert last.store.rows[row.id] == anew;
  }

  lemma ReinsertGetsThrough(env: Environment, rows: Rows, row: Row, p: Purchase, user: UUID)
    requires Good(env, rows) && row.id in rows && SameIdentity(rows[row.id], row) && row.userID == p.userID == user
    requires WellFormed(env, row) && SoundPurchase(env, p) && Matches(row, p.key)
    ensures row.id !in WithoutUser(rows, user)
    ensures var anew := Verified(Some(row), p);
            Stored(WithoutUser(rows, user), UpsertRow(anew)) == Ok(Some(anew))
  {
    VerifiedIsWellFormed(env, Some(row), p);
    var anew := Verified(Some(row), p);
    forall id | id in WithoutUser(rows, user)
      ensures !Collide(rows[id], anew)
    {
      assert !Collide(rows[id], rows[row.id]);
    }
  }
}
