/** What holds under every interleaving of transactions: each event takes effect at most once, aborted
    transactions leave nothing, and the rows keep their invariant. */
module ExactlyOnce {
  import opened Wrappers
  import opened Domain
  import opened Repository
  import opened Jobs
  import opened Invariants
  import opened Interleaving

  lemma InitialInv(env: Environment)
    ensures Inv(env, INITIAL)
  {
  }

  /** The uncommitted row of an open transaction. */
  lemma PendingRowOK(env: Environment, sys: Sys, tid: TxID)
    requires Inv(env, sys) && tid in sys.txs && PendingRow(sys.txs[tid]).Some?
    ensures OnRecord(env, sys.issued, PendingRow(sys.txs[tid]).value)
    ensures Fits(sys.store.rows, PendingRow(sys.txs[tid]).value)
  {
  }

  /** Handing out a new row id disturbs no transaction and no row. */
  lemma IssuingIsHarmless(env: Environment, sys: Sys, issued: map<UUID, SubKey>)
    requires Inv(env, sys)
    requires forall id :: id in sys.issued ==> id in issued && issued[id] == sys.issued[id]
    ensures Inv(env, sys.(issued := issued))
  {
    forall tid | tid in sys.txs
      ensures TxOK(env, sys.store, issued, sys.txs[tid])
    {
      assert TxOK(env, sys.store, sys.issued, sys.txs[tid]);
    }
  }

  /** Putting in, or replacing, one transaction that is in order and apart from the others. */
  lemma PuttingTxKeepsInv(env: Environment, sys: Sys, tid: TxID, tx: Tx)
    requires Inv(env, sys) && TxOK(env, sys.store, sys.issued, tx) && Unblocked(sys, tid, tx)
    ensures Inv(env, sys.(txs := sys.txs[tid := tx]))
  {
  }

  lemma NewTxOK(env: Environment, store: Store, issued: map<UUID, SubKey>, job: Job)
    requires Transactional(job) && Sound(env, job)
    requires forall id :: id in NewIDs(job) ==> id in issued && issued[id] == JobKey(job)
    ensures TxOK(env, store, issued, Tx(job, Begun))
    ensures forall tx :: Apart(Tx(job, Begun), tx)
  {
  }

  lemma StartKeepsInv(env: Environment, sys: Sys, a: Action)
    requires Inv(env, sys) && a.Start? && Enabled(sys, a) && SoundAction(env, a)
    ensures Inv(env, Step(sys, a))
  {
    var issued := sys.issued + IssuedTo(a.job);
    IssuingIsHarmless(env, sys, issued);
    NewTxOK(env, sys.store, issued, a.job);
    PuttingTxKeepsInv(env, sys.(issued := issued), a.tid, Tx(a.job, Begun));
  }

  lemma RecordKeepsInv(env: Environment, sys: Sys, a: Action)
    requires Inv(env, sys) && a.Record? && Enabled(sys, a)
    ensures Inv(env, Step(sys, a))
  {
    assert TxOK(env, sys.store, sys.issued, sys.txs[a.tid]);
    PuttingTxKeepsInv(env, sys, a.tid, Advanced(sys, a));
  }

  lemma LookupKeepsInv(env: Environment, sys: Sys, a: Action)
    requires Inv(env, sys) && a.Lookup? && Enabled(sys, a)
    ensures Inv(env, Step(sys, a))
  {
    var tx := sys.txs[a.tid];
    assert TxOK(env, sys.store, sys.issued, tx);
    var found := Find(sys.store.rows, JobKey(tx.job));
    FindAnswers(sys.store.rows, JobKey(tx.job));
    assert ReadOK(env, sys.issued, JobKey(tx.job), found) by {
      if found.Some? {
        assert OnRecord(env, sys.issued, sys.store.rows[found.value.id]);
        ProperJobKey(env, tx.job);
        WellFormedHasOneKey(env, found.value, JobKey(tx.job));
      }
    }
    forall other | other in sys.txs && other != a.tid
      ensures Apart(Advanced(sys, a), sys.txs[other])
    {
      assert Apart(tx, sys.txs[other]);
    }
    PuttingTxKeepsInv(env, sys, a.tid, Advanced(sys, a));
  }

  lemma ProperJobKey(env: Environment, job: Job)
    requires Transactional(job) && Sound(env, job)
    ensures ProperKey(JobKey(job))
  {
  }

  lemma WriteKeepsInv(env: Environment, sys: Sys, a: Action)
    requires Inv(env, sys) && a.Write? && Enabled(sys, a)
    ensures Inv(env, Step(sys, a))
  {
    var tx := sys.txs[a.tid];
    assert TxOK(env, sys.store, sys.issued, tx);
    var st := StatementOf(tx.job, tx.phase.found);
    if !st.Nothing? {
      StatementFits(env, sys.store.rows, sys.issued, tx.job, tx.phase.found);
    }
    PuttingTxKeepsInv(env, sys, a.tid, Advanced(sys, a));
  }

  /** Removing a transaction disturbs nothing. */
  lemma RemovingTxKeepsInv(env: Environment, sys: Sys, tid: TxID)
    requires Inv(env, sys)
    ensures Inv(env, sys.(txs := sys.txs - {tid}))
  {
  }

  /** The committed rows after a commit: in order, and every other open transaction still fits. */
  lemma CommittedRows(env: Environment, sys: Sys, tid: TxID)
    requires Inv(env, sys) && tid in sys.txs
    ensures var rows := Committed(sys.store, sys.txs[tid]).rows;
            && Good(env, rows)
            && (forall id :: id in rows ==> OnRecord(env, sys.issued, rows[id]))
            && (forall other :: other in sys.txs && other != tid && PendingRow(sys.txs[other]).Some? ==>
                  Fits(rows, PendingRow(sys.txs[other]).value))
  {
    var tx := sys.txs[tid];
    if PendingRow(tx).Some? {
      PendingRowOK(env, sys, tid);
      FittingRowMeetsNoConstraint(env, sys.store.rows, PendingRow(tx).value);
      PutKeepsConstraints(sys.store.rows, PendingRow(tx).value);
    }
    forall other | other in sys.txs && other != tid && PendingRow(sys.txs[other]).Some?
      ensures Fits(Committed(sys.store, tx).rows, PendingRow(sys.txs[other]).value)
    {
      assert Apart(tx, sys.txs[other]);
      PendingRowOK(env, sys, other);
    }
  }

  lemma FittingRowMeetsNoConstraint(env: Environment, rows: Rows, row: Row)
    requires Good(env, rows) && WellFormed(env, row) && Fits(rows, row)
    ensures !Violates(rows, row)
  {
  }

  /** The log after a commit. */
  lemma CommittedLog(env: Environment, sys: Sys, tid: TxID)
    requires Inv(env, sys) && Enabled(sys, CommitTx(tid))
    ensures LogOK(Committed(sys.store, sys.txs[tid]), sys.log + [CommitRecord(sys.txs[tid])], sys.noted)
    ensures forall other :: other in sys.txs && other != tid && PendingEvent(sys.txs[other]).Some? ==>
              PendingEvent(sys.txs[other]).value !in Committed(sys.store, sys.txs[tid]).events
  {
    var tx := sys.txs[tid];
    var c := CommitRecord(tx);
    assert TxOK(env, sys.store, sys.issued, tx);
    LogGrows(sys.store, sys.log, sys.noted, c, Committed(sys.store, tx));
    forall other | other in sys.txs && other != tid && PendingEvent(sys.txs[other]).Some?
      ensures PendingEvent(sys.txs[other]).value !in Committed(sys.store, tx).events
    {
      assert Apart(tx, sys.txs[other]);
      assert TxOK(env, sys.store, sys.issued, sys.txs[other]);
    }
  }

  lemma LogGrows(store: Store, log: seq<Commit>, noted: set<EventKey>, c: Commit, after: Store)
    requires LogOK(store, log, noted)
    requires c.recorded ==> c.key.Some? && c.key.value !in store.events
    requires c.wrote.Some? && c.key.Some? ==> c.recorded
    requires after.events.Keys == store.events.Keys + if c.recorded then {c.key.value} else {}
    ensures LogOK(after, log + [c], noted)
  {
  }

  lemma CommitKeepsInv(env: Environment, sys: Sys, a: Action)
    requires Inv(env, sys) && a.CommitTx? && Enabled(sys, a)
    ensures Inv(env, Step(sys, a))
  {
    CommittedRows(env, sys, a.tid);
    CommittedLog(env, sys, a.tid);
    var next := Step(sys, a);
    forall tid | tid in next.txs
      ensures TxOK(env, next.store, next.issued, next.txs[tid])
    {
      assert TxOK(env, sys.store, sys.issued, sys.txs[tid]);
    }
    forall x, y | x in next.txs && y in next.txs && x != y
      ensures Apart(next.txs[x], next.txs[y])
    {
      assert Apart(sys.txs[x], sys.txs[y]);
    }
  }

  lemma NoteKeepsInv(env: Environment, sys: Sys, a: Action)
    requires Inv(env, sys) && a.NoteNow? && Enabled(sys, a)
    ensures Inv(env, Step(sys, a))
  {
    var next := Step(sys, a);
    forall tid | tid in next.txs
      ensures TxOK(env, next.store, next.issued, next.txs[tid])
    {
      assert TxOK(env, sys.store, sys.issued, sys.txs[tid]);
    }
    if a.event.key !in sys.store.events {
      forall i | 0 <= i < |sys.log| && sys.log[i].recorded
        ensures sys.log[i].key.value !in next.noted
      {
        assert sys.log[i] in sys.log && sys.log[i].key.value in RecordedIn(sys.log);
      }
    }
  }

  lemma DeleteKeepsInv(env: Environment, sys: Sys, a: Action)
    requires Inv(env, sys) && a.Delete? && Enabled(sys, a)
    ensures Inv(env, Step(sys, a))
  {
    var next := Step(sys, a);
    DeletionKeepsConstraints(sys.store.rows, a.user);
    forall tid | tid in next.txs
      ensures TxOK(env, next.store, next.issued, next.txs[tid])
    {
      assert TxOK(env, sys.store, sys.issued, sys.txs[tid]);
    }
  }

  lemma StepKeepsInv(env: Environment, sys: Sys, a: Action)
    requires Inv(env, sys) && Enabled(sys, a) && SoundAction(env, a)
    ensures Inv(env, Step(sys, a))
  {
    match a {
      case Start(_, _) => StartKeepsInv(env, sys, a);
      case Record(_) => RecordKeepsInv(env, sys, a);
      case Lookup(_) => LookupKeepsInv(env, sys, a);
      case Write(_) => WriteKeepsInv(env, sys, a);
      case CommitTx(_) => CommitKeepsInv(env, sys, a);
      case Abort(tid) => RemovingTxKeepsInv(env, sys, tid);
      case NoteNow(_) => NoteKeepsInv(env, sys, a);
      case Delete(_) => DeleteKeepsInv(env, sys, a);
    }
  }

  lemma {:induction false} ExecKeepsInv(env: Environment, sys: Sys, actions: seq<Action>)
    requires Inv(env, sys) && Executable(sys, actions) && SoundActions(env, actions)
    ensures Inv(env, Exec(sys, actions))
    decreases |actions|
  {
    if actions == [] {
    } else {
      assert SoundAction(env, actions[0]);
      StepKeepsInv(env, sys, actions[0]);
      ExecKeepsInv(env, Step(sys, actions[0]), actions[1..]);
    }
  }

  /** The log leaves nothing out: the events change only by a commit, which logs whether it inserted its event,
      or by a note; the rows only by a commit, which logs the row it put in, or by a deletion. */
  lemma StepsAreLogged(env: Environment, sys: Sys, a: Action)
    requires Inv(env, sys) && Enabled(sys, a)
    ensures var next := Step(sys, a);
            match a
            case CommitTx(tid) =>
              var c := next.log[|next.log| - 1];
              && next.log == sys.log + [c]
              && c.key == (if sys.txs[tid].job.Hook? then Some(sys.txs[tid].job.event.key) else None)
              && next.store.rows == (if c.wrote.Some? then sys.store.rows[c.wrote.value.id := c.wrote.value] else sys.store.rows)
              && (if c.recorded then
                    c.key.Some? && c.key.value !in sys.store.events
                    && next.store.events == sys.store.events[c.key.value := sys.txs[tid].job.event]
                  else next.store.events == sys.store.events)
            case NoteNow(event) =>
              next.log == sys.log && next.store.rows == sys.store.rows
              && next.store.events.Keys == sys.store.events.Keys + {event.key}
            case Delete(user) =>
              next.log == sys.log && next.store.events == sys.store.events && !HasRows(next.store.rows, user)
              && forall id :: id in sys.store.rows && sys.store.rows[id].userID != user ==>
                   id in next.store.rows && next.store.rows[id] == sys.store.rows[id]
            case _ => next.log == sys.log && next.store == sys.store
  {
    if a.CommitTx? {
      assert TxOK(env, sys.store, sys.issued, sys.txs[a.tid]);
    }
  }

  /** An event recorded outside a transaction goes in at once, unless a transaction holds it. */
  lemma NoteRecords(sys: Sys, event: Event)
    ensures Enabled(sys, NoteNow(event)) <==> forall tid :: tid in sys.txs ==> PendingEvent(sys.txs[tid]) != Some(event.key)
    ensures Enabled(sys, NoteNow(event)) ==>
              var next := Step(sys, NoteNow(event));
              && event.key in next.store.events && next.store.rows == sys.store.rows && next.txs == sys.txs
              && (event.key !in sys.store.events ==> next.store.events[event.key] == event && event.key in next.noted)
  {
  }

  /** Exactly once: under every interleaving from empty tables, the commits that wrote a row on behalf of
      a webhook event have pairwise different event keys, and an event key is in the table exactly if one
      of the commits inserted it or it was noted outside a transaction, never both. */
  lemma EventsTakeEffectOnce(env: Environment, actions: seq<Action>)
    requires Executable(INITIAL, actions) && SoundActions(env, actions)
    ensures var sys := Exec(INITIAL, actions);
            && (forall i, j :: 0 <= i < j < |sys.log| && sys.log[i].key.Some? && sys.log[j].key.Some?
                               && sys.log[i].wrote.Some? && sys.log[j].wrote.Some? ==>
                  sys.log[i].key != sys.log[j].key)
            && (forall key :: key in sys.store.events <==>
                  key in sys.noted || exists c :: c in sys.log && c.recorded && c.key == Some(key))
            && (forall c :: c in sys.log && c.recorded ==> c.key.Some? && c.key.value !in sys.noted)
  {
    InitialInv(env);
    ExecKeepsInv(env, INITIAL, actions);
    var sys := Exec(INITIAL, actions);
    forall key | key in sys.store.events
      ensures key in sys.noted || exists c :: c in sys.log && c.recorded && c.key == Some(key)
    {
      if key in RecordedIn(sys.log) {
        var c :| c in sys.log && c.recorded && c.key.Some? && c.key.value == key;
        assert c.key == Some(key);
      }
    }
    forall key | exists c :: c in sys.log && c.recorded && c.key == Some(key)
      ensures key in sys.store.events
    {
      var c :| c in sys.log && c.recorded && c.key == Some(key);
      assert key in RecordedIn(sys.log);
    }
  }

  /** The row invariant and the uniqueness of lookup keys survive every interleaving of webhooks,
      verifications and deletions. */
  lemma InterleavedRowsAreWellFormed(env: Environment, actions: seq<Action>)
    requires Executable(INITIAL, actions) && SoundActions(env, actions)
    ensures var rows := Exec(INITIAL, actions).store.rows;
            && Valid(rows)
            && (forall id :: id in rows ==> rows[id].id == id && WellFormed(env, rows[id]))
            && (forall a, b :: a in rows && b in rows && a != b ==> KeyOf(rows[a]) != KeyOf(rows[b]))
  {
    InitialInv(env);
    ExecKeepsInv(env, INITIAL, actions);
    var rows := Exec(INITIAL, actions).store.rows;
    forall a, b | a in rows && b in rows && a != b
      ensures KeyOf(rows[a]) != KeyOf(rows[b])
    {
      assert !Collide(rows[a], rows[b]);
    }
  }

  lemma CommitContinuesRows(env: Environment, sys: Sys, tid: TxID)
    requires Inv(env, sys) && tid in sys.txs
    ensures RowsKeepIdentity(sys.store.rows, Committed(sys.store, sys.txs[tid]).rows)
  {
    if PendingRow(sys.txs[tid]).Some? {
      PendingRowOK(env, sys, tid);
    }
  }

  /** Every row is still there, with its identity. */
  predicate RowsKeepIdentity(before: Rows, after: Rows) {
    forall id :: id in before ==> id in after && SameIdentity(before[id], after[id])
  }

  lemma StepContinuesRows(env: Environment, sys: Sys, a: Action)
    requires Inv(env, sys) && Enabled(sys, a) && !a.Delete?
    ensures RowsKeepIdentity(sys.store.rows, Step(sys, a).store.rows)
  {
    if a.CommitTx? {
      CommitContinuesRows(env, sys, a.tid);
    }
  }

  lemma KeepingIdentityIsTransitive(a: Rows, b: Rows, c: Rows)
    requires RowsKeepIdentity(a, b) && RowsKeepIdentity(b, c)
    ensures RowsKeepIdentity(a, c)
  {
  }

  /** Without deletions no interleaving removes a row or changes its id, owner, provider, creation time or
      lookup key. */
  lemma {:induction false} InterleavedRowsContinue(env: Environment, sys: Sys, actions: seq<Action>)
    requires Inv(env, sys) && Executable(sys, actions) && SoundActions(env, actions)
    requires forall i :: 0 <= i < |actions| ==> !actions[i].Delete?
    ensures RowsKeepIdentity(sys.store.rows, Exec(sys, actions).store.rows)
    decreases |actions|
  {
    if actions == [] {
    } else {
      var a := actions[0];
      assert SoundAction(env, a);
      StepKeepsInv(env, sys, a);
      StepContinuesRows(env, sys, a);
      var next := Step(sys, a);
      InterleavedRowsContinue(env, next, actions[1..]);
      KeepingIdentityIsTransitive(sys.store.rows, next.store.rows, Exec(sys, actions).store.rows);
    }
  }

  /** An aborted transaction leaves nothing behind: both tables are as they were, and as soon as the same
      event is delivered again, with nothing else going on about it, it is recorded as new. */
  lemma AbortLeavesNothing(env: Environment, sys: Sys, tid: TxID, retry: TxID, job: Job)
    requires Inv(env, sys) && tid in sys.txs && PendingEvent(sys.txs[tid]).Some?
    requires job.Hook? && Some(job.event.key) == PendingEvent(sys.txs[tid])
    requires retry !in sys.txs && NewIDs(job) !! sys.issued.Keys
    ensures Enabled(sys, Abort(tid)) && Step(sys, Abort(tid)).store == sys.store
    ensures var actions := [Abort(tid), Start(retry, job), Record(retry)];
            && Executable(sys, actions)
            && Exec(sys, actions).store == sys.store && Exec(sys, actions).log == sys.log
            && retry in Exec(sys, actions).txs && Exec(sys, actions).txs[retry] == Tx(job, Recorded)
  {
    assert TxOK(env, sys.store, sys.issued, sys.txs[tid]);
    var aborted := Step(sys, Abort(tid));
    var started := Step(aborted, Start(retry, job));
    forall other | other in started.txs && other != retry
      ensures Apart(Tx(job, Recorded), started.txs[other])
    {
      assert Apart(sys.txs[tid], sys.txs[other]);
    }
    assert Enabled(started, Record(retry));
    assert Advanced(started, Record(retry)) == Tx(job, Recorded);
    ExecOfThree(sys, Abort(tid), Start(retry, job), Record(retry));
  }

  lemma ExecOfThree(sys: Sys, a: Action, b: Action, c: Action)
    requires Enabled(sys, a) && Enabled(Step(sys, a), b) && Enabled(Step(Step(sys, a), b), c)
    ensures Executable(sys, [a, b, c]) && Exec(sys, [a, b, c]) == Step(Step(Step(sys, a), b), c)
  {
    var s1, s2 := Step(sys, a), Step(Step(sys, a), b);
    assert [a, b, c][1..] == [b, c] && [b, c][1..] == [c] && [c][1..] == [];
    assert Executable(Step(s2, c), []);
    assert Executable(s2, [c]) && Exec(s2, [c]) == Step(s2, c);
    assert Executable(s1, [b, c]) && Exec(s1, [b, c]) == Exec(s2, [c]);
  }

  /** `second` waits: it is about to record the event that `first` has recorded and not committed. */
  predicate WaitsFor(sys: Sys, first: TxID, second: TxID) {
    && first in sys.txs && second in sys.txs && first != second
    && PendingEvent(sys.txs[first]).Some?
    && sys.txs[second].job.Hook? && sys.txs[second].phase == Begun
    && Some(sys.txs[second].job.event.key) == PendingEvent(sys.txs[first])
  }

  /** Two deliveries of one event at once: the second can go on only once the first is done. If the first
      commits, the second can only record, finds the event there, and all it commits is nothing: the tables
      stay as the first left them. */
  lemma DuplicateWaits(env: Environment, sys: Sys, first: TxID, second: TxID)
    requires Inv(env, sys) && WaitsFor(sys, first, second)
    ensures forall a :: a in {Record(second), Lookup(second), Write(second), CommitTx(second)} ==> !Enabled(sys, a)
    ensures Enabled(sys, CommitTx(first)) ==>
              var actions := [CommitTx(first), Record(second), CommitTx(second)];
              && Executable(sys, actions)
              && Exec(sys, actions).store == Committed(sys.store, sys.txs[first])
              && Exec(sys, actions).log
                 == sys.log + [CommitRecord(sys.txs[first]), Commit(PendingEvent(sys.txs[first]), false, None)]
  {
    var waiting := Tx(sys.txs[second].job, Recorded);
    assert !Apart(waiting, sys.txs[first]);
    forall other | other in sys.txs && other != first && other != second
      ensures Apart(waiting, sys.txs[other])
    {
      assert Apart(sys.txs[first], sys.txs[other]);
    }
    if Enabled(sys, CommitTx(first)) {
      WaiterFindsTheEvent(sys, first, second);
    }
  }

  lemma WaiterFindsTheEvent(sys: Sys, first: TxID, second: TxID)
    requires WaitsFor(sys, first, second) && Enabled(sys, CommitTx(first))
    requires forall other :: other in sys.txs && other != first && other != second ==>
                               Apart(Tx(sys.txs[second].job, Recorded), sys.txs[other])
    ensures var actions := [CommitTx(first), Record(second), CommitTx(second)];
            && Executable(sys, actions)
            && Exec(sys, actions).store == Committed(sys.store, sys.txs[first])
            && Exec(sys, actions).log
               == sys.log + [CommitRecord(sys.txs[first]), Commit(PendingEvent(sys.txs[first]), false, None)]
  {
    var after := Step(sys, CommitTx(first));
    var found := Step(after, Record(second));
    assert found.txs[second] == Tx(sys.txs[second].job, Duplicate);
    ExecOfThree(sys, CommitTx(first), Record(second), CommitTx(second));
    assert Step(found, CommitTx(second)).log == after.log + [CommitRecord(found.txs[second])];
  }

  /** A delivery of an event that is in the table, whatever else is going on, is recorded as a duplicate and
      commits nothing. */
  lemma DuplicateCommitsNothing(env: Environment, sys: Sys, tid: TxID, job: Job)
    requires Inv(env, sys) && tid !in sys.txs && NewIDs(job) !! sys.issued.Keys
    requires job.Hook? && job.event.key in sys.store.events
    ensures var actions := [Start(tid, job), Record(tid), CommitTx(tid)];
            && Executable(sys, actions)
            && Exec(sys, actions).store == sys.store
            && Exec(sys, actions).log == sys.log + [Commit(Some(job.event.key), false, None)]
  {
    forall other | other in sys.txs
      ensures Apart(Tx(job, Recorded), sys.txs[other])
    {
      assert TxOK(env, sys.store, sys.issued, sys.txs[other]);
    }
    ReplayCommitsNothing(sys, tid, job);
  }

  lemma ReplayCommitsNothing(sys: Sys, tid: TxID, job: Job)
    requires tid !in sys.txs && NewIDs(job) !! sys.issued.Keys && job.Hook? && job.event.key in sys.store.events
    requires forall other :: other in sys.txs ==> Apart(Tx(job, Recorded), sys.txs[other])
    ensures var actions := [Start(tid, job), Record(tid), CommitTx(tid)];
            && Executable(sys, actions)
            && Exec(sys, actions).store == sys.store
            && Exec(sys, actions).log == sys.log + [Commit(Some(job.event.key), false, None)]
  {
    var found := Step(Step(sys, Start(tid, job)), Record(tid));
    assert found.txs[tid] == Tx(job, Duplicate);
    ExecOfThree(sys, Start(tid, job), Record(tid), CommitTx(tid));
    assert Step(found, CommitTx(tid)).log == sys.log + [CommitRecord(found.txs[tid])];
  }

  /** The job of a transaction none of whose calls fails. */
  function Faultless(job: Job): Job
    requires Transactional(job)
  {
    if job.Hook? then Hook(job.event, job.change, NoFault) else Check(job.purchase, NoFault)
  }

  /** The store as one serial transaction leaves it. */
  ghost function Serially(s: Store, job: Job): Store
    requires Transactional(job)
  {
    Perform(s, Faultless(job)).store
  }

  /** An interleaved transaction whose row is, when it commits, still the one it read leaves the tables
      exactly as it would have left them running alone at that moment. */
  lemma CommitIsSerial(env: Environment, sys: Sys, tid: TxID)
    requires Inv(env, sys) && tid in sys.txs && sys.txs[tid].phase.Written?
    requires Transactional(sys.txs[tid].job)
    requires Find(sys.store.rows, JobKey(sys.txs[tid].job)) == sys.txs[tid].phase.read
    ensures Enabled(sys, CommitTx(tid))
    ensures Step(sys, CommitTx(tid)).store == Serially(sys.store, sys.txs[tid].job)
  {
    var tx := sys.txs[tid];
    assert TxOK(env, sys.store, sys.issued, tx);
    if PendingRow(tx).Some? {
      WrittenIsWhatSerialWrites(env, sys, tx);
    }
    if tx.job.Hook? {
      HookCommitIsSerial(env, sys, tx);
    } else {
      CheckCommitIsSerial(env, sys, tx);
    }
  }

  /** The pending row of `tx` is the row the transaction would write running alone now. */
  ghost predicate WritesSerially(rows: Rows, tx: Tx)
    requires Transactional(tx.job)
  {
    var read := Find(rows, JobKey(tx.job));
    match PendingRow(tx)
    case None => StatementOf(tx.job, read).Nothing?
    case Some(row) =>
      && (read.None? ==> row.id !in rows && row.id in NewIDs(tx.job))
      && (tx.job.Hook? ==> HookEffect(read, tx.job.change)
                           == if read.None? then Effect.Insert(row) else Effect.Overwrite(row))
      && (tx.job.Check? ==> row == StoredPurchase(read, tx.job.purchase))
  }

  lemma HookCommitIsSerial(env: Environment, sys: Sys, tx: Tx)
    requires Inv(env, sys) && TxOK(env, sys.store, sys.issued, tx) && tx.phase.Written?
    requires tx.job.Hook? && WritesSerially(sys.store.rows, tx)
    ensures Committed(sys.store, tx) == Serially(sys.store, tx.job)
  {
    HookOutcome(env, sys.store, tx.job.event, tx.job.change, NoFault);
  }

  lemma CheckCommitIsSerial(env: Environment, sys: Sys, tx: Tx)
    requires Inv(env, sys) && TxOK(env, sys.store, sys.issued, tx) && tx.phase.Written?
    requires tx.job.Check? && WritesSerially(sys.store.rows, tx)
    ensures Committed(sys.store, tx) == Serially(sys.store, tx.job)
  {
    CheckOutcome(env, sys.store, tx.job.purchase, NoFault);
  }

  lemma WrittenIsWhatSerialWrites(env: Environment, sys: Sys, tx: Tx)
    requires Inv(env, sys) && TxOK(env, sys.store, sys.issued, tx) && PendingRow(tx).Some?
    requires Find(sys.store.rows, JobKey(tx.job)) == tx.phase.read
    ensures WritesSerially(sys.store.rows, tx)
  {
  }
}
