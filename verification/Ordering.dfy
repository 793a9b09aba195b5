/** Order under interleaving: when a run of interleaved transactions is a serial run, when it keeps event
    clocks, and that it may not. */
module Ordering {
  import opened Wrappers
  import opened Domain
  import opened Repository
  import opened Jobs
  import opened Invariants
  import opened Lifecycle
  import opened Interleaving
  import opened ExactlyOnce

  // When an interleaved run is a serial one.

  /** What an action does to the committed tables, as a serial job: a commit its transaction without faults,
      unless it found its event recorded; a note or a deletion itself; every other action nothing. */
  ghost function SerialJob(sys: Sys, a: Action): seq<Job>
    requires Enabled(sys, a)
  {
    match a
    case CommitTx(tid) =>
      if Transactional(sys.txs[tid].job) && sys.txs[tid].phase.Written? then [Faultless(sys.txs[tid].job)] else []
    case NoteNow(event) => [Note(event, NoFault)]
    case Delete(user) => [Forget(user, false)]
    case _ => []
  }

  ghost function SerialJobs(sys: Sys, actions: seq<Action>): seq<Job>
    requires Executable(sys, actions)
    decreases |actions|
  {
    if actions == [] then [] else SerialJob(sys, actions[0]) + SerialJobs(Step(sys, actions[0]), actions[1..])
  }

  /** A transaction that commits finds its row still as it read it. */
  predicate ReadHolds(found: Option<Row>, tx: Tx) {
    tx.phase.Written? ==> found == tx.phase.read
  }

  ghost predicate ReadsHold(sys: Sys, actions: seq<Action>)
    requires Executable(sys, actions)
    decreases |actions|
  {
    actions == []
    || (&& (actions[0].CommitTx? && Transactional(sys.txs[actions[0].tid].job) ==>
              var tx := sys.txs[actions[0].tid];
              ReadHolds(Find(sys.store.rows, JobKey(tx.job)), tx))
        && ReadsHold(Step(sys, actions[0]), actions[1..]))
  }

  lemma StepIsSerial(env: Environment, sys: Sys, a: Action)
    requires Inv(env, sys) && Enabled(sys, a)
    requires a.CommitTx? && Transactional(sys.txs[a.tid].job) ==>
               ReadHolds(Find(sys.store.rows, JobKey(sys.txs[a.tid].job)), sys.txs[a.tid])
    ensures Step(sys, a).store == Run(sys.store, SerialJob(sys, a))
    ensures SoundRun(env, SerialJob(sys, a)) && |SerialJob(sys, a)| <= 1
  {
    if a.CommitTx? {
      assert TxOK(env, sys.store, sys.issued, sys.txs[a.tid]);
      if sys.txs[a.tid].phase.Written? {
        CommitIsSerial(env, sys, a.tid);
      }
    }
  }

  lemma RunAppend(s: Store, jobs: seq<Job>, more: seq<Job>)
    requires |jobs| <= 1
    ensures Run(s, jobs + more) == Run(Run(s, jobs), more)
  {
    if jobs == [] {
      assert jobs + more == more;
    } else {
      assert (jobs + more)[1..] == more && jobs[1..] == [];
    }
  }

  /** Serialisability: if every transaction that commits finds its row still as it read it, the interleaved
      run leaves the tables as its commits, notes and deletions do when run one after the other, in the
      order they took effect, and those are sound jobs: so every theorem about sound serial runs is one about
      such runs, too. */
  lemma {:induction false} Serialisable(env: Environment, sys: Sys, actions: seq<Action>)
    requires Inv(env, sys) && Executable(sys, actions) && SoundActions(env, actions) && ReadsHold(sys, actions)
    ensures Exec(sys, actions).store == Run(sys.store, SerialJobs(sys, actions))
    ensures SoundRun(env, SerialJobs(sys, actions))
    decreases |actions|
  {
    if actions == [] {
    } else {
      var a := actions[0];
      assert SoundAction(env, a);
      StepKeepsInv(env, sys, a);
      StepIsSerial(env, sys, a);
      Serialisable(env, Step(sys, a), actions[1..]);
      RunAppend(sys.store, SerialJob(sys, a), SerialJobs(Step(sys, a), actions[1..]));
    }
  }

  /** What that is good for: the life of a row over an interleaved run that nobody is overtaken in. As long as
      no commit verifies its purchase or deletes its owner, its statuses are a path, a revoked row is frozen,
      and its expiry turns back exactly where an applied change carries none. */
  lemma InterleavedLife(env: Environment, sys: Sys, actions: seq<Action>, key: SubKey)
    requires Inv(env, sys) && Executable(sys, actions) && SoundActions(env, actions) && ReadsHold(sys, actions)
    requires ProperKey(key) && Spared(sys.store, SerialJobs(sys, actions), key)
    ensures var before, after := Find(sys.store.rows, key), Find(Exec(sys, actions).store.rows, key);
            var log := StatusLog(sys.store, SerialJobs(sys, actions), key);
            && IsPath(StatusOf(before), log) && LastOf(StatusOf(before), log) == StatusOf(after)
            && (StatusOf(before) == Revoked ==> after == before)
    ensures ExpiryNeverTurnsBack(sys.store, SerialJobs(sys, actions), key)
            <==> AppliedCarryExpiry(sys.store, SerialJobs(sys, actions), key)
  {
    Serialisable(env, sys, actions);
    var jobs := SerialJobs(sys, actions);
    StatusesFormAPath(env, sys.store, jobs, key);
    ExpiryOrderExactly(env, sys.store, jobs, key);
    if StatusOf(Find(sys.store.rows, key)) == Revoked {
      RevokedIsFrozen(env, sys.store, jobs, key);
    }
  }

  // When an interleaved run keeps event clocks.

  /** The event clock a transaction brings to its row: its own event's time, if it has one, else the clock it
      read at its lookup. */
  function Brought(tx: Tx): Option<Time>
    requires tx.phase.Written?
  {
    OrElse(if tx.job.Hook? then tx.job.change.eventAt else None,
           if tx.phase.read.Some? then tx.phase.read.value.lastEventAt else None)
  }

  /** The transaction has written over a row whose clock, by now, is ahead of the one it brings. */
  predicate IsStale(rows: Rows, tx: Tx) {
    PendingRow(tx).Some? && PendingRow(tx).value.id in rows
    && !NotBefore(rows[PendingRow(tx).value.id].lastEventAt, Brought(tx))
  }

  predicate ClocksKept(before: Rows, after: Rows) {
    forall id :: id in before && id in after ==> NotBefore(before[id].lastEventAt, after[id].lastEventAt)
  }

  /** A commit turns an event clock back exactly if its transaction is stale. */
  lemma CommitKeepsClocksExactly(env: Environment, sys: Sys, tid: TxID)
    requires Inv(env, sys) && tid in sys.txs
    ensures ClocksKept(sys.store.rows, Committed(sys.store, sys.txs[tid]).rows) <==> !IsStale(sys.store.rows, sys.txs[tid])
  {
    var tx := sys.txs[tid];
    assert TxOK(env, sys.store, sys.issued, tx);
    if PendingRow(tx).Some? {
      var row := PendingRow(tx).value;
      assert row.lastEventAt == Brought(tx);
      assert Committed(sys.store, tx).rows == sys.store.rows[row.id := row];
    }
  }

  ghost predicate ClocksNeverTurnBack(sys: Sys, actions: seq<Action>)
    requires Executable(sys, actions)
    decreases |actions|
  {
    actions == []
    || (ClocksKept(sys.store.rows, Step(sys, actions[0]).store.rows)
        && ClocksNeverTurnBack(Step(sys, actions[0]), actions[1..]))
  }

  ghost predicate NoStaleCommit(sys: Sys, actions: seq<Action>)
    requires Executable(sys, actions)
    decreases |actions|
  {
    actions == []
    || ((actions[0].CommitTx? ==> !IsStale(sys.store.rows, sys.txs[actions[0].tid]))
        && NoStaleCommit(Step(sys, actions[0]), actions[1..]))
  }

  lemma StepKeepsClocksExactly(env: Environment, sys: Sys, a: Action)
    requires Inv(env, sys) && Enabled(sys, a)
    ensures ClocksKept(sys.store.rows, Step(sys, a).store.rows)
            <==> (a.CommitTx? ==> !IsStale(sys.store.rows, sys.txs[a.tid]))
  {
    if a.CommitTx? {
      CommitKeepsClocksExactly(env, sys, a.tid);
    }
  }

  /** An interleaved run turns no event clock back, at any step, if and only if no transaction commits over a
      row whose clock has moved past the one it brings. */
  lemma {:induction false} ClocksKeptExactly(env: Environment, sys: Sys, actions: seq<Action>)
    requires Inv(env, sys) && Executable(sys, actions) && SoundActions(env, actions)
    ensures ClocksNeverTurnBack(sys, actions) <==> NoStaleCommit(sys, actions)
    decreases |actions|
  {
    if actions == [] {
    } else {
      var a := actions[0];
      assert SoundAction(env, a);
      StepKeepsInv(env, sys, a);
      StepKeepsClocksExactly(env, sys, a);
      ClocksKeptExactly(env, Step(sys, a), actions[1..]);
    }
  }

  /** A stale transaction that read a row was overtaken: the clock of the row has moved on since. */
  lemma StaleReadIsOvertaken(env: Environment, sys: Sys, tid: TxID)
    requires Inv(env, sys) && tid in sys.txs && IsStale(sys.store.rows, sys.txs[tid])
    ensures var tx := sys.txs[tid];
            tx.phase.read.Some? ==>
              !NotBefore(sys.store.rows[PendingRow(tx).value.id].lastEventAt, tx.phase.read.value.lastEventAt)
  {
    assert TxOK(env, sys.store, sys.issued, sys.txs[tid]);
  }

  // That it may not.

  lemma {:induction false} ExecAppend(sys: Sys, actions: seq<Action>, more: seq<Action>)
    requires Executable(sys, actions) && Executable(Exec(sys, actions), more)
    ensures Executable(sys, actions + more) && Exec(sys, actions + more) == Exec(Exec(sys, actions), more)
    decreases |actions|
  {
    if actions == [] {
      assert actions + more == more;
    } else {
      ExecAppend(Step(sys, actions[0]), actions[1..], more);
      assert (actions + more)[1..] == actions[1..] + more;
    }
  }

  lemma ExecOfTwo(sys: Sys, a: Action, b: Action)
    requires Enabled(sys, a) && Enabled(Step(sys, a), b)
    ensures Executable(sys, [a, b]) && Exec(sys, [a, b]) == Step(Step(sys, a), b)
  {
    assert [a, b][1..] == [b] && [b][1..] == [];
    assert Executable(Step(Step(sys, a), b), []);
    assert Executable(Step(sys, a), [b]) && Exec(Step(sys, a), [b]) == Step(Step(sys, a), b);
  }

  /** The steps of a transaction from its start through its lookup. */
  function LookupSteps(tid: TxID, job: Job): seq<Action> {
    if job.Hook? then [Start(tid, job), Record(tid), Lookup(tid)] else [Start(tid, job), Lookup(tid)]
  }

  /** A new transaction, of an event nobody has recorded, gets as far as its lookup. */
  lemma LooksUp(sys: Sys, tid: TxID, job: Job)
    requires Transactional(job) && tid !in sys.txs && NewIDs(job) !! sys.issued.Keys
    requires job.Hook? ==> job.event.key !in sys.store.events
    requires job.Hook? ==> forall other :: other in sys.txs ==> PendingEvent(sys.txs[other]) != Some(job.event.key)
    ensures Executable(sys, LookupSteps(tid, job))
    ensures Exec(sys, LookupSteps(tid, job))
            == sys.(txs := sys.txs[tid := Tx(job, LookedUp(Find(sys.store.rows, JobKey(job))))],
                    issued := sys.issued + IssuedTo(job))
  {
    var started := Step(sys, Start(tid, job));
    if job.Hook? {
      var recorded := Step(started, Record(tid));
      assert recorded == started.(txs := sys.txs[tid := Tx(job, Recorded)]);
      ExecOfThree(sys, Start(tid, job), Record(tid), Lookup(tid));
    } else {
      ExecOfTwo(sys, Start(tid, job), Lookup(tid));
    }
  }

  function Finish(tid: TxID): seq<Action> {
    [Write(tid), CommitTx(tid)]
  }

  /** The actions lead from one state to another. */
  ghost predicate Leads(sys: Sys, actions: seq<Action>, next: Sys) {
    Executable(sys, actions) && Exec(sys, actions) == next
  }

  /** A transaction has done its lookup, and no other one has an uncommitted row. */
  predicate LookedUpAlone(sys: Sys, tid: TxID, read: Option<Row>) {
    && tid in sys.txs && Transactional(sys.txs[tid].job) && sys.txs[tid].phase == LookedUp(read)
    && Unblocked(sys, tid, sys.txs[tid])
    && forall other :: other in sys.txs && other != tid ==> PendingRow(sys.txs[other]).None?
  }

  lemma WritesThrough(sys: Sys, tid: TxID, read: Option<Row>, row: Row)
    requires LookedUpAlone(sys, tid, read)
    requires Stored(sys.store.rows, StatementOf(sys.txs[tid].job, read)) == Ok(Some(row))
    ensures var tx := Tx(sys.txs[tid].job, Written(read, Some(row)));
            var actions := [Write(tid), CommitTx(tid)];
            && Executable(sys, actions)
            && Exec(sys, actions)
               == sys.(store := Committed(sys.store, tx), txs := sys.txs - {tid}, log := sys.log + [CommitRecord(tx)])
  {
    var tx := Tx(sys.txs[tid].job, Written(read, Some(row)));
    assert Advanced(sys, Write(tid)) == tx;
    forall other | other in sys.txs && other != tid
      ensures Apart(tx, sys.txs[other])
    {
      assert Apart(sys.txs[tid], sys.txs[other]);
    }
    var written := Step(sys, Write(tid));
    assert written == sys.(txs := sys.txs[tid := tx]);
    assert written.txs - {tid} == sys.txs - {tid};
    ExecOfTwo(sys, Write(tid), CommitTx(tid));
  }

  /** What a job makes of a row it read. */
  function Overwritten(job: Job, row: Row): Row
    requires Transactional(job)
  {
    if job.Hook? then Changed(row, job.change) else StoredPurchase(Some(row), job.purchase)
  }

  /** The job, having read `row`, has something to write over it. */
  predicate Overwrites(env: Environment, job: Job, row: Row) {
    && Transactional(job) && Sound(env, job) && Matches(row, JobKey(job))
    && !StatementOf(job, Some(row)).Nothing?
  }

  /** The statement of a job that read `row` gets through over whatever has become of the row since, and
      stores what the job made of the row as it read it. */
  lemma StoresWhatItRead(env: Environment, rows: Rows, job: Job, row: Row)
    requires Valid(rows) && WellFormed(env, row) && Overwrites(env, job, row)
    requires row.id in rows && SameIdentity(rows[row.id], row)
    ensures Stored(rows, StatementOf(job, Some(row))) == Ok(Some(Overwritten(job, row)))
    ensures SameIdentity(row, Overwritten(job, row)) && Valid(rows[row.id := Overwritten(job, row)])
  {
    var st, result := StatementOf(job, Some(row)), Overwritten(job, row);
    if job.Hook? {
      HookEffectIsWellFormed(env, Some(row), job.change);
    } else {
      VerifiedIsWellFormed(env, Some(row), job.purchase);
    }
    UpdateGetsThrough(rows, st.row);
    assert Merged(rows[row.id], st.row) == result;
    UpdateGetsThrough(rows, result);
    PutKeepsConstraints(rows, result);
  }

  lemma StillLookedUpAlone(sys: Sys, done: TxID, tid: TxID, read: Option<Row>, after: Sys)
    requires LookedUpAlone(sys, tid, read) && done != tid && after.txs == sys.txs - {done}
    ensures LookedUpAlone(after, tid, read) && after.txs[tid] == sys.txs[tid]
  {
    forall other | other in after.txs && other != tid
      ensures Apart(after.txs[tid], after.txs[other])
    {
      assert Apart(sys.txs[tid], sys.txs[other]);
    }
  }

  /** What a transaction that looked up `row` alone leaves, over whatever has become of the row since. */
  lemma OverwritesAlone(env: Environment, sys: Sys, tid: TxID, row: Row) returns (after: Sys)
    requires Valid(sys.store.rows) && WellFormed(env, row)
    requires row.id in sys.store.rows && SameIdentity(sys.store.rows[row.id], row)
    requires LookedUpAlone(sys, tid, Some(row)) && Overwrites(env, sys.txs[tid].job, row)
    ensures Leads(sys, Finish(tid), after) && after.txs == sys.txs - {tid}
    ensures after.store.rows == sys.store.rows[row.id := Overwritten(sys.txs[tid].job, row)]
    ensures Valid(after.store.rows) && SameIdentity(after.store.rows[row.id], row)
  {
    var job := sys.txs[tid].job;
    StoresWhatItRead(env, sys.store.rows, job, row);
    WritesThrough(sys, tid, Some(row), Overwritten(job, row));
    after := Exec(sys, Finish(tid));
  }

  /** The last writer wins: of two transactions that both looked the row up before either wrote, the second
      to write leaves what it would have left had the first never been. */
  lemma LastWriterWins(env: Environment, sys: Sys, first: TxID, second: TxID, row: Row)
    returns (middle: Sys, last: Sys)
    requires first != second && Valid(sys.store.rows) && WellFormed(env, row)
    requires row.id in sys.store.rows && SameIdentity(sys.store.rows[row.id], row)
    requires LookedUpAlone(sys, first, Some(row)) && LookedUpAlone(sys, second, Some(row))
    requires Overwrites(env, sys.txs[first].job, row) && Overwrites(env, sys.txs[second].job, row)
    ensures Leads(sys, Finish(first), middle) && Leads(middle, Finish(second), last)
    ensures middle.store.rows == sys.store.rows[row.id := Overwritten(sys.txs[first].job, row)]
    ensures last.store.rows == sys.store.rows[row.id := Overwritten(sys.txs[second].job, row)]
  {
    middle := OverwritesAlone(env, sys, first, row);
    StillLookedUpAlone(sys, first, second, Some(row), middle);
    last := OverwritesAlone(env, middle, second, row);
  }

  /** Two jobs about one new purchase, for which `create` makes `row`: their events and row ids are apart, and
      each, having read `row`, has something to write over it. */
  predicate Contend(env: Environment, create: Job, first: Job, second: Job, row: Row) {
    && create.Hook? && Sound(env, create) && HookEffect(None, create.change) == Effect.Insert(row)
    && Overwrites(env, first, row) && Overwrites(env, second, row)
    && JobKey(create) == JobKey(first) == JobKey(second)
    && (first.Hook? ==> first.event.key != create.event.key)
    && (second.Hook? ==> second.event.key != create.event.key)
    && (first.Hook? && second.Hook? ==> first.event.key != second.event.key)
    && NewIDs(create) !! NewIDs(first) !! NewIDs(second)
  }

  /** A transaction run alone from its start through its commit. */
  function Alone(tid: TxID, job: Job): seq<Action> {
    LookupSteps(tid, job) + Finish(tid)
  }

  function BothLookups(one: TxID, first: Job, two: TxID, second: Job): seq<Action> {
    LookupSteps(one, first) + LookupSteps(two, second)
  }

  lemma LeadsOn(sys: Sys, actions: seq<Action>, next: Sys, more: seq<Action>, last: Sys)
    requires Leads(sys, actions, next) && Leads(next, more, last)
    ensures Leads(sys, actions + more, last)
  {
    ExecAppend(sys, actions, more);
  }

  lemma Creates(env: Environment, tid: TxID, create: Job, row: Row) returns (sys: Sys)
    requires create.Hook? && Sound(env, create) && HookEffect(None, create.change) == Effect.Insert(row)
    ensures Leads(INITIAL, Alone(tid, create), sys)
    ensures sys.store == Store(map[row.id := row], map[create.event.key := create.event])
    ensures sys.txs == map[] && sys.issued.Keys == NewIDs(create)
    ensures WellFormed(env, row) && Matches(row, JobKey(create))
  {
    HookEffectIsWellFormed(env, None, create.change);
    WellFormedHasOneKey(env, row, create.change.key);
    LooksUp(INITIAL, tid, create);
    var looked := Exec(INITIAL, LookupSteps(tid, create));
    assert !Violates(map[], row);
    WritesThrough(looked, tid, None, row);
    sys := Exec(looked, Finish(tid));
    LeadsOn(INITIAL, LookupSteps(tid, create), looked, Finish(tid), sys);
  }

  lemma BothLookUp(sys: Sys, one: TxID, first: Job, two: TxID, second: Job) returns (looked: Sys)
    requires one != two && sys.txs == map[]
    requires Transactional(first) && Transactional(second) && JobKey(first) == JobKey(second)
    requires first.Hook? ==> first.event.key !in sys.store.events
    requires second.Hook? ==> second.event.key !in sys.store.events
    requires first.Hook? && second.Hook? ==> first.event.key != second.event.key
    requires sys.issued.Keys !! NewIDs(first) !! NewIDs(second)
    ensures Leads(sys, BothLookups(one, first, two, second), looked)
    ensures var found := Find(sys.store.rows, JobKey(first));
            && looked.store == sys.store
            && looked.txs == map[one := Tx(first, LookedUp(found)), two := Tx(second, LookedUp(found))]
  {
    LooksUp(sys, one, first);
    var middle := Exec(sys, LookupSteps(one, first));
    assert middle.issued.Keys == sys.issued.Keys + NewIDs(first);
    LooksUp(middle, two, second);
    looked := Exec(middle, LookupSteps(two, second));
    LeadsOn(sys, LookupSteps(one, first), middle, LookupSteps(two, second), looked);
  }

  lemma BothAreAlone(sys: Sys, one: TxID, first: Job, two: TxID, second: Job, found: Option<Row>)
    requires one != two && Transactional(first) && Transactional(second)
    requires first.Hook? && second.Hook? ==> first.event.key != second.event.key
    requires sys.txs == map[one := Tx(first, LookedUp(found)), two := Tx(second, LookedUp(found))]
    ensures LookedUpAlone(sys, one, found) && LookedUpAlone(sys, two, found)
  {
  }

  /** A history of three transactions: one alone, then two that both look up before either writes. */
  function Overlap(zero: TxID, create: Job, one: TxID, first: Job, two: TxID, second: Job): seq<Action> {
    Alone(zero, create) + BothLookups(one, first, two, second) + Finish(one)
  }

  lemma OverlapStarts(zero: TxID, create: Job, one: TxID, first: Job, two: TxID, second: Job)
    ensures forall a :: a in Overlap(zero, create, one, first, two, second) + Finish(two) && a.Start? ==>
                          a.job in {create, first, second}
  {
  }

  lemma LeadsAllTheWay(s0: Sys, a: seq<Action>, s1: Sys, b: seq<Action>, s2: Sys, c: seq<Action>, s3: Sys,
      d: seq<Action>, s4: Sys)
    requires Leads(s0, a, s1) && Leads(s1, b, s2) && Leads(s2, c, s3) && Leads(s3, d, s4)
    ensures Leads(s0, a + b + c, s3) && Leads(s0, a + b + c + d, s4)
  {
    LeadsOn(s0, a, s1, b, s2);
    LeadsOn(s0, a + b, s2, c, s3);
    LeadsOn(s0, a + b + c, s3, d, s4);
  }

  lemma OneRowPut(row: Row, other: Row)
    ensures map[row.id := row][row.id := other] == map[row.id := other]
  {
  }

  /** From empty tables: one delivery makes a purchase known, two contending jobs look its row up, and the one
      that commits last leaves the row as if the other had never been. */
  lemma LastWriterWinsFromEmpty(env: Environment, create: Job, first: Job, second: Job, row: Row, zero: TxID, one: TxID,
      two: TxID) returns (middle: Sys, last: Sys)
    requires Contend(env, create, first, second, row) && one != two
    ensures var opening := Overlap(zero, create, one, first, two, second);
            && Leads(INITIAL, opening, middle) && Leads(middle, Finish(two), last)
            && Leads(INITIAL, opening + Finish(two), last)
    ensures middle.store.rows == map[row.id := Overwritten(first, row)]
    ensures last.store.rows == map[row.id := Overwritten(second, row)]
  {
    var created := Creates(env, zero, create, row);
    var looked := BothLookUp(created, one, first, two, second);
    FindIsUnique(created.store.rows, row.id, JobKey(first));
    BothAreAlone(looked, one, first, two, second, Some(row));
    middle, last := LastWriterWins(env, looked, one, two, row);
    OneRowPut(row, Overwritten(first, row));
    OneRowPut(row, Overwritten(second, row));
    LeadsAllTheWay(INITIAL, Alone(zero, create), created, BothLookups(one, first, two, second), looked, Finish(one),
                   middle, Finish(two), last);
  }
}
