/** What every row in the table satisfies, and that no job breaks it or meets a constraint violation. */
module Invariants {
  import opened Wrappers
  import opened Domain
  import opened Repository
  import opened Jobs

  /** The invariant of one row, for a service expecting Apple environment `env`. */
  predicate WellFormed(env: Environment, row: Row) {
    && row.status.Valid() && row.status != Inactive
    && row.autoRenew.Some? && row.environment.Some?
    && (row.status == Active ==> row.cancelledAt == None)
    && (row.status == Cancelled ==> row.autoRenew == Some(false))
    && (row.provider == Apple ==>
          && row.environment == Some(env) && row.originalTransactionID.Some? && row.purchaseToken == None
          && (row.status == Cancelled ==> row.cancelledAt.Some?))
    && (row.provider == Google ==>
          && row.purchaseToken.Some? && row.originalTransactionID == None
          && (row.autoRenew == Some(true) ==> row.status == Active || row.status == GracePeriod))
  }

  ghost predicate Good(env: Environment, rows: Rows) {
    Valid(rows) && forall id :: id in rows ==> WellFormed(env, rows[id])
  }

  /** The one key a well-formed row is looked up by. */
  function KeyOf(row: Row): SubKey {
    if row.provider == Apple then
      ByTransaction(Apple, if row.originalTransactionID.Some? then row.originalTransactionID.value else "")
    else
      ByToken(Google, if row.purchaseToken.Some? then row.purchaseToken.value else "")
  }

  predicate ProperKey(key: SubKey) {
    (key.ByTransaction? <==> key.provider == Apple) && (key.ByToken? <==> key.provider == Google)
  }

  /** The columns no update ever writes. */
  predicate SameIdentity(a: Row, b: Row) {
    a.id == b.id && a.userID == b.userID && a.provider == b.provider && a.createdAt == b.createdAt
    && a.originalTransactionID == b.originalTransactionID && a.purchaseToken == b.purchaseToken
  }

  lemma WellFormedHasOneKey(env: Environment, row: Row, key: SubKey)
    requires WellFormed(env, row) && ProperKey(key)
    ensures Matches(row, key) <==> KeyOf(row) == key
  {
  }

  /** A webhook's effect on a well-formed row, or on none, is a well-formed row of the same key and
      identity. */
  lemma HookEffectIsWellFormed(env: Environment, found: Option<Row>, ch: Change)
    requires SoundChange(env, ch)
    requires found.Some? ==> WellFormed(env, found.value) && Matches(found.value, ch.key)
    ensures ProperKey(ch.key)
    ensures match HookEffect(found, ch)
            case Keep => true
            case Insert(row) => found.None? && WellFormed(env, row) && KeyOf(row) == ch.key && row.id == ch.freshID
                                && ch.user == Some(row.userID)
            case Overwrite(row) => found.Some? && WellFormed(env, row) && SameIdentity(found.value, row)
  {
  }

  lemma VerifiedIsWellFormed(env: Environment, found: Option<Row>, p: Purchase)
    requires SoundPurchase(env, p)
    requires found.Some? ==> WellFormed(env, found.value) && Matches(found.value, p.key)
    ensures ProperKey(p.key)
    ensures var row := Verified(found, p);
            && WellFormed(env, row) && KeyOf(row) == p.key && row.userID == p.userID && row.updatedAt == p.now
            && (found.None? ==> row.id == p.freshID)
            && (found.Some? ==> SameIdentity(found.value, row.(userID := found.value.userID)))
  {
  }

  /** An update that keeps a row's identity meets no constraint. */
  lemma UpdateGetsThrough(rows: Rows, row: Row)
    requires Valid(rows) && row.id in rows && row.status.Valid()
    requires SameIdentity(rows[row.id], row.(userID := rows[row.id].userID))
    ensures Updated(rows, row) == Ok(rows[row.id := row.(userID := rows[row.id].userID)])
    ensures Upserted(rows, row) == Updated(rows, row)
  {
  }

  /** An insert of a well-formed row under a new id meets no constraint when its key finds nothing. */
  lemma InsertGetsThrough(env: Environment, rows: Rows, row: Row)
    requires Good(env, rows) && WellFormed(env, row) && row.id !in rows
    requires Find(rows, KeyOf(row)).None?
    ensures Inserted(rows, row) == Ok(rows[row.id := row])
  {
  }

  /** The rows an effect leaves behind when nothing stands in its way. */
  function After(rows: Rows, eff: Effect): Rows {
    match eff
    case Keep => rows
    case Insert(row) => rows[row.id := row]
    case Overwrite(row) => rows[row.id := row]
  }

  /** A webhook's effect, attempted without a fault, always gets through, except that an insert needs
      a row id not used yet. */
  lemma HookGetsThrough(env: Environment, rows: Rows, ch: Change)
    requires Good(env, rows) && SoundChange(env, ch)
    ensures var eff := HookEffect(Find(rows, ch.key), ch);
            && AttemptEffect(rows, eff, false)
               == (if eff.Insert? && ch.freshID in rows then Err(Constraint) else Ok(After(rows, eff)))
            && (!(eff.Insert? && ch.freshID in rows) ==> Good(env, After(rows, eff)))
  {
    var found := Find(rows, ch.key);
    FindAnswers(rows, ch.key);
    HookEffectIsWellFormed(env, found, ch);
    match HookEffect(found, ch) {
      case Keep =>
      case Insert(row) =>
        if row.id !in rows {
          InsertGetsThrough(env, rows, row);
          PutKeepsConstraints(rows, row);
        }
      case Overwrite(row) =>
        UpdateGetsThrough(rows, row);
        assert row.(userID := rows[row.id].userID) == row;
        PutKeepsConstraints(rows, row);
    }
  }

  /** The row a verification stores: what it hands back, except that an existing row keeps its owner. */
  function StoredPurchase(found: Option<Row>, p: Purchase): Row {
    if found.Some? then Verified(found, p).(userID := found.value.userID) else Verified(found, p)
  }

  lemma CheckGetsThrough(env: Environment, rows: Rows, p: Purchase)
    requires Good(env, rows) && SoundPurchase(env, p)
    ensures var found := Find(rows, p.key);
            var row := StoredPurchase(found, p);
            && AttemptPurchase(rows, found, p, false)
               == (if found.None? && p.freshID in rows then Err(Constraint) else Ok(rows[row.id := row]))
            && (found.Some? || p.freshID !in rows ==> Good(env, rows[row.id := row]))
            && WellFormed(env, row) && KeyOf(row) == p.key
  {
    var found := Find(rows, p.key);
    FindAnswers(rows, p.key);
    VerifiedIsWellFormed(env, found, p);
    var row := StoredPurchase(found, p);
    if found.Some? {
      UpdateGetsThrough(rows, Verified(found, p));
      PutKeepsConstraints(rows, row);
    } else if row.id !in rows {
      InsertGetsThrough(env, rows, row);
      PutKeepsConstraints(rows, row);
    }
  }

  /** The effect a webhook's change has on the rows of `s`. */
  ghost function EffectIn(s: Store, ch: Change): Effect {
    HookEffect(Find(s.rows, ch.key), ch)
  }

  /** Whether a webhook job is answered with an error: a failed statement it reaches, or a row id used
      twice. A duplicate reaches only begin, record and commit. */
  ghost predicate HookFails(s: Store, event: Event, ch: Change, fault: Fault) {
    || fault == BeginFails || fault == RecordFails || fault == CommitFails
    || (event.key !in s.events
        && (fault == LookupFails
            || (fault == WriteFails && !EffectIn(s, ch).Keep?)
            || (EffectIn(s, ch).Insert? && ch.freshID in s.rows)))
  }

  /** The store a webhook job that is not answered with an error leaves behind. */
  ghost function HookResult(s: Store, event: Event, ch: Change): Store {
    if event.key in s.events then s else WithEvent(s, event).(rows := After(s.rows, EffectIn(s, ch)))
  }

  /** A webhook either does everything (records its event and has its effect) or, answered with an
      error, nothing. */
  lemma HookOutcome(env: Environment, s: Store, event: Event, ch: Change, fault: Fault)
    requires Good(env, s.rows) && SoundChange(env, ch)
    ensures var done := Perform(s, Hook(event, ch, fault));
            && (HookFails(s, event, ch, fault) ==> done.store == s && done.reply.Err?)
            && (!HookFails(s, event, ch, fault) ==> done == Performed(HookResult(s, event, ch), Ok(None)))
            && (done.reply.Err? ==> done.reply == Err(Storage(Unavailable))
                                    || (done.reply == Err(Storage(Constraint)) && ch.freshID in s.rows
                                        && EffectIn(s, ch).Insert?))
    ensures Good(env, Perform(s, Hook(event, ch, fault)).store.rows)
  {
    HookGetsThrough(env, s.rows, ch);
  }

  ghost predicate CheckFails(s: Store, p: Purchase, fault: Fault) {
    || (fault != NoFault && fault != RecordFails)
    || (Find(s.rows, p.key).None? && p.freshID in s.rows)
  }

  /** A verification either stores its purchase and hands back the object or, answered with an error,
      does nothing. */
  lemma CheckOutcome(env: Environment, s: Store, p: Purchase, fault: Fault)
    requires Good(env, s.rows) && SoundPurchase(env, p)
    ensures var done := Perform(s, Check(p, fault));
            var found := Find(s.rows, p.key);
            var row := StoredPurchase(found, p);
            && (CheckFails(s, p, fault) ==> done.store == s && done.reply.Err?)
            && (!CheckFails(s, p, fault) ==>
                  done == Performed(s.(rows := s.rows[row.id := row]), Ok(Some(Verified(found, p)))))
            && (done.reply.Err? ==> done.reply == Err(Storage(Unavailable))
                                    || (done.reply == Err(Storage(Constraint)) && p.freshID in s.rows && found.None?))
            && (found.None? ==> row.id == p.freshID)
            && (found.Some? ==> row.id in s.rows && s.rows[row.id] == found.value)
    ensures Good(env, Perform(s, Check(p, fault)).store.rows)
  {
    CheckGetsThrough(env, s.rows, p);
    FindAnswers(s.rows, p.key);
  }

  /** Whatever a sound job does, succeed or fail, the table's invariant survives it. */
  lemma PerformKeepsGood(env: Environment, s: Store, job: Job)
    requires Good(env, s.rows) && Sound(env, job)
    ensures Good(env, Perform(s, job).store.rows)
  {
    match job {
      case Hook(event, ch, fault) => HookOutcome(env, s, event, ch, fault);
      case Check(p, fault) => CheckOutcome(env, s, p, fault);
      case Forget(user, _) => DeletionKeepsConstraints(s.rows, user);
      case _ =>
    }
  }

  lemma {:induction false} RunKeepsGood(env: Environment, s: Store, jobs: seq<Job>)
    requires Good(env, s.rows) && SoundRun(env, jobs)
    ensures Good(env, Run(s, jobs).rows)
    decreases |jobs|
  {
    if jobs == [] {
    } else {
      assert Sound(env, jobs[0]);
      PerformKeepsGood(env, s, jobs[0]);
      RunKeepsGood(env, Perform(s, jobs[0]).store, jobs[1..]);
    }
  }

  /** From empty tables, through any sequence of webhooks, verifications and deletions, with any
      failures, every row is well-formed and no two rows share a lookup key. */
  lemma ReachableRowsAreWellFormed(env: Environment, jobs: seq<Job>)
    requires SoundRun(env, jobs)
    ensures var rows := Run(Store(map[], map[]), jobs).rows;
            && (forall id :: id in rows ==> rows[id].id == id && WellFormed(env, rows[id]))
            && (forall a, b :: a in rows && b in rows && KeyOf(rows[a]) == KeyOf(rows[b]) ==> a == b)
            && (forall id :: id in rows ==> Find(rows, KeyOf(rows[id])) == Some(rows[id]))
  {
    var rows := Run(Store(map[], map[]), jobs).rows;
    RunKeepsGood(env, Store(map[], map[]), jobs);
    forall a | a in rows
      ensures Find(rows, KeyOf(rows[a])) == Some(rows[a])
      ensures forall b :: b in rows && KeyOf(rows[a]) == KeyOf(rows[b]) ==> a == b
    {
      WellFormedHasOneKey(env, rows[a], KeyOf(rows[a]));
      FindIsUnique(rows, a, KeyOf(rows[a]));
      forall b | b in rows && KeyOf(rows[a]) == KeyOf(rows[b])
        ensures a == b
      {
        WellFormedHasOneKey(env, rows[b], KeyOf(rows[a]));
      }
    }
  }

  /** The row ids a job may give to a new row. */
  function NewIDs(job: Job): set<UUID> {
    match job
    case Hook(_, ch, _) => if ch.user.Some? then {ch.freshID} else {}
    case Check(p, _) => {p.freshID}
    case _ => {}
  }

  /** New row ids are new: in no row and given out once. */
  predicate FreshRun(used: set<UUID>, jobs: seq<Job>)
    decreases |jobs|
  {
    jobs == [] || (NewIDs(jobs[0]) !! used && FreshRun(used + NewIDs(jobs[0]), jobs[1..]))
  }

  /** With fresh row ids, the answers of a serial run are never a constraint violation and never a
      row gone missing. */
  lemma NoConflict(env: Environment, s: Store, job: Job)
    requires Good(env, s.rows) && Sound(env, job) && NewIDs(job) !! s.rows.Keys
    requires !job.Refuse?
    ensures Perform(s, job).reply.Err? ==> Perform(s, job).reply == Err(Storage(Unavailable))
  {
    match job {
      case Hook(event, ch, fault) =>
        HookOutcome(env, s, event, ch, fault);
        FindAnswers(s.rows, ch.key);
        HookEffectIsWellFormed(env, Find(s.rows, ch.key), ch);
      case Check(p, fault) => CheckOutcome(env, s, p, fault);
      case _ =>
    }
  }

  /** A job adds no row ids but its own. */
  lemma OnlyNewIDs(env: Environment, s: Store, job: Job)
    requires Good(env, s.rows) && Sound(env, job)
    ensures Perform(s, job).store.rows.Keys <= s.rows.Keys + NewIDs(job)
  {
    match job {
      case Hook(event, ch, fault) =>
        HookOutcome(env, s, event, ch, fault);
        FindAnswers(s.rows, ch.key);
        HookEffectIsWellFormed(env, Find(s.rows, ch.key), ch);
      case Check(p, fault) => CheckOutcome(env, s, p, fault);
      case _ =>
    }
  }

  /** The replies of a run, job by job. */
  ghost function Replies(s: Store, jobs: seq<Job>): seq<Result<Option<Row>, ServiceError>>
    decreases |jobs|
  {
    if jobs == [] then []
    else [Perform(s, jobs[0]).reply] + Replies(Perform(s, jobs[0]).store, jobs[1..])
  }

  lemma {:induction false} NoConflictInRun(env: Environment, s: Store, jobs: seq<Job>, used: set<UUID>)
    requires Good(env, s.rows) && SoundRun(env, jobs)
    requires s.rows.Keys <= used && FreshRun(used, jobs)
    ensures |Replies(s, jobs)| == |jobs|
    ensures forall i :: 0 <= i < |jobs| && !jobs[i].Refuse? && Replies(s, jobs)[i].Err? ==>
                          Replies(s, jobs)[i] == Err(Storage(Unavailable))
    decreases |jobs|
  {
    if jobs == [] {
    } else {
      var job, rest := jobs[0], jobs[1..];
      var after := Perform(s, job).store;
      assert Sound(env, job);
      PerformKeepsGood(env, s, job);
      if !job.Refuse? {
        NoConflict(env, s, job);
      }
      OnlyNewIDs(env, s, job);
      NoConflictInRun(env, after, rest, used + NewIDs(job));
      forall i | 0 <= i < |jobs| && !jobs[i].Refuse? && Replies(s, jobs)[i].Err?
        ensures Replies(s, jobs)[i] == Err(Storage(Unavailable))
      {
        if i > 0 {
          assert Replies(s, jobs)[i] == Replies(after, rest)[i - 1] && jobs[i] == rest[i - 1];
        }
      }
    }
  }
}
