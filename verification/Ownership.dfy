/** Verifications, what a user reads back, who owns a row, and what a deletion takes away. */
module Ownership {
  import opened Wrappers
  import opened Domain
  import opened Repository
  import opened Jobs
  import opened Invariants
  import opened Service

  /** A successful verification stores what it hands back, in every column except the owner: an
      existing row keeps its owner, whoever verifies. */
  lemma VerificationIsFaithful(env: Environment, s: Store, p: Purchase, fault: Fault)
    requires Good(env, s.rows) && SoundPurchase(env, p)
    requires Perform(s, Check(p, fault)).reply.Ok?
    ensures var done := Perform(s, Check(p, fault));
            var back := done.reply.value;
            && back.Some? && back.value == Verified(Find(s.rows, p.key), p) && back.value.userID == p.userID
            && var stored := Find(done.store.rows, p.key);
            && stored.Some? && stored.value.id == back.value.id
            && stored.value == back.value.(userID := stored.value.userID)
            && stored.value.userID == (if Find(s.rows, p.key).Some? then Find(s.rows, p.key).value.userID else p.userID)
            && (forall id :: id in s.rows && id != back.value.id ==>
                  id in done.store.rows && done.store.rows[id] == s.rows[id])
            && done.store.rows.Keys == s.rows.Keys + {back.value.id}
            && done.store.events == s.events
  {
    CheckOutcome(env, s, p, fault);
    FindAnswers(s.rows, p.key);
    VerifiedIsWellFormed(env, Find(s.rows, p.key), p);
    var row := StoredPurchase(Find(s.rows, p.key), p);
    CheckGetsThrough(env, s.rows, p);
    WellFormedHasOneKey(env, row, p.key);
    FindIsUnique(s.rows[row.id := row], row.id, p.key);
  }

  /** The same purchase at a later time, mapped to the same status, with another row id at hand. */
  predicate SameAnswers(p: Purchase, q: Purchase) {
    q == p.(now := q.now, freshID := q.freshID)
  }

  /** Repeating a successful verification with the same store answers adds no row and changes one
      column of one row: its update time. The object handed back differs in nothing else either. */
  lemma RepeatingAVerification(env: Environment, s: Store, p: Purchase, q: Purchase)
    requires Good(env, s.rows) && SoundPurchase(env, p) && SameAnswers(p, q)
    requires Perform(s, Check(p, NoFault)).reply.Ok?
    ensures var first := Perform(s, Check(p, NoFault));
            var again := Perform(first.store, Check(q, NoFault));
            var row := Find(first.store.rows, p.key);
            && row.Some?
            && again.store == first.store.(rows := first.store.rows[row.value.id := row.value.(updatedAt := q.now)])
            && again.reply == Ok(Some(first.reply.value.value.(updatedAt := q.now)))
            && again.store.rows.Keys == first.store.rows.Keys
  {
    VerificationIsFaithful(env, s, p, NoFault);
    PerformKeepsGood(env, s, Check(p, NoFault));
    var first := Perform(s, Check(p, NoFault));
    var row := Find(first.store.rows, p.key).value;
    CheckOutcome(env, first.store, q, NoFault);
    VerifiedAgain(first.reply.value.value, row, p, q, Find(s.rows, p.key));
  }

  lemma VerifiedAgain(back: Row, row: Row, p: Purchase, q: Purchase, found: Option<Row>)
    requires SameAnswers(p, q) && back == Verified(found, p) && row == back.(userID := row.userID)
    ensures Verified(Some(row), q) == back.(updatedAt := q.now)
    ensures StoredPurchase(Some(row), q) == row.(updatedAt := q.now)
  {
  }

  /** Every row was last updated before `t`. */
  ghost predicate OlderThan(s: Store, t: Time) {
    forall id :: id in s.rows ==> s.rows[id].updatedAt < t
  }

  function ClockOf(job: Job): Option<Time> {
    match job
    case Hook(_, ch, _) => Some(ch.now)
    case Check(p, _) => Some(p.now)
    case _ => None
  }

  /** The clock readings of a run increase strictly, starting at `from` or later, and stay below `end`. */
  predicate Ticking(from: Time, jobs: seq<Job>, end: Time)
    decreases |jobs|
  {
    from <= end
    && (jobs == []
        || match ClockOf(jobs[0])
           case None => Ticking(from, jobs[1..], end)
           case Some(t) => from <= t && Ticking(t + 1, jobs[1..], end))
  }

  lemma JobStampsRows(env: Environment, s: Store, job: Job, from: Time)
    requires Good(env, s.rows) && Sound(env, job) && OlderThan(s, from)
    requires ClockOf(job).Some? ==> from <= ClockOf(job).value
    ensures OlderThan(Perform(s, job).store, if ClockOf(job).Some? then ClockOf(job).value + 1 else from)
  {
    match job {
      case Hook(event, ch, fault) =>
        HookOutcome(env, s, event, ch, fault);
        EffectIsStamped(Find(s.rows, ch.key), ch);
      case Check(p, fault) => CheckOutcome(env, s, p, fault);
      case _ =>
    }
  }

  lemma EffectIsStamped(found: Option<Row>, ch: Change)
    ensures var eff := HookEffect(found, ch);
            eff.Keep? || eff.row.updatedAt == ch.now
  {
  }

  /** With a strictly increasing clock every row is older than the next reading. */
  lemma {:induction false} RowsAreOlder(env: Environment, s: Store, jobs: seq<Job>, from: Time, end: Time)
    requires Good(env, s.rows) && SoundRun(env, jobs)
    requires OlderThan(s, from) && Ticking(from, jobs, end)
    ensures OlderThan(Run(s, jobs), end)
    decreases |jobs|
  {
    if jobs == [] {
    } else {
      var job := jobs[0];
      assert Sound(env, job);
      PerformKeepsGood(env, s, job);
      var next := if ClockOf(job).Some? then ClockOf(job).value + 1 else from;
      JobStampsRows(env, s, job, from);
      RowsAreOlder(env, Perform(s, job).store, jobs[1..], next, end);
    }
  }

  /** Read after write: when every row is older than a verification's clock, the user who verified reads
      the verified purchase back as the most recent one exactly when the verification created the row or
      the row was the user's already; otherwise the user's rows are just what they were. */
  lemma ReadAfterVerify(env: Environment, s: Store, p: Purchase, fault: Fault)
    requires Good(env, s.rows) && SoundPurchase(env, p) && OlderThan(s, p.now)
    requires Perform(s, Check(p, fault)).reply.Ok?
    ensures var done := Perform(s, Check(p, fault));
            var mine := Find(s.rows, p.key).None? || Find(s.rows, p.key).value.userID == p.userID;
            && (mine ==> HasRows(done.store.rows, p.userID)
                         && forall row :: IsLatest(done.store.rows, p.userID, row) ==>
                                            Some(row) == done.reply.value && Matches(row, p.key))
            && (!mine ==> forall id :: (id in s.rows && s.rows[id].userID == p.userID)
                                       <==> (id in done.store.rows && done.store.rows[id].userID == p.userID))
            && (!mine ==> forall id :: id in s.rows && s.rows[id].userID == p.userID ==>
                                         done.store.rows[id] == s.rows[id] && !Matches(s.rows[id], p.key))
  {
    CheckOutcome(env, s, p, fault);
    FindAnswers(s.rows, p.key);
    VerifiedIsWellFormed(env, Find(s.rows, p.key), p);
    var found := Find(s.rows, p.key);
    var row := StoredPurchase(found, p);
    var rows := Perform(s, Check(p, fault)).store.rows;
    assert rows == s.rows[row.id := row];
    if found.None? || found.value.userID == p.userID {
      assert rows[row.id].userID == p.userID;
      WellFormedHasOneKey(env, row, p.key);
      forall latest | IsLatest(rows, p.userID, latest)
        ensures latest == row
      {
        assert rows[row.id].updatedAt <= latest.updatedAt;
      }
    } else {
      forall id | id in s.rows && s.rows[id].userID == p.userID
        ensures !Matches(s.rows[id], p.key)
      {
        if Matches(s.rows[id], p.key) {
          FindIsUnique(s.rows, id, p.key);
        }
      }
    }
  }

  /** Access only lapses with time: read back later, the entitlement of the same row can differ from
      the verification's answer only by having gone from pro to free. */
  lemma EntitlementOnlyLapses(allowlist: set<UUID>, user: UUID, row: Row, verifiedAt: Time, readAt: Time)
    requires verifiedAt <= readAt
    ensures EntitlementFor(allowlist, user, Some(row), verifiedAt) == EntitlementFor(allowlist, user, Some(row), readAt)
            || (EntitlementFor(allowlist, user, Some(row), verifiedAt) == Pro
                && EntitlementFor(allowlist, user, Some(row), readAt) == Free
                && row.expiresAt.Some? && verifiedAt < row.expiresAt.value <= readAt)
  {
  }

  /** A deletion takes away exactly the user's rows and leaves every event. */
  lemma DeletionIsExact(s: Store, user: UUID)
    ensures var done := Perform(s, Forget(user, false));
            && done.reply.Ok? && done.store.events == s.events
            && !HasRows(done.store.rows, user)
            && forall id :: (id in done.store.rows <==> id in s.rows && s.rows[id].userID != user)
                            && (id in done.store.rows ==> done.store.rows[id] == s.rows[id])
  {
  }

  /** After a webhook every row is an old one, with its identity, or a new one that an App Store
      delivery naming its owner created; and no row is gone. */
  lemma WebhookRows(env: Environment, s: Store, job: Job)
    requires Good(env, s.rows) && Sound(env, job) && IsWebhook(job)
    ensures var after := Perform(s, job).store.rows;
            && s.rows.Keys <= after.Keys
            && forall id :: id in after ==>
                 if id in s.rows then SameIdentity(s.rows[id], after[id])
                 else job.Hook? && job.change.key.ByTransaction? && job.change.user == Some(after[id].userID)
  {
    if job.Hook? {
      HookOutcome(env, s, job.event, job.change, job.fault);
      FindAnswers(s.rows, job.change.key);
      HookEffectIsWellFormed(env, Find(s.rows, job.change.key), job.change);
    }
  }

  /** A delivery that names a user for a purchase not known yet, and gets through. */
  ghost predicate MakesKnown(s: Store, job: Job) {
    && job.Hook? && job.change.user.Some? && Find(s.rows, job.change.key).None?
    && job.event.key !in s.events && job.fault == NoFault
  }

  /** Such a delivery adds one row, of the user it names; every other webhook adds none. */
  lemma WebhookAddsRow(env: Environment, s: Store, job: Job)
    requires Good(env, s.rows) && Sound(env, job) && IsWebhook(job) && NewIDs(job) !! s.rows.Keys
    ensures var after := Perform(s, job).store.rows;
            if MakesKnown(s, job) then
              after.Keys == s.rows.Keys + {job.change.freshID}
              && after[job.change.freshID].userID == job.change.user.value
            else after.Keys == s.rows.Keys
  {
    if job.Hook? {
      HookOutcome(env, s, job.event, job.change, job.fault);
      FindAnswers(s.rows, job.change.key);
      HookEffectIsWellFormed(env, Find(s.rows, job.change.key), job.change);
    }
  }

  /** One webhook gives a user without rows a row exactly when it names the user for a purchase not
      known yet, and gets through. */
  lemma WebhookGivesRow(env: Environment, s: Store, job: Job, user: UUID)
    requires Good(env, s.rows) && Sound(env, job) && IsWebhook(job) && !HasRows(s.rows, user)
    requires NewIDs(job) !! s.rows.Keys
    ensures HasRows(Perform(s, job).store.rows, user)
            <==> job.Hook? && job.change.user == Some(user) && Find(s.rows, job.change.key).None?
                 && job.event.key !in s.events && job.fault == NoFault
  {
    WebhookRows(env, s, job);
    WebhookAddsRow(env, s, job);
  }

  /** The job is not about the user: no delivery naming them, no verification by them. */
  predicate LeavesOut(job: Job, user: UUID) {
    && (job.Hook? ==> job.change.user != Some(user))
    && (job.Check? ==> job.purchase.userID != user)
  }

  lemma NoRowGiven(env: Environment, s: Store, job: Job, user: UUID)
    requires Good(env, s.rows) && Sound(env, job) && LeavesOut(job, user) && !HasRows(s.rows, user)
    ensures !HasRows(Perform(s, job).store.rows, user)
  {
    if job.Check? {
      CheckOutcome(env, s, job.purchase, job.fault);
    } else if job.Hook? {
      WebhookRows(env, s, job);
    }
  }

  /** Deletion stays deleted: no run in which no delivery names the user and no verification is the user's
      brings a row of the user back, whether the row ids are fresh or not. */
  lemma {:induction false} DeletedStaysDeleted(env: Environment, s: Store, jobs: seq<Job>, user: UUID)
    requires Good(env, s.rows) && SoundRun(env, jobs) && !HasRows(s.rows, user)
    requires forall i :: 0 <= i < |jobs| ==> LeavesOut(jobs[i], user)
    ensures !HasRows(Run(s, jobs).rows, user)
    decreases |jobs|
  {
    if jobs == [] {
    } else {
      assert Sound(env, jobs[0]) && LeavesOut(jobs[0], user);
      PerformKeepsGood(env, s, jobs[0]);
      NoRowGiven(env, s, jobs[0], user);
      DeletedStaysDeleted(env, Perform(s, jobs[0]).store, jobs[1..], user);
    }
  }

  /** Google Play webhooks alone never add or remove a row. */
  lemma {:induction false} GoogleWebhooksAddNoRows(env: Environment, s: Store, jobs: seq<Job>)
    requires Good(env, s.rows) && SoundRun(env, jobs) && WebhookRun(jobs)
    requires forall i :: 0 <= i < |jobs| && jobs[i].Hook? ==> jobs[i].change.key.ByToken?
    ensures Run(s, jobs).rows.Keys == s.rows.Keys
    decreases |jobs|
  {
    if jobs == [] {
    } else {
      var job := jobs[0];
      assert Sound(env, job) && IsWebhook(job);
      PerformKeepsGood(env, s, job);
      WebhookRows(env, s, job);
      GoogleWebhooksAddNoRows(env, Perform(s, job).store, jobs[1..]);
    }
  }
}
