/** The lifecycle with verifications in it: they write past the guard, and exactly what that costs. */
module Unguarded {
  import opened Wrappers
  import opened Domain
  import opened Repository
  import opened Jobs
  import opened Invariants
  import opened Lifecycle
  import opened Ownership

  /** The row is gone, or its status is the one it was, or one it may move to. */
  predicate IsLawful(before: Option<Row>, after: Option<Row>) {
    || after.None?
    || after.value.status == StatusOf(before)
    || CanTransition(StatusOf(before), after.value.status)
  }

  /** The job is a verification of the purchase of `key` that gets through. */
  ghost predicate GetsThrough(s: Store, job: Job, key: SubKey) {
    job.Check? && job.purchase.key == key && !CheckFails(s, job.purchase, job.fault)
  }

  /** If the job verifies the purchase of `key`, gets through and finds a row, its status is the row's or one
      the row may move to. */
  ghost predicate Obeys(s: Store, job: Job, key: SubKey) {
    GetsThrough(s, job, key) && Find(s.rows, key).Some? ==>
      var status := Find(s.rows, key).value.status;
      job.purchase.status == status || CanTransition(status, job.purchase.status)
  }

  lemma VerificationSets(env: Environment, s: Store, p: Purchase, fault: Fault)
    requires Good(env, s.rows) && SoundPurchase(env, p) && !CheckFails(s, p, fault)
    ensures var after := Find(Perform(s, Check(p, fault)).store.rows, p.key);
            after.Some? && after.value.status == p.status && after.value.expiresAt == p.expiresAt
  {
    CheckOutcome(env, s, p, fault);
    VerificationIsFaithful(env, s, p, fault);
  }

  lemma CheckIsLawfulExactly(env: Environment, s: Store, p: Purchase, fault: Fault)
    requires Good(env, s.rows) && SoundPurchase(env, p)
    ensures IsLawful(Find(s.rows, p.key), Find(Perform(s, Check(p, fault)).store.rows, p.key))
            <==> Obeys(s, Check(p, fault), p.key)
  {
    if CheckFails(s, p, fault) {
      CheckOutcome(env, s, p, fault);
    } else {
      VerificationSets(env, s, p, fault);
      assert CanTransition(Inactive, p.status);
    }
  }

  lemma DeletionTakesTheRow(rows: Rows, user: UUID, key: SubKey)
    requires Valid(rows) && Find(rows, key).Some? && Find(rows, key).value.userID == user
    ensures Find(WithoutUser(rows, user), key).None?
  {
    FindAnswers(rows, key);
    DeletionKeepsConstraints(rows, user);
    FindAnswers(WithoutUser(rows, user), key);
    if Find(WithoutUser(rows, user), key).Some? {
      FindIsUnique(rows, Find(WithoutUser(rows, user), key).value.id, key);
    }
  }

  /** One job, of any kind, takes the row of a key along the transition graph exactly if it obeys it where it
      is not made to. */
  lemma StepIsLawfulExactly(env: Environment, s: Store, job: Job, key: SubKey)
    requires Good(env, s.rows) && Sound(env, job) && ProperKey(key)
    ensures IsLawful(Find(s.rows, key), Find(Perform(s, job).store.rows, key)) <==> Obeys(s, job, key)
  {
    if Spares(s, job, key) {
      StatusStep(env, s, job, key);
    } else if job.Check? {
      CheckIsLawfulExactly(env, s, job.purchase, job.fault);
    } else {
      DeletionTakesTheRow(s.rows, job.userID, key);
    }
  }

  ghost predicate StepsAreLawful(s: Store, jobs: seq<Job>, key: SubKey)
    decreases |jobs|
  {
    jobs == []
    || (IsLawful(Find(s.rows, key), Find(Perform(s, jobs[0]).store.rows, key))
        && StepsAreLawful(Perform(s, jobs[0]).store, jobs[1..], key))
  }

  ghost predicate VerificationsObey(s: Store, jobs: seq<Job>, key: SubKey)
    decreases |jobs|
  {
    jobs == [] || (Obeys(s, jobs[0], key) && VerificationsObey(Perform(s, jobs[0]).store, jobs[1..], key))
  }

  /** Over any run at all, of webhooks, verifications and deletions, every step takes the row of a key along
      the transition graph if and only if every verification of its purchase that gets through does. */
  lemma {:induction false} LifecycleIsSafeExactly(env: Environment, s: Store, jobs: seq<Job>, key: SubKey)
    requires Good(env, s.rows) && SoundRun(env, jobs) && ProperKey(key)
    ensures StepsAreLawful(s, jobs, key) <==> VerificationsObey(s, jobs, key)
    decreases |jobs|
  {
    if jobs == [] {
    } else {
      assert Sound(env, jobs[0]);
      PerformKeepsGood(env, s, jobs[0]);
      StepIsLawfulExactly(env, s, jobs[0], key);
      LifecycleIsSafeExactly(env, Perform(s, jobs[0]).store, jobs[1..], key);
    }
  }

  /** Whether a job takes a revoked row out of its terminal state: a verification that gets through and maps to
      another status does, and nothing else. */
  lemma RevokedEndsExactly(env: Environment, s: Store, job: Job, key: SubKey)
    requires Good(env, s.rows) && Sound(env, job) && ProperKey(key)
    requires StatusOf(Find(s.rows, key)) == Revoked
    ensures var after := Find(Perform(s, job).store.rows, key);
            (after.Some? && after.value.status != Revoked)
            <==> GetsThrough(s, job, key) && job.purchase.status != Revoked
  {
    StepIsLawfulExactly(env, s, job, key);
    if GetsThrough(s, job, key) {
      VerificationSets(env, s, job.purchase, job.fault);
    }
  }

  /** No job of the run takes a revoked row of the key out of its terminal state. */
  ghost predicate StaysRevoked(s: Store, jobs: seq<Job>, key: SubKey)
    decreases |jobs|
  {
    jobs == []
    || (var before, after := Find(s.rows, key), Find(Perform(s, jobs[0]).store.rows, key);
        && (StatusOf(before) == Revoked && after.Some? ==> after.value.status == Revoked)
        && StaysRevoked(Perform(s, jobs[0]).store, jobs[1..], key))
  }

  /** Every verification of the purchase that gets through over a revoked row says revoked, too. */
  ghost predicate RevocationsAreConfirmed(s: Store, jobs: seq<Job>, key: SubKey)
    decreases |jobs|
  {
    jobs == []
    || ((StatusOf(Find(s.rows, key)) == Revoked && GetsThrough(s, jobs[0], key) ==> jobs[0].purchase.status == Revoked)
        && RevocationsAreConfirmed(Perform(s, jobs[0]).store, jobs[1..], key))
  }

  /** Revoked is terminal over a run if and only if no verification of a revoked purchase says otherwise. */
  lemma {:induction false} RevokedIsTerminalExactly(env: Environment, s: Store, jobs: seq<Job>, key: SubKey)
    requires Good(env, s.rows) && SoundRun(env, jobs) && ProperKey(key)
    ensures StaysRevoked(s, jobs, key) <==> RevocationsAreConfirmed(s, jobs, key)
    decreases |jobs|
  {
    if jobs == [] {
    } else {
      assert Sound(env, jobs[0]);
      PerformKeepsGood(env, s, jobs[0]);
      if StatusOf(Find(s.rows, key)) == Revoked {
        RevokedEndsExactly(env, s, jobs[0], key);
      }
      RevokedIsTerminalExactly(env, Perform(s, jobs[0]).store, jobs[1..], key);
    }
  }
}
