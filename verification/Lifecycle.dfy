/** The life of one row over whole runs: its statuses, its event clock, its expiry, its owner. */
module Lifecycle {
  import opened Wrappers
  import opened Domain
  import opened Repository
  import opened UpdateGuard
  import opened Jobs
  import opened Invariants
  import opened WebhookRuns

  /** The change a job gets applied to the row of `key`, if it gets one applied at all. */
  ghost function AppliedChange(s: Store, job: Job, key: SubKey): Option<Change> {
    if IsFor(job, key) && !HookFails(s, job.event, job.change, job.fault) && job.event.key !in s.events
       && !EffectIn(s, job.change).Keep? then Some(job.change)
    else None
  }

  /** An effect that is not dropped writes the change's status, along a permitted transition, over the
      found row the guard let it change. */
  lemma EffectsAreGuarded(env: Environment, found: Option<Row>, ch: Change)
    requires SoundChange(env, ch) && !HookEffect(found, ch).Keep?
    ensures var after := RowAfter(found, HookEffect(found, ch));
            && after.Some? && after.value.status == ch.status
            && CanTransition(StatusOf(found), ch.status)
            && (found.Some? ==> after.value == Changed(found.value, ch)
                                && ShouldApplyUpdate(found, ch.status, ch.expiresAt, ch.eventAt))
  {
  }

  /** The job does not go past the guard: it neither verifies the purchase of `key` nor deletes the account
      of its row's owner. Every webhook, and every call about other purchases and other users, is such a job. */
  ghost predicate Spares(s: Store, job: Job, key: SubKey) {
    match job
    case Check(p, _) => p.key != key
    case Forget(user, fails) => fails || Find(s.rows, key).None? || Find(s.rows, key).value.userID != user
    case _ => true
  }

  ghost predicate Spared(s: Store, jobs: seq<Job>, key: SubKey)
    decreases |jobs|
  {
    jobs == [] || (Spares(s, jobs[0], key) && Spared(Perform(s, jobs[0]).store, jobs[1..], key))
  }

  /** A verification leaves the rows of all other purchases alone. */
  lemma CheckIsLocal(env: Environment, s: Store, p: Purchase, fault: Fault, key: SubKey)
    requires Good(env, s.rows) && SoundPurchase(env, p) && ProperKey(key) && p.key != key
    ensures Find(Perform(s, Check(p, fault)).store.rows, key) == Find(s.rows, key)
  {
    CheckOutcome(env, s, p, fault);
    if !CheckFails(s, p, fault) {
      CheckGetsThrough(env, s.rows, p);
      var row := StoredPurchase(Find(s.rows, p.key), p);
      FindAnswers(s.rows, p.key);
      WellFormedHasOneKey(env, row, key);
      if row.id in s.rows {
        WellFormedHasOneKey(env, s.rows[row.id], key);
        WellFormedHasOneKey(env, s.rows[row.id], p.key);
      }
      FindAfterPut(s.rows, row, key);
    }
  }

  /** A deletion leaves the rows of all other users alone. */
  lemma ForgetIsLocal(rows: Rows, user: UUID, key: SubKey)
    requires Valid(rows)
    requires Find(rows, key).Some? ==> Find(rows, key).value.userID != user
    ensures Find(WithoutUser(rows, user), key) == Find(rows, key)
  {
    FindAnswers(rows, key);
    DeletionKeepsConstraints(rows, user);
    if Find(rows, key).Some? {
      FindIsUnique(WithoutUser(rows, user), Find(rows, key).value.id, key);
    }
  }

  lemma HookMoves(env: Environment, s: Store, job: Job, key: SubKey)
    requires Good(env, s.rows) && Sound(env, job) && job.Hook? && ProperKey(key)
    ensures var before, after := Find(s.rows, key), Find(Perform(s, job).store.rows, key);
            match AppliedChange(s, job, key)
            case None => after == before
            case Some(ch) => !HookEffect(before, ch).Keep? && after == RowAfter(before, HookEffect(before, ch))
  {
    var ch := job.change;
    HookOutcome(env, s, job.event, ch, job.fault);
    FindAnswers(s.rows, ch.key);
    HookEffectIsWellFormed(env, Find(s.rows, ch.key), ch);
    if !HookFails(s, job.event, ch, job.fault) && job.event.key !in s.events {
      EffectIsLocal(env, s, ch, key);
    }
  }

  /** Without an applied change the row of a key stays what it was, in every column; with one it is what
      the change's effect makes of it. */
  lemma AppliedMoves(env: Environment, s: Store, job: Job, key: SubKey)
    requires Good(env, s.rows) && Sound(env, job) && Spares(s, job, key) && ProperKey(key)
    ensures var before, after := Find(s.rows, key), Find(Perform(s, job).store.rows, key);
            match AppliedChange(s, job, key)
            case None => after == before
            case Some(ch) => SoundChange(env, ch) && !HookEffect(before, ch).Keep?
                             && after == RowAfter(before, HookEffect(before, ch))
  {
    match job {
      case Hook(_, _, _) => HookMoves(env, s, job, key);
      case Check(p, fault) => CheckIsLocal(env, s, p, fault, key);
      case Forget(user, fails) =>
        if !fails {
          ForgetIsLocal(s.rows, user, key);
        }
      case _ =>
    }
  }

  lemma {:induction false} WebhookRunsSpare(s: Store, jobs: seq<Job>, key: SubKey)
    requires WebhookRun(jobs)
    ensures Spared(s, jobs, key)
    decreases |jobs|
  {
    if jobs == [] {
    } else {
      assert IsWebhook(jobs[0]);
      WebhookRunsSpare(Perform(s, jobs[0]).store, jobs[1..], key);
    }
  }

  /** For a row that is there it is enough to look at the calls: none verifies its purchase, none deletes
      its owner's account. */
  lemma {:induction false} OthersRunsSpare(env: Environment, s: Store, jobs: seq<Job>, key: SubKey)
    requires Good(env, s.rows) && SoundRun(env, jobs) && ProperKey(key) && Find(s.rows, key).Some?
    requires forall i :: 0 <= i < |jobs| && jobs[i].Check? ==> jobs[i].purchase.key != key
    requires forall i :: 0 <= i < |jobs| && jobs[i].Forget? ==> jobs[i].userID != Find(s.rows, key).value.userID
    ensures Spared(s, jobs, key)
    decreases |jobs|
  {
    if jobs == [] {
    } else {
      assert Sound(env, jobs[0]);
      PerformKeepsGood(env, s, jobs[0]);
      OwnerStays(env, s, jobs[0], key);
      OthersRunsSpare(env, Perform(s, jobs[0]).store, jobs[1..], key);
    }
  }

  lemma OwnerStays(env: Environment, s: Store, job: Job, key: SubKey)
    requires Good(env, s.rows) && Sound(env, job) && Spares(s, job, key) && ProperKey(key) && Find(s.rows, key).Some?
    ensures var after := Find(Perform(s, job).store.rows, key);
            after.Some? && after.value.userID == Find(s.rows, key).value.userID
  {
    AppliedMoves(env, s, job, key);
    if AppliedChange(s, job, key).Some? {
      EffectsAreGuarded(env, Find(s.rows, key), job.change);
    }
  }

  lemma {:induction false} PrefixIsSpared(s: Store, jobs: seq<Job>, n: nat, key: SubKey)
    requires n <= |jobs| && Spared(s, jobs, key)
    ensures Spared(s, jobs[..n], key)
    decreases |jobs|
  {
    if n == 0 {
    } else {
      PrefixIsSpared(Perform(s, jobs[0]).store, jobs[1..], n - 1, key);
      assert jobs[..n][1..] == jobs[1..][..n - 1];
    }
  }

  /** `a` is an instant, and strictly before `b`. */
  predicate Before(a: Option<Time>, b: Option<Time>) {
    a.Some? && b.Some? && a.value < b.value
  }

  /** Exactly which deliveries are applied: those whose calls all get through, whose event is new, and that
      either name a user for a purchase not known yet, or find a row that has or gets a user, that is not
      revoked, whose clock they do not precede, whose expiry they do not shorten (revocations may), and
      whose status may change to theirs. */
  lemma AppliedExactly(env: Environment, s: Store, job: Job)
    requires Good(env, s.rows) && Sound(env, job) && job.Hook? && NewIDs(job) !! s.rows.Keys
    ensures var ch, found := job.change, Find(s.rows, job.change.key);
            AppliedChange(s, job, ch.key).Some?
            <==> job.fault == NoFault && job.event.key !in s.events
                 && (found.None? ==> ch.user.Some?)
                 && (found.Some? ==>
                       && (ch.key.provider == Google || ch.user.Some? || found.value.userID != NIL_UUID)
                       && found.value.status != Revoked
                       && !Before(ch.eventAt, found.value.lastEventAt)
                       && (ch.status == Revoked || !Before(ch.expiresAt, found.value.expiresAt))
                       && CanTransition(found.value.status, ch.status))
  {
  }

  /** The status of a found row; a row not there yet counts as inactive, the status it is built with. */
  function StatusOf(found: Option<Row>): Status {
    if found.Some? then found.value.status else Inactive
  }

  /** The statuses stored for a key, one for each applied change, in order. */
  ghost function StatusLog(s: Store, jobs: seq<Job>, key: SubKey): seq<Status>
    decreases |jobs|
  {
    if jobs == [] then []
    else
      var applied := AppliedChange(s, jobs[0], key);
      (if applied.Some? then [applied.value.status] else []) + StatusLog(Perform(s, jobs[0]).store, jobs[1..], key)
  }

  ghost predicate IsPath(from: Status, path: seq<Status>)
    decreases |path|
  {
    path == [] || (CanTransition(from, path[0]) && IsPath(path[0], path[1..]))
  }

  function LastOf(from: Status, path: seq<Status>): Status {
    if path == [] then from else path[|path| - 1]
  }

  lemma StatusStep(env: Environment, s: Store, job: Job, key: SubKey)
    requires Good(env, s.rows) && Sound(env, job) && Spares(s, job, key) && ProperKey(key)
    ensures var from, to := StatusOf(Find(s.rows, key)), StatusOf(Find(Perform(s, job).store.rows, key));
            match AppliedChange(s, job, key)
            case None => to == from
            case Some(ch) => to == ch.status && CanTransition(from, to)
  {
    AppliedMoves(env, s, job, key);
    var applied := AppliedChange(s, job, key);
    if applied.Some? {
      EffectsAreGuarded(env, Find(s.rows, key), applied.value);
    }
  }

  lemma PathGrows(from: Status, next: Status, path: seq<Status>)
    requires CanTransition(from, next) && IsPath(next, path)
    ensures IsPath(from, [next] + path) && LastOf(from, [next] + path) == LastOf(next, path)
  {
  }

  /** Lifecycle safety: over any run that does not verify its purchase or delete its owner, the statuses
      stored for a key form a path in the transition graph, from the status found at the start (inactive,
      when there is no row) to the one found at the end. */
  lemma {:induction false} StatusesFormAPath(env: Environment, s: Store, jobs: seq<Job>, key: SubKey)
    requires Good(env, s.rows) && SoundRun(env, jobs) && Spared(s, jobs, key) && ProperKey(key)
    ensures IsPath(StatusOf(Find(s.rows, key)), StatusLog(s, jobs, key))
    ensures LastOf(StatusOf(Find(s.rows, key)), StatusLog(s, jobs, key)) == StatusOf(Find(Run(s, jobs).rows, key))
    decreases |jobs|
  {
    if jobs == [] {
    } else {
      var job, rest := jobs[0], jobs[1..];
      var after := Perform(s, job).store;
      assert Sound(env, job);
      PerformKeepsGood(env, s, job);
      StatusStep(env, s, job, key);
      StatusesFormAPath(env, after, rest, key);
      var applied := AppliedChange(s, job, key);
      if applied.Some? {
        PathGrows(StatusOf(Find(s.rows, key)), applied.value.status, StatusLog(after, rest, key));
      } else {
        assert [] + StatusLog(after, rest, key) == StatusLog(after, rest, key);
      }
    }
  }

  function CountActive(log: seq<Status>): nat {
    if log == [] then 0 else CountActive(log[1..]) + if log[0] == Active then 1 else 0
  }

  /** Along a path in the transition graph every update to another status than active spends rank, and
      every activation gives back at most three. */
  lemma {:induction false} PathsSpendRank(from: Status, path: seq<Status>)
    requires IsPath(from, path)
    ensures CountActive(path) <= |path|
    ensures |path| - CountActive(path) + Rank(LastOf(from, path)) <= Rank(from) + 3 * CountActive(path)
    decreases |path|
  {
    if path == [] {
    } else {
      TransitionsSpendRank(from, path[0]);
      PathsSpendRank(path[0], path[1..]);
    }
  }

  /** Bounded churn: over any such run, the updates applied to a row with another status than
      active number at most its starting rank plus three for every activation. */
  lemma BoundedChurn(env: Environment, s: Store, jobs: seq<Job>, key: SubKey)
    requires Good(env, s.rows) && SoundRun(env, jobs) && Spared(s, jobs, key) && ProperKey(key)
    ensures var log := StatusLog(s, jobs, key);
            |log| - CountActive(log) <= Rank(StatusOf(Find(s.rows, key))) + 3 * CountActive(log)
  {
    StatusesFormAPath(env, s, jobs, key);
    PathsSpendRank(StatusOf(Find(s.rows, key)), StatusLog(s, jobs, key));
  }

  /** Once revoked, a row is frozen in every column until its purchase is verified or its owner deleted, and
      grants no access at any time. */
  lemma {:induction false} RevokedIsFrozen(env: Environment, s: Store, jobs: seq<Job>, key: SubKey)
    requires Good(env, s.rows) && SoundRun(env, jobs) && Spared(s, jobs, key) && ProperKey(key)
    requires StatusOf(Find(s.rows, key)) == Revoked
    ensures Find(Run(s, jobs).rows, key) == Find(s.rows, key)
    ensures forall now :: !Find(s.rows, key).value.HasActiveAccess(now)
    decreases |jobs|
  {
    if jobs == [] {
    } else {
      assert Sound(env, jobs[0]);
      PerformKeepsGood(env, s, jobs[0]);
      AppliedMoves(env, s, jobs[0], key);
      RevokedIsFrozen(env, Perform(s, jobs[0]).store, jobs[1..], key);
    }
  }

  predicate NotBefore(a: Option<Time>, b: Option<Time>) {
    a.Some? ==> b.Some? && a.value <= b.value
  }

  /** What webhooks and verifications never do to a row: change its identity or owner, unset its event
      clock or turn it back. */
  predicate Continues(before: Row, after: Row) {
    SameIdentity(before, after) && NotBefore(before.lastEventAt, after.lastEventAt)
  }

  lemma PurchaseContinues(env: Environment, row: Row, p: Purchase)
    requires SoundPurchase(env, p) && WellFormed(env, row) && Matches(row, p.key)
    ensures Continues(row, StoredPurchase(Some(row), p))
  {
  }

  /** Every row is still there and continues. */
  predicate RowsStay(before: Rows, after: Rows) {
    forall id :: id in before ==> id in after && Continues(before[id], after[id])
  }

  lemma StayingIsTransitive(a: Rows, b: Rows, c: Rows)
    requires RowsStay(a, b) && RowsStay(b, c)
    ensures RowsStay(a, c)
  {
  }

  lemma RowsStayBeside(rows: Rows, row: Row)
    requires row.id in rows ==> Continues(rows[row.id], row)
    ensures RowsStay(rows, rows[row.id := row]) && RowsStay(rows, rows)
  {
  }

  lemma EffectContinuesRows(env: Environment, s: Store, ch: Change)
    requires Good(env, s.rows) && SoundChange(env, ch)
    requires EffectIn(s, ch).Insert? ==> ch.freshID !in s.rows
    ensures RowsStay(s.rows, After(s.rows, EffectIn(s, ch)))
  {
  }

  lemma JobContinuesRows(env: Environment, s: Store, job: Job)
    requires Good(env, s.rows) && Sound(env, job) && !job.Forget?
    ensures RowsStay(s.rows, Perform(s, job).store.rows)
  {
    match job {
      case Hook(event, ch, fault) =>
        HookOutcome(env, s, event, ch, fault);
        if !HookFails(s, event, ch, fault) && event.key !in s.events {
          EffectContinuesRows(env, s, ch);
        }
      case Check(p, fault) => CheckContinuesRows(env, s, p, fault);
      case _ =>
    }
  }

  lemma CheckContinuesRows(env: Environment, s: Store, p: Purchase, fault: Fault)
    requires Good(env, s.rows) && SoundPurchase(env, p)
    ensures RowsStay(s.rows, Perform(s, Check(p, fault)).store.rows)
  {
    var found := Find(s.rows, p.key);
    CheckOutcome(env, s, p, fault);
    FindAnswers(s.rows, p.key);
    if found.Some? {
      PurchaseContinues(env, found.value, p);
    }
    if !CheckFails(s, p, fault) {
      RowsStayBeside(s.rows, StoredPurchase(found, p));
    }
  }

  /** Over any run without deletions, webhooks and verifications mixed, every row stays, with its id,
      owner, provider, creation time and lookup key, and its event clock is never unset and never goes
      back. */
  lemma {:induction false} RowsContinue(env: Environment, s: Store, jobs: seq<Job>)
    requires Good(env, s.rows) && SoundRun(env, jobs)
    requires forall i :: 0 <= i < |jobs| ==> !jobs[i].Forget?
    ensures RowsStay(s.rows, Run(s, jobs).rows)
    decreases |jobs|
  {
    if jobs == [] {
    } else {
      var after := Perform(s, jobs[0]).store;
      assert Sound(env, jobs[0]);
      PerformKeepsGood(env, s, jobs[0]);
      JobContinuesRows(env, s, jobs[0]);
      RowsContinue(env, after, jobs[1..]);
      StayingIsTransitive(s.rows, after.rows, Run(s, jobs).rows);
    }
  }

  /** Deliveries for a key all timestamped strictly before its row's event clock leave the row alone,
      whatever else the run does, short of verifying that purchase or deleting its owner. */
  lemma {:induction false} LateEventsAreIgnored(env: Environment, s: Store, jobs: seq<Job>, key: SubKey, clock: Time)
    requires Good(env, s.rows) && SoundRun(env, jobs) && Spared(s, jobs, key) && ProperKey(key)
    requires Find(s.rows, key).Some? && Find(s.rows, key).value.lastEventAt == Some(clock)
    requires forall i :: 0 <= i < |jobs| && IsFor(jobs[i], key) ==>
                           jobs[i].change.eventAt.Some? && jobs[i].change.eventAt.value < clock
    ensures Find(Run(s, jobs).rows, key) == Find(s.rows, key)
    decreases |jobs|
  {
    if jobs == [] {
    } else {
      assert Sound(env, jobs[0]);
      PerformKeepsGood(env, s, jobs[0]);
      AppliedMoves(env, s, jobs[0], key);
      LateEventsAreIgnored(env, Perform(s, jobs[0]).store, jobs[1..], key, clock);
    }
  }

  predicate CarryExpiry(jobs: seq<Job>, key: SubKey) {
    forall i :: 0 <= i < |jobs| && IsFor(jobs[i], key) ==> jobs[i].change.expiresAt.Some?
  }

  /** One applied change that does not revoke keeps the expiry from moving back exactly when it carries
      an expiry, or there was none. */
  lemma ExpiryStepExactly(env: Environment, s: Store, job: Job, key: SubKey)
    requires Good(env, s.rows) && Sound(env, job) && Spares(s, job, key) && ProperKey(key)
    requires Find(s.rows, key).Some?
    requires AppliedChange(s, job, key).Some? && AppliedChange(s, job, key).value.status != Revoked
    ensures var before, after := Find(s.rows, key).value, Find(Perform(s, job).store.rows, key);
            && after.Some?
            && (NotBefore(before.expiresAt, after.value.expiresAt)
                <==> (before.expiresAt.None? || job.change.expiresAt.Some?))
  {
    AppliedMoves(env, s, job, key);
    EffectsAreGuarded(env, Find(s.rows, key), job.change);
  }

  /** No step of the run that leaves the row unrevoked moves its expiry back. */
  ghost predicate ExpiryNeverTurnsBack(s: Store, jobs: seq<Job>, key: SubKey)
    decreases |jobs|
  {
    jobs == []
    || (var before, after := Find(s.rows, key), Find(Perform(s, jobs[0]).store.rows, key);
        && (before.Some? && after.Some? && after.value.status != Revoked ==>
              NotBefore(before.value.expiresAt, after.value.expiresAt))
        && ExpiryNeverTurnsBack(Perform(s, jobs[0]).store, jobs[1..], key))
  }

  /** Every change applied to a row with an expiry, other than a revocation, carries one. */
  ghost predicate AppliedCarryExpiry(s: Store, jobs: seq<Job>, key: SubKey)
    decreases |jobs|
  {
    jobs == []
    || (var before, applied := Find(s.rows, key), AppliedChange(s, jobs[0], key);
        && (before.Some? && before.value.expiresAt.Some? && applied.Some? && applied.value.status != Revoked ==>
              applied.value.expiresAt.Some?)
        && AppliedCarryExpiry(Perform(s, jobs[0]).store, jobs[1..], key))
  }

  /** Expiry order, exactly: over a run that does not verify its purchase or delete its owner, no step moves a
      row's expiry back, short of revoking it, if and only if every applied change of an expiring row that
      does not revoke it carries an expiry. */
  lemma {:induction false} ExpiryOrderExactly(env: Environment, s: Store, jobs: seq<Job>, key: SubKey)
    requires Good(env, s.rows) && SoundRun(env, jobs) && Spared(s, jobs, key) && ProperKey(key)
    ensures ExpiryNeverTurnsBack(s, jobs, key) <==> AppliedCarryExpiry(s, jobs, key)
    decreases |jobs|
  {
    if jobs == [] {
    } else {
      assert Sound(env, jobs[0]);
      PerformKeepsGood(env, s, jobs[0]);
      AppliedMoves(env, s, jobs[0], key);
      var applied := AppliedChange(s, jobs[0], key);
      if applied.Some? {
        EffectsAreGuarded(env, Find(s.rows, key), applied.value);
      }
      ExpiryOrderExactly(env, Perform(s, jobs[0]).store, jobs[1..], key);
    }
  }

  /** One delivery that carries an expiry if it is about the row: the row is still there, and if the
      delivery did not revoke it its expiry has not moved back. */
  lemma ExpiryStep(env: Environment, s: Store, job: Job, key: SubKey)
    requires Good(env, s.rows) && Sound(env, job) && Spares(s, job, key) && ProperKey(key)
    requires Find(s.rows, key).Some? && (IsFor(job, key) ==> job.change.expiresAt.Some?)
    ensures var after := Find(Perform(s, job).store.rows, key);
            after.Some?
            && (after.value.status != Revoked ==> NotBefore(Find(s.rows, key).value.expiresAt, after.value.expiresAt))
  {
    AppliedMoves(env, s, job, key);
    if AppliedChange(s, job, key).Some? {
      EffectsAreGuarded(env, Find(s.rows, key), job.change);
    }
  }

  lemma RunTake(s: Store, jobs: seq<Job>, n: nat)
    requires 0 < n <= |jobs|
    ensures Run(s, jobs[..n]) == Run(Perform(s, jobs[0]).store, jobs[1..][..n - 1])
  {
    assert jobs[..n][1..] == jobs[1..][..n - 1];
  }

  lemma RunOfTwo(s: Store, a: Job, b: Job)
    ensures Run(s, [a, b]) == Perform(Perform(s, a).store, b).store
  {
    assert [a, b][1..] == [b] && [b][1..] == [];
    assert Run(Perform(s, a).store, [b]) == Perform(Perform(s, a).store, b).store;
  }

  /** Expiry order: over any run that does not verify its purchase or delete its owner, and whose deliveries
      for it all carry an expiry, a row's expiry does not move back unless the row is revoked. */
  lemma {:induction false} ExpiryOrder(env: Environment, s: Store, jobs: seq<Job>, key: SubKey)
    requires Good(env, s.rows) && SoundRun(env, jobs) && Spared(s, jobs, key) && ProperKey(key)
    requires Find(s.rows, key).Some? && CarryExpiry(jobs, key)
    ensures var last := Find(Run(s, jobs).rows, key);
            last.Some?
            && (last.value.status != Revoked ==> NotBefore(Find(s.rows, key).value.expiresAt, last.value.expiresAt))
    decreases |jobs|
  {
    if jobs == [] {
    } else {
      assert Sound(env, jobs[0]);
      PerformKeepsGood(env, s, jobs[0]);
      ExpiryStep(env, s, jobs[0], key);
      var after := Perform(s, jobs[0]).store;
      ExpiryOrder(env, after, jobs[1..], key);
      if StatusOf(Find(after.rows, key)) == Revoked {
        RevokedIsFrozen(env, after, jobs[1..], key);
      }
    }
  }

  /** A row that such a run revokes is revoked by one delivery of it: before that delivery it is
      not revoked, and after it it is what it is in the end. */
  lemma {:induction false} RevocationIsOneStep(env: Environment, s: Store, jobs: seq<Job>, key: SubKey)
    returns (split: nat)
    requires Good(env, s.rows) && SoundRun(env, jobs) && Spared(s, jobs, key) && ProperKey(key)
    requires StatusOf(Find(s.rows, key)) != Revoked && StatusOf(Find(Run(s, jobs).rows, key)) == Revoked
    ensures split < |jobs|
    ensures StatusOf(Find(Run(s, jobs[..split]).rows, key)) != Revoked
    ensures Find(Run(s, jobs[..split + 1]).rows, key) == Find(Run(s, jobs).rows, key)
    decreases |jobs|
  {
    var after := Perform(s, jobs[0]).store;
    assert Sound(env, jobs[0]);
    PerformKeepsGood(env, s, jobs[0]);
    if StatusOf(Find(after.rows, key)) == Revoked {
      split := 0;
      RevokedIsFrozen(env, after, jobs[1..], key);
      assert jobs[..0] == [];
    } else {
      var later := RevocationIsOneStep(env, after, jobs[1..], key);
      split := later + 1;
      RunTake(s, jobs, split);
    }
    RunTake(s, jobs, split + 1);
  }

  /** So until the one delivery that revokes it, the row's expiry has not moved back. */
  lemma ExpiryOrderUntilRevoked(env: Environment, s: Store, jobs: seq<Job>, key: SubKey) returns (split: nat)
    requires Good(env, s.rows) && SoundRun(env, jobs) && Spared(s, jobs, key) && ProperKey(key)
    requires Find(s.rows, key).Some? && CarryExpiry(jobs, key)
    requires StatusOf(Find(s.rows, key)) != Revoked && StatusOf(Find(Run(s, jobs).rows, key)) == Revoked
    ensures split < |jobs| && Find(Run(s, jobs[..split]).rows, key).Some?
    ensures NotBefore(Find(s.rows, key).value.expiresAt, Find(Run(s, jobs[..split]).rows, key).value.expiresAt)
    ensures Find(Run(s, jobs[..split + 1]).rows, key) == Find(Run(s, jobs).rows, key)
  {
    split := RevocationIsOneStep(env, s, jobs, key);
    PrefixIsSpared(s, jobs, split, key);
    ExpiryOrder(env, s, jobs[..split], key);
  }

  /** A new event's activation of an owned row that is not revoked goes through unless it comes late or shortens
      the expiry. */
  lemma RenewalGoesThrough(env: Environment, s: Store, key: SubKey, job: Job)
    requires Good(env, s.rows) && Sound(env, job) && IsFor(job, key) && ProperKey(key)
    requires Find(s.rows, key).Some? && Find(s.rows, key).value.status != Revoked
    requires Find(s.rows, key).value.userID != NIL_UUID && job.change.status == Active && job.fault == NoFault
    requires !Before(job.change.eventAt, Find(s.rows, key).value.lastEventAt)
    requires !Before(job.change.expiresAt, Find(s.rows, key).value.expiresAt)
    requires job.event.key !in s.events
    ensures Find(Perform(s, job).store.rows, key) == Some(Changed(Find(s.rows, key).value, job.change))
  {
    FindAnswers(s.rows, key);
    TransitionsExactly(Find(s.rows, key).value.status, Active);
    HookOutcome(env, s, job.event, job.change, NoFault);
    EffectIsLocal(env, s, job.change, key);
  }

  /** Two activations in time order, the first without an expiry, the second with one earlier than the
      active row's: the row ends up active with the earlier expiry. */
  lemma ExpiryTurnsBack(env: Environment, s: Store, key: SubKey, a: Job, b: Job)
    requires Good(env, s.rows) && ProperKey(key) && Find(s.rows, key).Some?
    requires Sound(env, a) && Sound(env, b) && IsFor(a, key) && IsFor(b, key)
    requires a.fault == NoFault && b.fault == NoFault && a.change.status == Active && b.change.status == Active
    requires a.event.key !in s.events && b.event.key !in s.events && a.event.key != b.event.key
    requires var row := Find(s.rows, key).value;
             && row.status == Active && row.userID != NIL_UUID
             && !Before(a.change.eventAt, row.lastEventAt)
             && !Before(b.change.eventAt, OrElse(a.change.eventAt, row.lastEventAt))
             && a.change.expiresAt.None? && Before(b.change.expiresAt, row.expiresAt)
    ensures var last := Find(Run(s, [a, b]).rows, key);
            && last.Some? && last.value.status == Active
            && Before(last.value.expiresAt, Find(s.rows, key).value.expiresAt)
  {
    var middle := Perform(s, a).store;
    RunOfTwo(s, a, b);
    PerformKeepsGood(env, s, a);
    RenewalGoesThrough(env, s, key, a);
    EventsOfOneJob(s, a);
    assert b.event.key !in middle.events;
    RenewalGoesThrough(env, middle, key, b);
  }
}
