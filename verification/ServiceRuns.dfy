/** Whole runs of the service object: sequences of calls on it, and what they come to. */
module ServiceRuns {
  import opened Wrappers
  import opened Domain
  import opened Repository
  import opened Jobs
  import opened Plans
  import opened Service
  import opened Invariants
  import opened Ownership
  import opened StatusMapping
  import A = AppleStore

  /** What a call answers: an error, or success with the subscription it answers, if any; and the
      entitlement that goes with it. */
  datatype Answer = Answer(result: Result<Option<Row>, ServiceError>, entitlement: Option<Entitlement>)

  /** Whose entitlement a request is about, and as of when. */
  function Subject(r: Request): Option<(UUID, Time)> {
    match r
    case VerifyApple(d) => Some((d.userID, d.now))
    case VerifyGoogle(d) => Some((d.userID, d.now))
    case _ => None
  }

  /** The answer a reply to a request stands for. */
  function AnswerTo(allowlist: set<UUID>, r: Request, reply: Result<Option<Row>, ServiceError>): Answer {
    if Subject(r).None? || reply.Err? then Answer(reply, None)
    else Answer(reply, Some(EntitlementFor(allowlist, Subject(r).value.0, reply.value, Subject(r).value.1)))
  }

  /** A webhook's or a deletion's answer as a reply. */
  function Acknowledged(e: Option<ServiceError>): Result<Option<Row>, ServiceError> {
    if e.None? then Ok(None) else Err(e.value)
  }

  function Verification(r: Result<VerificationResult, ServiceError>): Answer
    reads if r.Ok? && r.value.subscription != null then {r.value.subscription} else {}
  {
    match r
    case Err(e) => Answer(Err(e), None)
    case Ok(v) => Answer(Ok(if v.subscription == null then None else Some(v.subscription.row)), Some(v.entitlement))
  }

  lemma WebhooksAnswerNoRow(s: Store, job: Job)
    requires !job.Check?
    ensures Perform(s, job).reply == Acknowledged(Failure(Perform(s, job).reply))
  {
  }

  /** One request handed to the handler it is for. */
  method Handle(svc: SubscriptionService, request: Request) returns (a: Answer)
    requires Good(svc.cfg.expectedEnv, svc.repo.rows)
    modifies svc.repo
    ensures var done := Perform(old(svc.repo.Contents()), Plan(svc.cfg, request));
            svc.repo.Contents() == done.store && a == AnswerTo(svc.allowlist, request, done.reply)
    ensures Good(svc.cfg.expectedEnv, svc.repo.rows)
  {
    ghost var job := Plan(svc.cfg, request);
    PlanIsSound(svc.cfg, request);
    PerformKeepsGood(svc.cfg.expectedEnv, svc.repo.Contents(), job);
    if !job.Check? {
      WebhooksAnswerNoRow(svc.repo.Contents(), job);
    }
    match request {
      case AppleWebhook(d) =>
        var e := svc.HandleAppleNotification(d);
        a := Answer(Acknowledged(e), None);
      case GoogleWebhook(d) =>
        var e := svc.HandleGoogleNotification(d);
        a := Answer(Acknowledged(e), None);
      case VerifyApple(d) =>
        var r := svc.VerifyApplePurchase(d);
        a := Verification(r);
      case VerifyGoogle(d) =>
        var r := svc.VerifyGooglePurchase(d);
        a := Verification(r);
      case DeleteAccount(user, fails) =>
        var e := svc.DeleteAllByUser(user, fails);
        a := Answer(Acknowledged(e), None);
    }
  }

  lemma PlanIsSound(cfg: Config, r: Request)
    ensures Sound(cfg.expectedEnv, Plan(cfg, r))
    ensures Plan(cfg, r).Check? ==> r.VerifyApple? || r.VerifyGoogle?
    ensures Plan(cfg, r).Check? ==> Subject(r) == Some((Plan(cfg, r).purchase.userID, Plan(cfg, r).purchase.now))
  {
    PlannedRunsAreSound(cfg, [r]);
    assert Planned(cfg, [r])[0] == Plan(cfg, r);
  }

  /** Every run of the service, whatever calls it receives, leaves the tables, and gives the replies, of the
      run of their jobs. */
  method HandleAll(svc: SubscriptionService, rs: seq<Request>) returns (answers: seq<Answer>)
    requires Good(svc.cfg.expectedEnv, svc.repo.rows)
    modifies svc.repo
    ensures svc.repo.Contents() == Run(old(svc.repo.Contents()), Planned(svc.cfg, rs))
    ensures var replies := Replies(old(svc.repo.Contents()), Planned(svc.cfg, rs));
            && |answers| == |replies| == |rs|
            && forall i :: 0 <= i < |rs| ==> answers[i] == AnswerTo(svc.allowlist, rs[i], replies[i])
    ensures Good(svc.cfg.expectedEnv, svc.repo.rows)
    decreases |rs|
  {
    if rs == [] {
      return [];
    }
    assert Planned(svc.cfg, rs)[1..] == Planned(svc.cfg, rs[1..]);
    var first := Handle(svc, rs[0]);
    var rest := HandleAll(svc, rs[1..]);
    answers := [first] + rest;
  }

  /** An answer a service with this allowlist may give to a user's read: any row of the user that none was
      updated after, and what it entitles to. */
  ghost predicate MayRead(allowlist: set<UUID>, s: Store, user: UUID, now: Time, fails: bool, a: Answer) {
    if fails then a == Answer(Err(Storage(Unavailable)), None)
    else
      && a.result.Ok?
      && (match a.result.value
          case None => !HasRows(s.rows, user)
          case Some(row) => HasRows(s.rows, user) && IsLatest(s.rows, user, row))
      && a.entitlement == Some(EntitlementFor(allowlist, user, a.result.value, now))
  }

  method Read(svc: SubscriptionService, user: UUID, now: Time, fails: bool) returns (a: Answer)
    ensures MayRead(svc.allowlist, svc.repo.Contents(), user, now, fails, a)
  {
    var r := svc.GetSubscription(user, now, fails);
    a := Verification(r);
  }

  /** A lapse of access between two instants. */
  predicate Lapses(row: Row, before: Entitlement, after: Entitlement, from: Time, to: Time) {
    before == Pro && after == Free && row.expiresAt.Some? && from < row.expiresAt.value <= to
  }

  /** What a user reads at `readAt` after a verification answered `row`. If the verification created the row
      or the row was the user's already, the read answers the very subscription the verification answered,
      with the same entitlement unless access has lapsed in between. If the row is another user's, the read
      answers what it could have answered without the verification. */
  ghost predicate ReadsBack(allowlist: set<UUID>, s: Store, p: Purchase, row: Row, readAt: Time, read: Answer) {
    var found := Find(s.rows, p.key);
    var verified := EntitlementFor(allowlist, p.userID, Some(row), p.now);
    if found.None? || found.value.userID == p.userID then
      && read.result == Ok(Some(row)) && read.entitlement.Some?
      && (read.entitlement.value == verified || Lapses(row, verified, read.entitlement.value, p.now, readAt))
    else MayRead(allowlist, s, p.userID, readAt, false, read)
  }

  lemma ReadAnswersTheVerified(env: Environment, allowlist: set<UUID>, s: Store, p: Purchase, fault: Fault, read: Answer,
      readAt: Time)
    requires Good(env, s.rows) && SoundPurchase(env, p) && OlderThan(s, p.now) && p.now <= readAt
    requires Perform(s, Check(p, fault)).reply.Ok?
    requires MayRead(allowlist, Perform(s, Check(p, fault)).store, p.userID, readAt, false, read)
    ensures var back := Perform(s, Check(p, fault)).reply.value;
            back.Some? && ReadsBack(allowlist, s, p, back.value, readAt, read)
  {
    ReadAfterVerify(env, s, p, fault);
    var done := Perform(s, Check(p, fault));
    var found := Find(s.rows, p.key);
    if found.None? || found.value.userID == p.userID {
      EntitlementOnlyLapses(allowlist, p.userID, done.reply.value.value, p.now, readAt);
    } else if HasRows(s.rows, p.userID) {
      var id :| id in s.rows && s.rows[id].userID == p.userID;
      assert id in done.store.rows;
    }
  }

  /** Read after write, on the service: a verification, and a read by the same user after it. */
  method VerifyThenRead(svc: SubscriptionService, request: Request, readAt: Time)
    returns (verified: Answer, read: Answer)
    requires Good(svc.cfg.expectedEnv, svc.repo.rows)
    requires Plan(svc.cfg, request).Check? && OlderThan(svc.repo.Contents(), Plan(svc.cfg, request).purchase.now)
    requires Plan(svc.cfg, request).purchase.now <= readAt
    modifies svc.repo
    ensures var s, p := old(svc.repo.Contents()), Plan(svc.cfg, request).purchase;
            verified.result.Ok? ==>
              && verified.result.value.Some?
              && verified.entitlement == Some(EntitlementFor(svc.allowlist, p.userID, verified.result.value, p.now))
              && ReadsBack(svc.allowlist, s, p, verified.result.value.value, readAt, read)
  {
    ghost var s, job := svc.repo.Contents(), Plan(svc.cfg, request);
    PlanIsSound(svc.cfg, request);
    verified := Handle(svc, request);
    var subject := Subject(request);
    read := Read(svc, subject.value.0, readAt, false);
    if verified.result.Ok? {
      ReadAnswersTheVerified(svc.cfg.expectedEnv, svc.allowlist, s, job.purchase, job.fault, read, readAt);
    }
  }

  /** The verification of a purchase somebody else verified first leaves the one row theirs. */
  lemma OwnerIsKept(env: Environment, p: Purchase, q: Purchase)
    requires SoundPurchase(env, p) && SoundPurchase(env, q) && p.key == q.key && p.userID != q.userID
    ensures var s := Perform(Store(map[], map[]), Check(p, NoFault)).store;
            var done := Perform(s, Check(q, NoFault));
            && done.reply.Ok? && done.reply.value.Some? && done.reply.value.value.userID == q.userID
            && done.reply.value == Some(Verified(Find(s.rows, p.key), q))
            && !HasRows(done.store.rows, q.userID) && HasRows(done.store.rows, p.userID)
  {
    var empty := Store(map[], map[]);
    CheckOutcome(env, empty, p, NoFault);
    VerificationIsFaithful(env, empty, p, NoFault);
    var s := Perform(empty, Check(p, NoFault)).store;
    CheckOutcome(env, s, q, NoFault);
    var row := Find(s.rows, p.key).value;
    assert s.rows.Keys == {row.id};
    assert Perform(s, Check(q, NoFault)).store.rows[row.id].userID == p.userID;
  }

  /** Verifying another user's purchase does not move it: from empty tables, two users verify one purchase
      without the App Store Server API. The second is answered pro and with themself as the owner; what they
      read next is no subscription, and free. */
  lemma RelinkingDoesNotStick(cfg: Config, one: AppleCheck, two: AppleCheck, tx: A.TransactionInfo)
    requires !cfg.hasAppleAPI && one.signedTransaction == two.signedTransaction != "" && one.userID != two.userID
    requires cfg.verifier.transaction(one.signedTransaction) == Some(tx) && tx.bundleID == cfg.bundleID
    requires MapEnvironment(tx.environment) == cfg.expectedEnv && IsSupportedProduct(tx.productID)
    requires one.fault == two.fault == NoFault && two.now < UnixMilli(tx.expiresDate) && 0 < tx.expiresDate
    ensures var s := Perform(Store(map[], map[]), AppleCheckPlan(cfg, one)).store;
            var done := Perform(s, AppleCheckPlan(cfg, two));
            && done.reply.Ok? && done.reply.value.Some? && done.reply.value.value.userID == two.userID
            && AnswerTo({}, VerifyApple(two), done.reply).entitlement == Some(Pro)
            && HasRows(done.store.rows, one.userID)
            && forall readAt, read :: MayRead({}, done.store, two.userID, readAt, false, read) ==>
                                        read == Answer(Ok(None), Some(Free))
  {
    AppleChecksAreSound(cfg, one);
    AppleChecksAreSound(cfg, two);
    var env := MapEnvironment(tx.environment);
    var p, q := ApplePurchase(tx, Active, true, env, one), ApplePurchase(tx, Active, true, env, two);
    assert AppleCheckPlan(cfg, one) == Check(p, NoFault) && AppleCheckPlan(cfg, two) == Check(q, NoFault);
    OwnerIsKept(cfg.expectedEnv, p, q);
  }
}
