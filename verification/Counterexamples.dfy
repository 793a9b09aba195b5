/** Deliveries the stores may send that show where a property needs its condition. */
module Counterexamples {
  import opened Wrappers
  import opened Domain
  import opened Repository
  import opened StatusMapping
  import opened Jobs
  import opened Plans
  import opened Invariants
  import opened Lifecycle
  import opened Interleaving
  import opened Ordering
  import opened Ownership
  import opened Unguarded
  import A = AppleStore
  import G = GooglePlay

  /** An App Store delivery and what it decodes to. */
  datatype AppleInput = AppleInput(d: AppleDelivery, n: A.NotificationPayload, tx: A.TransactionInfo)

  /** The delivery decodes to its notification and transaction, with no renewal record, passes every check,
      and no call fails. */
  predicate Carries(cfg: Config, x: AppleInput) {
    && x.d.signedPayload != "" && cfg.verifier.notification(x.d.signedPayload) == Some(x.n)
    && x.n.notificationUUID != "" && x.n.signedTransactionInfo != "" && x.n.signedRenewalInfo == ""
    && cfg.verifier.transaction(x.n.signedTransactionInfo) == Some(x.tx)
    && x.tx.bundleID == cfg.bundleID && MapEnvironment(x.tx.environment) == cfg.expectedEnv
    && IsSupportedProduct(x.tx.productID) && x.d.fault == NoFault
  }

  lemma ApplePlanOf(cfg: Config, x: AppleInput)
    requires Carries(cfg, x)
    ensures x.n.notificationType == "DID_RENEW" || x.n.notificationType == "SUBSCRIBED" ==>
              ApplePlan(cfg, x.d) == Hook(AppleEvent(x.n, x.d.now), AppleChange(cfg, x.n, x.tx, Active, true, x.d), NoFault)
    ensures x.n.notificationType == "REFUND" ==>
              ApplePlan(cfg, x.d) == Hook(AppleEvent(x.n, x.d.now), AppleChange(cfg, x.n, x.tx, Revoked, false, x.d), NoFault)
  {
  }

  /** The notification is about this purchase, and its event is not in the table. */
  predicate IsNews(s: Store, key: SubKey, x: AppleInput) {
    key == ByTransaction(Apple, x.tx.originalTransactionID) && EventKey(Apple, x.n.notificationUUID) !in s.events
  }

  /** For App Store rows the expiry has to be carried: for every owned active row, two renewals in time
      order, the first of a transaction without an expiry, take the expiry back. */
  lemma AppleExpiryNeedsExpiries(cfg: Config, s: Store, key: SubKey, one: AppleInput, two: AppleInput)
    requires Good(cfg.expectedEnv, s.rows) && Find(s.rows, key).Some?
    requires Carries(cfg, one) && Carries(cfg, two) && IsNews(s, key, one) && IsNews(s, key, two)
    requires one.n.notificationType == two.n.notificationType == "DID_RENEW"
    requires one.n.notificationUUID != two.n.notificationUUID
    requires var row := Find(s.rows, key).value;
             && row.status == Active && row.userID != NIL_UUID
             && 0 < one.n.signedDate <= two.n.signedDate
             && !Before(Some(UnixMilli(one.n.signedDate)), row.lastEventAt)
             && one.tx.expiresDate <= 0 < two.tx.expiresDate
             && Before(Some(UnixMilli(two.tx.expiresDate)), row.expiresAt)
    ensures var jobs := [ApplePlan(cfg, one.d), ApplePlan(cfg, two.d)];
            var last := Find(Run(s, jobs).rows, key);
            && SoundRun(cfg.expectedEnv, jobs) && WebhookRun(jobs)
            && last.Some? && last.value.status == Active
            && Before(last.value.expiresAt, Find(s.rows, key).value.expiresAt)
  {
    ApplePlanOf(cfg, one);
    ApplePlanOf(cfg, two);
    AppleHooksAreSound(cfg, one.d);
    AppleHooksAreSound(cfg, two.d);
    ExpiryTurnsBack(cfg.expectedEnv, s, key, ApplePlan(cfg, one.d), ApplePlan(cfg, two.d));
  }

  /** A Google Play delivery, what it decodes to, and the purchase the API answers with. */
  datatype GoogleInput = GoogleInput(d: GoogleDelivery, m: G.PubSubMessage, n: G.DeveloperNotification,
    sub: G.SubscriptionNotification, p: G.Purchase)

  predicate Fetches(cfg: Config, x: GoogleInput) {
    && x.d.payload != "" && cfg.parsePubSub(x.d.payload) == Some((x.m, x.n)) && !x.n.test
    && x.n.subscription == Some(x.sub)
    && x.n.packageName == (if cfg.googlePackageName == "" then DEFAULT_PACKAGE else cfg.googlePackageName)
    && x.sub.subscriptionID == GOOGLE_SUBSCRIPTION_ID && x.sub.purchaseToken != "" && cfg.hasGoogleClient
    && G.Fetched(cfg.parseRFC3339, cfg.clientPackageName, x.n.packageName, x.sub.subscriptionID, x.sub.purchaseToken,
                 x.d.reply) == Ok(x.p)
    && x.d.fault == NoFault
  }

  lemma GooglePlanOf(cfg: Config, x: GoogleInput)
    requires Fetches(cfg, x)
    ensures GooglePlan(cfg, x.d) == Hook(GoogleEvent(x.m, GoogleType(x.sub.notificationType), x.d.now),
                                         GoogleChange(cfg, x.m, x.n, x.sub, x.p, x.d.now), NoFault)
  {
  }

  /** A Google Play webhook is without an expiry exactly when the text of the expiry, which has to be there,
      is read as the zero time; so a time parser that never does that makes every Google delivery carry one. */
  lemma GoogleCarriesExpiry(cfg: Config, d: GoogleDelivery)
    requires GooglePlan(cfg, d).Hook?
    ensures d.reply.Body? && d.reply.purchase.Some?
    ensures GooglePlan(cfg, d).change.expiresAt.None?
            <==> exists i: nat :: G.IsRelevant(d.reply.purchase.value.lineItems, GOOGLE_SUBSCRIPTION_ID, i)
                   && cfg.parseRFC3339(d.reply.purchase.value.lineItems[i].expiryTime) == Some(ZERO_TIME)
  {
    var (m, n) := cfg.parsePubSub(d.payload).value;
    var sub := n.subscription.value;
    var items := d.reply.purchase.value.lineItems;
    var i := G.FirstOf(items, GOOGLE_SUBSCRIPTION_ID);
    assert G.IsRelevant(items, GOOGLE_SUBSCRIPTION_ID, i);
    forall other: nat | G.IsRelevant(items, GOOGLE_SUBSCRIPTION_ID, other)
      ensures other == i
    {
    }
  }

  /** A notice of a renewal, for a purchase that is active and renewing. */
  predicate Renews(x: GoogleInput) {
    && x.sub.notificationType == G.RENEWED && x.p.state == G.StateActive && x.p.autoRenewing
    && x.p.cancellationReason == G.Unknown && 0 < x.n.eventTimeMillis
  }

  lemma RenewalPlan(cfg: Config, x: GoogleInput)
    requires Fetches(cfg, x) && Renews(x)
    ensures var job := GooglePlan(cfg, x.d);
            && job.Hook? && job.fault == NoFault && Sound(cfg.expectedEnv, job)
            && job.event.key == EventKey(Google, x.m.messageID)
            && job.change.key == ByToken(Google, x.sub.purchaseToken) && job.change.status == Active
            && job.change.expiresAt == ExpiryOf(x.p)
            && job.change.eventAt == Some(UnixMilli(x.n.eventTimeMillis))
  {
    GooglePlanOf(cfg, x);
    GoogleHooksAreSound(cfg, x.d);
  }

  /** For Google Play rows the same: two renewals in time order, the first with the zero time for an expiry,
      take the expiry back. */
  lemma GoogleExpiryNeedsExpiries(cfg: Config, s: Store, key: SubKey, one: GoogleInput, two: GoogleInput)
    requires Good(cfg.expectedEnv, s.rows) && Find(s.rows, key).Some?
    requires Fetches(cfg, one) && Fetches(cfg, two) && Renews(one) && Renews(two)
    requires key == ByToken(Google, one.sub.purchaseToken) == ByToken(Google, two.sub.purchaseToken)
    requires EventKey(Google, one.m.messageID) !in s.events && EventKey(Google, two.m.messageID) !in s.events
    requires one.m.messageID != two.m.messageID
    requires var row := Find(s.rows, key).value;
             && row.status == Active && row.userID != NIL_UUID
             && one.n.eventTimeMillis <= two.n.eventTimeMillis
             && !Before(Some(UnixMilli(one.n.eventTimeMillis)), row.lastEventAt)
             && one.p.expiryTime == ZERO_TIME != two.p.expiryTime && Before(Some(two.p.expiryTime), row.expiresAt)
    ensures var jobs := [GooglePlan(cfg, one.d), GooglePlan(cfg, two.d)];
            var last := Find(Run(s, jobs).rows, key);
            && SoundRun(cfg.expectedEnv, jobs) && WebhookRun(jobs)
            && last.Some? && last.value.status == Active
            && Before(last.value.expiresAt, Find(s.rows, key).value.expiresAt)
  {
    RenewalPlan(cfg, one);
    RenewalPlan(cfg, two);
    ExpiryTurnsBack(cfg.expectedEnv, s, key, GooglePlan(cfg, one.d), GooglePlan(cfg, two.d));
  }

  /** The opening of a purchase's history: a subscription notice that names its user, and an expiry. */
  predicate Opens(cfg: Config, x: AppleInput) {
    && Carries(cfg, x) && x.n.notificationType == "SUBSCRIBED" && TokenUser(cfg, x.tx.appAccountToken).Some?
    && 0 < x.n.signedDate && 0 < x.tx.expiresDate
  }

  /** A later notice about the same purchase, not shortening its expiry, with an event and a row id of its own. */
  predicate Follows(cfg: Config, first: AppleInput, x: AppleInput) {
    && Carries(cfg, x) && x.tx.originalTransactionID == first.tx.originalTransactionID
    && first.n.signedDate <= x.n.signedDate && first.tx.expiresDate <= x.tx.expiresDate
    && x.n.notificationUUID != first.n.notificationUUID && x.d.freshID != first.d.freshID
  }

  /** The row the opening notice creates. */
  function Opened(cfg: Config, x: AppleInput): Row
    requires Opens(cfg, x)
  {
    Changed(Blank(x.d.freshID, TokenUser(cfg, x.tx.appAccountToken).value, x.tx.productID,
                  ByTransaction(Apple, x.tx.originalTransactionID), x.d.now),
            AppleChange(cfg, x.n, x.tx, Active, true, x.d))
  }

  lemma OpensAndFollows(cfg: Config, x: AppleInput, y: AppleInput)
    requires Opens(cfg, x) && Follows(cfg, x, y) && y.n.notificationType in {"DID_RENEW", "REFUND"}
    ensures var create := ApplePlan(cfg, x.d);
            && create.Hook? && Sound(cfg.expectedEnv, create)
            && HookEffect(None, create.change) == Effect.Insert(Opened(cfg, x))
            && NewIDs(create) == {x.d.freshID} && create.event.key == EventKey(Apple, x.n.notificationUUID)
    ensures var job := ApplePlan(cfg, y.d);
            && job.Hook? && Overwrites(cfg.expectedEnv, job, Opened(cfg, x))
            && NewIDs(job) <= {y.d.freshID} && job.event.key == EventKey(Apple, y.n.notificationUUID)
            && Overwritten(job, Opened(cfg, x)).lastEventAt == Some(UnixMilli(y.n.signedDate))
            && Overwritten(job, Opened(cfg, x)).status == (if y.n.notificationType == "REFUND" then Revoked else Active)
    ensures JobKey(ApplePlan(cfg, x.d)) == JobKey(ApplePlan(cfg, y.d))
            == ByTransaction(Apple, x.tx.originalTransactionID)
  {
    ApplePlanOf(cfg, x);
    ApplePlanOf(cfg, y);
    AppleHooksAreSound(cfg, x.d);
    AppleHooksAreSound(cfg, y.d);
    assert CanTransition(Active, Active) && CanTransition(Active, Revoked);
  }

  /** Every transaction of the history is one of these calls on the service. */
  predicate StartsOnly(actions: seq<Action>, jobs: set<Job>) {
    forall a :: a in actions && a.Start? ==> a.job in jobs
  }

  /** What a history comes to that makes row `id` known, commits a change of it, then a second one: the second
      turns its event clock back. */
  ghost predicate TurnsClockBack(opening: seq<Action>, closing: seq<Action>, id: UUID, between: Status, final: Status) {
    && Executable(INITIAL, opening) && Executable(INITIAL, opening + closing)
    && var middle, last := Exec(INITIAL, opening).store.rows, Exec(INITIAL, opening + closing).store.rows;
       && id in middle && id in last && middle[id].status == between && last[id].status == final
       && Before(last[id].lastEventAt, middle[id].lastEventAt)
  }

  lemma OverlapTurnsClockBack(env: Environment, create: Job, first: Job, second: Job, row: Row, zero: TxID, one: TxID,
      two: TxID)
    requires Contend(env, create, first, second, row) && one != two
    requires Before(Overwritten(second, row).lastEventAt, Overwritten(first, row).lastEventAt)
    ensures var opening := Overlap(zero, create, one, first, two, second);
            && TurnsClockBack(opening, Finish(two), row.id, Overwritten(first, row).status, Overwritten(second, row).status)
            && StartsOnly(opening + Finish(two), {create, first, second})
  {
    var middle, last := LastWriterWinsFromEmpty(env, create, first, second, row, zero, one, two);
    OverlapStarts(zero, create, one, first, two, second);
  }

  /** From empty tables, three deliveries in an interleaving the database allows: the purchase is made known;
      two notices look its row up side by side; the later one writes and commits, then the earlier one does.
      The row's event clock is turned back; and if the later one was a refund, the purchase is active again. */
  lemma DeliveryTurnsClockBack(cfg: Config, x: AppleInput, later: AppleInput, earlier: AppleInput, zero: TxID, one: TxID,
      two: TxID)
    requires Opens(cfg, x) && Follows(cfg, x, later) && Follows(cfg, x, earlier) && one != two
    requires later.n.notificationUUID != earlier.n.notificationUUID && later.d.freshID != earlier.d.freshID
    requires later.n.notificationType in {"DID_RENEW", "REFUND"} && earlier.n.notificationType == "DID_RENEW"
    requires earlier.n.signedDate < later.n.signedDate
    ensures var jobs := {ApplePlan(cfg, x.d), ApplePlan(cfg, later.d), ApplePlan(cfg, earlier.d)};
            var opening := Overlap(zero, ApplePlan(cfg, x.d), one, ApplePlan(cfg, later.d), two, ApplePlan(cfg, earlier.d));
            && StartsOnly(opening + Finish(two), jobs)
            && TurnsClockBack(opening, Finish(two), x.d.freshID,
                              if later.n.notificationType == "REFUND" then Revoked else Active, Active)
  {
    OpensAndFollows(cfg, x, later);
    OpensAndFollows(cfg, x, earlier);
    OverlapTurnsClockBack(cfg.expectedEnv, ApplePlan(cfg, x.d), ApplePlan(cfg, later.d), ApplePlan(cfg, earlier.d),
                          Opened(cfg, x), zero, one, two);
  }

  /** A verification that passes its checks, with the App Store Server API absent or down. */
  predicate PassesChecks(cfg: Config, v: AppleCheck, tx: A.TransactionInfo) {
    && v.signedTransaction != "" && cfg.verifier.transaction(v.signedTransaction) == Some(tx)
    && tx.bundleID == cfg.bundleID && MapEnvironment(tx.environment) == cfg.expectedEnv
    && IsSupportedProduct(tx.productID)
    && (!cfg.hasAppleAPI || v.reply == A.Failed(A.ApiUnavailable)) && v.fault == NoFault
  }

  /** Such a verification, of the purchase the opening notice is about. */
  predicate Verifies(cfg: Config, x: AppleInput, v: AppleCheck, tx: A.TransactionInfo) {
    PassesChecks(cfg, v, tx) && tx.originalTransactionID == x.tx.originalTransactionID && v.freshID != x.d.freshID
  }

  lemma VerificationFollows(cfg: Config, x: AppleInput, v: AppleCheck, tx: A.TransactionInfo)
    requires Opens(cfg, x) && Verifies(cfg, x, v, tx)
    ensures var job := AppleCheckPlan(cfg, v);
            && job.Check? && JobKey(job) == ByTransaction(Apple, x.tx.originalTransactionID)
            && NewIDs(job) == {v.freshID} && Overwrites(cfg.expectedEnv, job, Opened(cfg, x))
            && Overwritten(job, Opened(cfg, x)).lastEventAt == Some(UnixMilli(x.n.signedDate))
            && Overwritten(job, Opened(cfg, x)).status == Active
  {
    AppleChecksAreSound(cfg, v);
  }

  /** The same with a verification that looked the row up before the later notice committed. */
  lemma VerificationTurnsClockBack(cfg: Config, x: AppleInput, later: AppleInput, v: AppleCheck, tx: A.TransactionInfo,
      zero: TxID, one: TxID, two: TxID)
    requires Opens(cfg, x) && Follows(cfg, x, later) && Verifies(cfg, x, v, tx) && one != two
    requires later.n.notificationType in {"DID_RENEW", "REFUND"} && x.n.signedDate < later.n.signedDate
    requires v.freshID != later.d.freshID
    ensures var opening := Overlap(zero, ApplePlan(cfg, x.d), one, ApplePlan(cfg, later.d), two, AppleCheckPlan(cfg, v));
            && StartsOnly(opening + Finish(two), {ApplePlan(cfg, x.d), ApplePlan(cfg, later.d), AppleCheckPlan(cfg, v)})
            && TurnsClockBack(opening, Finish(two), x.d.freshID,
                              if later.n.notificationType == "REFUND" then Revoked else Active, Active)
  {
    OpensAndFollows(cfg, x, later);
    VerificationFollows(cfg, x, v, tx);
    OverlapTurnsClockBack(cfg.expectedEnv, ApplePlan(cfg, x.d), ApplePlan(cfg, later.d), AppleCheckPlan(cfg, v),
                          Opened(cfg, x), zero, one, two);
  }

  /** Revoked is not terminal for verifications: for every revoked App Store row, a verification with the API
      absent or down, of an unexpired transaction, makes the row active, with access at that moment. */
  lemma VerificationRevives(cfg: Config, s: Store, v: AppleCheck, tx: A.TransactionInfo)
    requires Good(cfg.expectedEnv, s.rows) && PassesChecks(cfg, v, tx)
    requires StatusOf(Find(s.rows, ByTransaction(Apple, tx.originalTransactionID))) == Revoked
    requires 0 < tx.expiresDate && v.now < UnixMilli(tx.expiresDate)
    ensures var key := ByTransaction(Apple, tx.originalTransactionID);
            var after := Find(Perform(s, AppleCheckPlan(cfg, v)).store.rows, key);
            && after.Some? && after.value.status == Active && after.value.HasActiveAccess(v.now)
            && !IsLawful(Find(s.rows, key), after)
  {
    AppleChecksAreSound(cfg, v);
    var p := ApplePurchase(tx, Active, true, MapEnvironment(tx.environment), v);
    assert AppleCheckPlan(cfg, v) == Check(p, NoFault);
    VerificationSets(cfg.expectedEnv, s, p, NoFault);
  }

  /** An App Store delivery that names a user brings a row of theirs back after their account is deleted: the
      purchase was theirs, so the deletion takes its row, and the delivery makes it known again. */
  lemma DeletedAccountComesBack(cfg: Config, s: Store, x: AppleInput, user: UUID)
    requires Good(cfg.expectedEnv, s.rows) && Opens(cfg, x) && TokenUser(cfg, x.tx.appAccountToken) == Some(user)
    requires EventKey(Apple, x.n.notificationUUID) !in s.events && x.d.freshID !in s.rows
    requires Find(s.rows, ByTransaction(Apple, x.tx.originalTransactionID)).Some?
    requires Find(s.rows, ByTransaction(Apple, x.tx.originalTransactionID)).value.userID == user
    ensures !HasRows(Run(s, [Forget(user, false)]).rows, user)
    ensures HasRows(Run(s, [Forget(user, false), ApplePlan(cfg, x.d)]).rows, user)
  {
    var job, deleted := ApplePlan(cfg, x.d), Perform(s, Forget(user, false)).store;
    assert Run(s, [Forget(user, false)]) == deleted;
    RunOfTwo(s, Forget(user, false), job);
    ApplePlanOf(cfg, x);
    AppleHooksAreSound(cfg, x.d);
    PerformKeepsGood(cfg.expectedEnv, s, Forget(user, false));
    DeletionTakesTheRow(s.rows, user, ByTransaction(Apple, x.tx.originalTransactionID));
    WebhookGivesRow(cfg.expectedEnv, deleted, job, user);
  }
}
