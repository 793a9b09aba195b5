/** From what a store sends to what the user is answered: deliveries and verifications on one side, the row,
    the read after them and its entitlement on the other. */
module EndToEnd {
  import opened Wrappers
  import opened Domain
  import opened Repository
  import opened Jobs
  import opened Plans
  import opened Service
  import opened Invariants
  import opened WebhookRuns
  import opened Lifecycle
  import opened Ownership
  import opened ServiceRuns
  import opened StatusMapping
  import opened Notices
  import opened Access
  import A = AppleStore
  import G = GooglePlay
  import R = Reconciliation

  /** The row a delivery leaves, as its change says. */
  predicate Carries(row: Row, ch: Change) {
    row.status == ch.status && row.expiresAt == ch.expiresAt && row.autoRenew == Some(ch.autoRenew)
    && row.environment == Some(ch.environment) && row.updatedAt == ch.now
  }

  lemma EffectCarries(found: Option<Row>, ch: Change)
    requires !HookEffect(found, ch).Keep?
    ensures RowAfter(found, HookEffect(found, ch)).Some?
    ensures Carries(RowAfter(found, HookEffect(found, ch)).value, ch)
  {
  }

  /** A row newer than all others of the store is the latest of its owner, and the only one. */
  lemma NewestIsRead(allowlist: set<UUID>, s: Store, row: Row, readAt: Time, read: Answer)
    requires row.id in s.rows && s.rows[row.id] == row
    requires forall id :: id in s.rows && id != row.id ==> s.rows[id].updatedAt < row.updatedAt
    requires MayRead(allowlist, s, row.userID, readAt, false, read)
    ensures read.result == Ok(Some(row))
    ensures read.entitlement == Some(Pro)
            <==> row.userID in allowlist || Grants(row.status, row.expiresAt, readAt)
  {
    assert s.rows[row.id].updatedAt <= read.result.value.value.updatedAt;
  }

  /** The row of a purchase after an applied delivery about it: as the change says, and the newest. */
  lemma AppliedIsNewest(env: Environment, s: Store, job: Job)
    requires Good(env, s.rows) && Sound(env, job) && job.Hook?
    requires AppliedChange(s, job, job.change.key).Some? && OlderThan(s, job.change.now)
    ensures var after := Perform(s, job).store;
            var found := Find(after.rows, job.change.key);
            && found.Some? && Carries(found.value, job.change)
            && found.value.id in after.rows && after.rows[found.value.id] == found.value
            && forall id :: id in after.rows && id != found.value.id ==> after.rows[id].updatedAt < found.value.updatedAt
  {
    var ch := job.change;
    FindAnswers(s.rows, ch.key);
    HookEffectIsWellFormed(env, Find(s.rows, ch.key), ch);
    AppliedMoves(env, s, job, ch.key);
    EffectCarries(Find(s.rows, ch.key), ch);
    HookOutcome(env, s, job.event, ch, job.fault);
    FindAnswers(Perform(s, job).store.rows, ch.key);
  }

  /** Whoever the purchase belongs to after an applied delivery reads it back, and is pro exactly if listed or if
      the change grants access. */
  lemma DeliveryThenRead(env: Environment, allowlist: set<UUID>, s: Store, job: Job, readAt: Time, read: Answer)
    requires Good(env, s.rows) && Sound(env, job) && job.Hook?
    requires AppliedChange(s, job, job.change.key).Some? && OlderThan(s, job.change.now)
    requires Find(Perform(s, job).store.rows, job.change.key).Some?
    requires MayRead(allowlist, Perform(s, job).store, Find(Perform(s, job).store.rows, job.change.key).value.userID,
                     readAt, false, read)
    ensures var row := Find(Perform(s, job).store.rows, job.change.key).value;
            && read.result == Ok(Some(row)) && Carries(row, job.change)
            && (read.entitlement == Some(Pro)
                <==> row.userID in allowlist || Grants(job.change.status, job.change.expiresAt, readAt))
  {
    AppliedIsNewest(env, s, job);
    var after := Perform(s, job).store;
    NewestIsRead(allowlist, after, Find(after.rows, job.change.key).value, readAt, read);
  }

  /** The same on the service: a delivery, and then a read by the owner of the purchase. */
  method DeliverThenRead(svc: SubscriptionService, request: Request, owner: UUID, readAt: Time)
    returns (answer: Answer, read: Answer)
    requires Good(svc.cfg.expectedEnv, svc.repo.rows) && (request.AppleWebhook? || request.GoogleWebhook?)
    requires var s, job := svc.repo.Contents(), Plan(svc.cfg, request);
             && job.Hook? && AppliedChange(s, job, job.change.key).Some? && OlderThan(s, job.change.now)
             && Find(Perform(s, job).store.rows, job.change.key).Some?
             && owner == Find(Perform(s, job).store.rows, job.change.key).value.userID
    modifies svc.repo
    ensures var job := Plan(svc.cfg, request);
            && answer == Answer(Ok(None), None)
            && read.result.Ok? && read.result.value.Some? && Carries(read.result.value.value, job.change)
            && (read.entitlement == Some(Pro)
                <==> owner in svc.allowlist || Grants(job.change.status, job.change.expiresAt, readAt))
  {
    ghost var s, job := svc.repo.Contents(), Plan(svc.cfg, request);
    PlanIsSound(svc.cfg, request);
    HookOutcome(svc.cfg.expectedEnv, s, job.event, job.change, job.fault);
    answer := Handle(svc, request);
    read := ServiceRuns.Read(svc, owner, readAt, false);
    DeliveryThenRead(svc.cfg.expectedEnv, svc.allowlist, s, job, readAt, read);
  }

  // App Store.

  /** What an App Store change grants is what the notification grants. */
  lemma AppleGrantsExactly(cfg: Config, d: AppleDelivery, n: A.NotificationPayload, tx: A.TransactionInfo,
      renewal: Option<A.RenewalInfo>, t: Time)
    requires Decodes(cfg, d, n, tx, renewal) && IsOurs(cfg, tx) && ChangesIt(n, renewal)
    ensures ApplePlan(cfg, d).Hook?
    ensures var ch := ApplePlan(cfg, d).change;
            Grants(ch.status, ch.expiresAt, t) <==> AppleGrants(n, renewal, InMillis(tx.expiresDate), d.now, t)
  {
    AppleChangeExactly(cfg, d, n, tx, renewal);
    if renewal.Some? {
      TimesAreRight(renewal.value.gracePeriodExpiresDate, d.now);
    }
  }

  /** A refund or a revocation that is news, not late, and about a row that is not revoked yet, revokes it: no
      renewal, and no access but by the list. */
  lemma RevocationReachesTheRow(cfg: Config, allowlist: set<UUID>, s: Store, d: AppleDelivery,
      n: A.NotificationPayload, tx: A.TransactionInfo, renewal: Option<A.RenewalInfo>, readAt: Time, read: Answer)
    requires Decodes(cfg, d, n, tx, renewal) && IsOurs(cfg, tx) && n.notificationType in {"REFUND", "REVOKE"}
    requires Good(cfg.expectedEnv, s.rows) && IsApplicable(s, d, n, tx) && d.freshID !in s.rows && OlderThan(s, d.now)
    ensures var key := ByTransaction(Apple, tx.originalTransactionID);
            var after := Perform(s, ApplePlan(cfg, d)).store;
            var row := Find(after.rows, key);
            && row.Some? && row.value.status == Revoked && row.value.autoRenew == Some(false)
            && row.value.userID == Find(s.rows, key).value.userID
            && (MayRead(allowlist, after, row.value.userID, readAt, false, read) ==>
                  read.result == Ok(row) && (read.entitlement == Some(Pro) <==> row.value.userID in allowlist))
  {
    NoticeReachesTheRow(cfg, s, d, n, tx, renewal);
    var job := ApplePlan(cfg, d);
    var row := Find(Perform(s, job).store.rows, job.change.key).value;
    if MayRead(allowlist, Perform(s, job).store, row.userID, readAt, false, read) {
      DeliveryThenRead(cfg.expectedEnv, allowlist, s, job, readAt, read);
    }
  }

  /** A new event about an owned row that is not revoked, not before the row's clock, with no failing call. */
  ghost predicate IsApplicable(s: Store, d: AppleDelivery, n: A.NotificationPayload, tx: A.TransactionInfo) {
    var found := Find(s.rows, ByTransaction(Apple, tx.originalTransactionID));
    && d.fault == NoFault && EventKey(Apple, n.notificationUUID) !in s.events
    && found.Some? && found.value.status != Revoked && found.value.userID != NIL_UUID
    && !Before(if n.signedDate > 0 then InMillis(n.signedDate) else InMillis(tx.signedDate), found.value.lastEventAt)
  }

  /** Refunds, revocations, and purchases and renewals that do not shorten the expiry, reach every such row. */
  lemma NoticeReachesTheRow(cfg: Config, s: Store, d: AppleDelivery, n: A.NotificationPayload, tx: A.TransactionInfo,
      renewal: Option<A.RenewalInfo>)
    requires Decodes(cfg, d, n, tx, renewal) && IsOurs(cfg, tx)
    requires Good(cfg.expectedEnv, s.rows) && IsApplicable(s, d, n, tx) && d.freshID !in s.rows
    requires n.notificationType in {"REFUND", "REVOKE"}
             || (n.notificationType in {"SUBSCRIBED", "DID_RENEW"}
                 && !Before(InMillis(tx.expiresDate),
                            Find(s.rows, ByTransaction(Apple, tx.originalTransactionID)).value.expiresAt))
    ensures var key := ByTransaction(Apple, tx.originalTransactionID);
            var job := ApplePlan(cfg, d);
            var after := Find(Perform(s, job).store.rows, key);
            && job.Hook? && Sound(cfg.expectedEnv, job) && job.change.key == key && job.change.now == d.now
            && AppliedChange(s, job, key) == Some(job.change)
            && after.Some? && Carries(after.value, job.change) && after.value.userID == Find(s.rows, key).value.userID
            && job.change.status == (if n.notificationType in {"REFUND", "REVOKE"} then Revoked else Active)
            && (job.change.autoRenew <==> n.notificationType in {"SUBSCRIBED", "DID_RENEW"})
            && job.change.expiresAt == InMillis(tx.expiresDate)
  {
    var key := ByTransaction(Apple, tx.originalTransactionID);
    var job := ApplePlan(cfg, d);
    AppleChangeExactly(cfg, d, n, tx, renewal);
    AppleHooksAreSound(cfg, d);
    TransitionsExactly(Find(s.rows, key).value.status, job.change.status);
    FindAnswers(s.rows, key);
    AppliedExactly(cfg.expectedEnv, s, job);
    AppliedMoves(cfg.expectedEnv, s, job, key);
    EffectsAreGuarded(cfg.expectedEnv, Find(s.rows, key), job.change);
  }

  /** So a purchase or renewal that is news, not late and does not shorten the expiry makes any row active again
      that is not revoked, and its owner pro until the expiry, or for good without one. */
  lemma RenewalReachesTheRow(cfg: Config, allowlist: set<UUID>, s: Store, d: AppleDelivery,
      n: A.NotificationPayload, tx: A.TransactionInfo, renewal: Option<A.RenewalInfo>, readAt: Time, read: Answer)
    requires Decodes(cfg, d, n, tx, renewal) && IsOurs(cfg, tx) && n.notificationType in {"SUBSCRIBED", "DID_RENEW"}
    requires Good(cfg.expectedEnv, s.rows) && IsApplicable(s, d, n, tx) && d.freshID !in s.rows && OlderThan(s, d.now)
    requires !Before(InMillis(tx.expiresDate),
                     Find(s.rows, ByTransaction(Apple, tx.originalTransactionID)).value.expiresAt)
    ensures var key := ByTransaction(Apple, tx.originalTransactionID);
            var after := Perform(s, ApplePlan(cfg, d)).store;
            var row := Find(after.rows, key);
            && row.Some? && row.value.status == Active && row.value.autoRenew == Some(true)
            && (MayRead(allowlist, after, row.value.userID, readAt, false, read) ==>
                  && read.result == Ok(row)
                  && (read.entitlement == Some(Pro)
                      <==> row.value.userID in allowlist || tx.expiresDate <= 0 || readAt < 1000000 * tx.expiresDate))
  {
    NoticeReachesTheRow(cfg, s, d, n, tx, renewal);
    var job := ApplePlan(cfg, d);
    var row := Find(Perform(s, job).store.rows, job.change.key).value;
    if MayRead(allowlist, Perform(s, job).store, row.userID, readAt, false, read) {
      DeliveryThenRead(cfg.expectedEnv, allowlist, s, job, readAt, read);
    }
  }

  /** Any App Store notification that is applied: its purchase's owner then reads pro exactly if listed or if the
      notification grants access. */
  lemma AppleNoticeThenRead(cfg: Config, allowlist: set<UUID>, s: Store, d: AppleDelivery, n: A.NotificationPayload,
      tx: A.TransactionInfo, renewal: Option<A.RenewalInfo>, readAt: Time, read: Answer)
    requires Decodes(cfg, d, n, tx, renewal) && IsOurs(cfg, tx) && ChangesIt(n, renewal)
    requires Good(cfg.expectedEnv, s.rows) && OlderThan(s, d.now)
    requires AppliedChange(s, ApplePlan(cfg, d), ByTransaction(Apple, tx.originalTransactionID)).Some?
    ensures var after := Perform(s, ApplePlan(cfg, d)).store;
            var found := Find(after.rows, ByTransaction(Apple, tx.originalTransactionID));
            && found.Some? && AppleStatusFits(found.value.status, n, renewal, d.now)
            && (MayRead(allowlist, after, found.value.userID, readAt, false, read) ==>
                  && read.result == Ok(found)
                  && (read.entitlement == Some(Pro)
                      <==> found.value.userID in allowlist
                           || AppleGrants(n, renewal, InMillis(tx.expiresDate), d.now, readAt)))
  {
    AppleChangeExactly(cfg, d, n, tx, renewal);
    AppleHooksAreSound(cfg, d);
    AppleGrantsExactly(cfg, d, n, tx, renewal, readAt);
    var job := ApplePlan(cfg, d);
    AppliedIsNewest(cfg.expectedEnv, s, job);
    var after := Perform(s, job).store;
    if MayRead(allowlist, after, Find(after.rows, job.change.key).value.userID, readAt, false, read) {
      DeliveryThenRead(cfg.expectedEnv, allowlist, s, job, readAt, read);
    }
  }

  // Google Play.

  /** The access a purchase grants at `t` under a kind of notice, told from the answer as sent. */
  predicate GoogleGrants(body: G.PurchaseV2, item: G.LineItem, expiry: Time, notificationType: int, t: Time) {
    var state := body.subscriptionState;
    var forGood, paid := expiry == ZERO_TIME, expiry != ZERO_TIME && t < expiry;
    !Notices.IsTakenBack(body, notificationType)
    && if state == "SUBSCRIPTION_STATE_ACTIVE" then paid || (forGood && item.autoRenewEnabled == Some(true))
       else if state == "SUBSCRIPTION_STATE_IN_GRACE_PERIOD" then paid || forGood
       else if state == "SUBSCRIPTION_STATE_CANCELED" then paid
       else state !in NAMED_STATES && notificationType !in {5, 13} && (paid || (forGood && notificationType != 3))
  }

  lemma GoogleGrantsExactly(status: Status, body: G.PurchaseV2, item: G.LineItem, expiry: Time, notificationType: int,
      now: Time, t: Time)
    requires GoogleStatusFits(status, body, item, expiry, notificationType, now) && now <= t
    ensures Grants(status, if expiry == ZERO_TIME then None else Some(expiry), t)
            <==> GoogleGrants(body, item, expiry, notificationType, t)
  {
  }

  /** Any Google Play notice that is applied: its purchase's owner then reads pro exactly if listed or if the
      purchase, as the API sent it, grants access. */
  lemma GoogleNoticeThenRead(cfg: Config, allowlist: set<UUID>, s: Store, d: GoogleDelivery, m: G.PubSubMessage,
      n: G.DeveloperNotification, sub: G.SubscriptionNotification, body: G.PurchaseV2, i: nat, expiry: Time, readAt: Time,
      read: Answer)
    requires Notifies(cfg, d, m, n, sub) && IsOfThisApp(cfg, n, sub) && sub.purchaseToken != "" && cfg.hasGoogleClient
    requires d.reply == G.Body(Some(body)) && IsAbout(cfg.parseRFC3339, "beebase_pro", body, i, expiry)
    requires Good(cfg.expectedEnv, s.rows) && OlderThan(s, d.now) && d.now <= readAt
    ensures var after := Perform(s, GooglePlan(cfg, d)).store;
            var found := Find(after.rows, ByToken(Google, sub.purchaseToken));
            AppliedChange(s, GooglePlan(cfg, d), ByToken(Google, sub.purchaseToken)).Some? ==>
              && found.Some?
              && GoogleStatusFits(found.value.status, body, body.lineItems[i], expiry, sub.notificationType, d.now)
              && found.value.autoRenew.Some?
              && GoogleRenewalFits(found.value.autoRenew.value, body, body.lineItems[i], sub.notificationType)
              && (MayRead(allowlist, after, found.value.userID, readAt, false, read) ==>
                    && read.result == Ok(found)
                    && (read.entitlement == Some(Pro)
                        <==> found.value.userID in allowlist
                             || GoogleGrants(body, body.lineItems[i], expiry, sub.notificationType, readAt)))
  {
    GoogleChangeExactly(cfg, d, m, n, sub, body, i, expiry);
    GoogleHooksAreSound(cfg, d);
    var job := GooglePlan(cfg, d);
    GoogleGrantsExactly(job.change.status, body, body.lineItems[i], expiry, sub.notificationType, d.now, readAt);
    if AppliedChange(s, job, job.change.key).Some? {
      AppliedIsNewest(cfg.expectedEnv, s, job);
      var after := Perform(s, job).store;
      if MayRead(allowlist, after, Find(after.rows, job.change.key).value.userID, readAt, false, read) {
        DeliveryThenRead(cfg.expectedEnv, allowlist, s, job, readAt, read);
      }
    }
  }

  // Verifications.

  /** A verification that gets through answers, and stores, what the purchase says, and is answered pro exactly
      if the user is listed or the purchase grants access. */
  lemma VerificationAnswers(env: Environment, allowlist: set<UUID>, s: Store, p: Purchase, fault: Fault)
    requires Good(env, s.rows) && SoundPurchase(env, p) && Perform(s, Check(p, fault)).reply.Ok?
    ensures var back := Perform(s, Check(p, fault)).reply.value;
            var stored := Find(Perform(s, Check(p, fault)).store.rows, p.key);
            && back.Some? && stored.Some? && back.value.userID == p.userID
            && stored.value == back.value.(userID := stored.value.userID)
            && stored.value.status == p.status && stored.value.expiresAt == p.expiresAt
            && stored.value.autoRenew == Some(p.autoRenew) && stored.value.environment == Some(p.environment)
            && stored.value.productID == p.productID && stored.value.updatedAt == p.now
            && (p.clearsCancellation ==> stored.value.cancelledAt == None)
            && (!p.clearsCancellation && Find(s.rows, p.key).Some? ==>
                  stored.value.cancelledAt == Find(s.rows, p.key).value.cancelledAt)
            && (p.transactionID.Some? ==> stored.value.transactionID == p.transactionID)
            && (EntitlementFor(allowlist, p.userID, back, p.now) == Pro
                <==> p.userID in allowlist || Grants(p.status, p.expiresAt, p.now))
  {
    VerificationIsFaithful(env, s, p, fault);
  }

  lemma PurchaseAnswered(env: Environment, allowlist: set<UUID>, s: Store, p: Purchase)
    requires Good(env, s.rows) && SoundPurchase(env, p) && p.freshID !in s.rows
    ensures var done := Perform(s, Check(p, NoFault));
            && done.reply.Ok? && done.reply.value.Some?
            && done.reply.value.value.status == p.status && done.reply.value.value.autoRenew == Some(p.autoRenew)
            && (EntitlementFor(allowlist, p.userID, done.reply.value, p.now) == Pro
                <==> p.userID in allowlist || Grants(p.status, p.expiresAt, p.now))
  {
    CheckOutcome(env, s, p, NoFault);
    VerificationAnswers(env, allowlist, s, p, NoFault);
  }

  predicate GoodUntil(expiresDate: int, now: Time) {
    expiresDate <= 0 || now < 1000000 * expiresDate
  }

  /** An Apple verification that comes to a purchase is answered with it. */
  lemma ApplePurchaseAnswered(cfg: Config, allowlist: set<UUID>, s: Store, d: AppleCheck, tx: A.TransactionInfo,
      status: Status, autoRenew: bool)
    requires Good(cfg.expectedEnv, s.rows) && d.fault == NoFault && d.freshID !in s.rows
    requires AppleCheckPlan(cfg, d).Check? && AppleCheckPlan(cfg, d).fault == NoFault
    requires IsPurchaseOf(AppleCheckPlan(cfg, d).purchase, cfg, d, tx, status, autoRenew) && status != Cancelled
    ensures var done := Perform(s, AppleCheckPlan(cfg, d));
            && done.reply.Ok? && done.reply.value.Some?
            && done.reply.value.value.status == status && done.reply.value.value.autoRenew == Some(autoRenew)
            && (AnswerTo(allowlist, VerifyApple(d), done.reply).entitlement == Some(Pro)
                <==> d.userID in allowlist || (status in {Active, GracePeriod} && GoodUntil(tx.expiresDate, d.now)))
  {
    AppleChecksAreSound(cfg, d);
    PurchaseAnswered(cfg.expectedEnv, allowlist, s, AppleCheckPlan(cfg, d).purchase);
  }

  /** Without the API, or with the API down, a verified transaction of this service is answered active and
      renewing, and pro as long as it is unexpired. */
  lemma AppleAloneAnswers(cfg: Config, allowlist: set<UUID>, s: Store, d: AppleCheck, tx: A.TransactionInfo)
    requires Good(cfg.expectedEnv, s.rows) && d.fault == NoFault && d.freshID !in s.rows
    requires d.signedTransaction != "" && cfg.verifier.transaction(d.signedTransaction) == Some(tx) && IsOurs(cfg, tx)
    requires !cfg.hasAppleAPI || d.reply == A.Failed(A.ApiUnavailable)
    ensures var done := Perform(s, AppleCheckPlan(cfg, d));
            && done.reply.Ok? && done.reply.value.Some?
            && done.reply.value.value.status == Active && done.reply.value.value.autoRenew == Some(true)
            && (AnswerTo(allowlist, VerifyApple(d), done.reply).entitlement == Some(Pro)
                <==> d.userID in allowlist || GoodUntil(tx.expiresDate, d.now))
  {
    AppleCheckExactly(cfg, d, tx);
    UnreconciledExactly(ContextOf(cfg), tx, d.reply);
    ApplePurchaseAnswered(cfg, allowlist, s, d, tx, Active, true);
  }

  /** A purchase verified against the App Store Server API is answered by the code of the selected candidate. */
  lemma AppleVerificationAnswers(cfg: Config, allowlist: set<UUID>, s: Store, d: AppleCheck, tx: A.TransactionInfo,
      response: A.SubscriptionResponse, i: nat)
    requires Good(cfg.expectedEnv, s.rows) && d.fault == NoFault && d.freshID !in s.rows
    requires d.signedTransaction != "" && cfg.verifier.transaction(d.signedTransaction) == Some(tx) && IsOurs(cfg, tx)
    requires cfg.hasAppleAPI && d.reply == A.Answered(response)
    requires response.environment == "" || IsOursIn(cfg, response.environment)
    requires R.IsEarliestLatest(ContextOf(cfg), tx, R.Flatten(response.data), i)
    ensures var c := R.Flatten(response.data)[i];
            var selected := cfg.verifier.transaction(c.signedTransactionInfo);
            var renewal := cfg.verifier.renewalInfo(c.signedRenewalInfo);
            var done := Perform(s, AppleCheckPlan(cfg, d));
            && selected.Some?
            && (done.reply.Ok? <==> 1 <= c.status <= 5 && (c.signedRenewalInfo == "" || renewal.Some?))
            && (done.reply.Err? ==> done == Performed(s, Err(ReconciliationFailed(A.ApiMalformed))))
            && (done.reply.Ok? ==>
                  && done.reply.value.Some? && CodeFits(done.reply.value.value.status, c.status)
                  && done.reply.value.value.autoRenew
                     == Some(if c.signedRenewalInfo == "" then c.status in {1, 4} else renewal.value.autoRenewStatus == 1)
                  && (AnswerTo(allowlist, VerifyApple(d), done.reply).entitlement == Some(Pro)
                      <==> d.userID in allowlist
                           || (c.status in {1, 4} && GoodUntil(selected.value.expiresDate, d.now))))
  {
    ReconciledExactly(ContextOf(cfg), tx, response, i);
    AppleCheckExactly(cfg, d, tx);
    var outcome := R.Outcome(ContextOf(cfg), tx, d.reply);
    if outcome.Ok? {
      ApplePurchaseAnswered(cfg, allowlist, s, d, outcome.value.transaction, outcome.value.status,
                            outcome.value.autoRenew);
    }
  }

  /** A Google verification with a usable answer is answered as the API sent the purchase. */
  lemma GoogleVerificationAnswers(cfg: Config, allowlist: set<UUID>, s: Store, d: GoogleCheck, body: G.PurchaseV2,
      i: nat, expiry: Time)
    requires Good(cfg.expectedEnv, s.rows) && d.fault == NoFault && d.freshID !in s.rows
    requires d.purchaseToken != "" && cfg.hasGoogleClient
    requires d.packageName != "" || cfg.googlePackageName != "" || cfg.clientPackageName != ""
    requires d.reply == G.Body(Some(body))
    requires IsAbout(cfg.parseRFC3339, if d.subscriptionID == "" then "beebase_pro" else d.subscriptionID, body, i, expiry)
    ensures var done := Perform(s, GoogleCheckPlan(cfg, d));
            && done.reply.Ok? && done.reply.value.Some?
            && GoogleStatusFits(done.reply.value.value.status, body, body.lineItems[i], expiry, 0, d.now)
            && done.reply.value.value.autoRenew.Some?
            && GoogleRenewalFits(done.reply.value.value.autoRenew.value, body, body.lineItems[i], 0)
            && (AnswerTo(allowlist, VerifyGoogle(d), done.reply).entitlement == Some(Pro)
                <==> d.userID in allowlist || GoogleGrants(body, body.lineItems[i], expiry, 0, d.now))
  {
    GoogleCheckExactly(cfg, d);
    GooglePurchaseExactly(cfg, d, body, i, expiry);
    GoogleChecksAreSound(cfg, d);
    var p := GoogleCheckPlan(cfg, d).purchase;
    PurchaseAnswered(cfg.expectedEnv, allowlist, s, p);
    GoogleGrantsExactly(p.status, body, body.lineItems[i], expiry, 0, d.now, d.now);
  }
}
