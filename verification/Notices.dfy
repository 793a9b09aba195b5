/** What every delivery and every verification comes to, told from what the stores send: their words, their
    numbers and the configuration, by literal. */
module Notices {
  import opened Wrappers
  import opened Domain
  import opened Repository
  import opened StatusMapping
  import opened Jobs
  import opened Plans
  import A = AppleStore
  import G = GooglePlay
  import R = Reconciliation

  predicate IsOursIn(cfg: Config, environment: string) {
    SpellsProduction(environment) <==> cfg.expectedEnv == Production
  }

  /** The transaction is of this service's bundle and environment, and of one of the two products. */
  predicate IsOurs(cfg: Config, tx: A.TransactionInfo) {
    tx.bundleID == cfg.bundleID && IsOursIn(cfg, tx.environment)
    && tx.productID in {"beebase_pro_monthly", "beebase_pro_yearly"}
  }

  function InMillis(millis: int): Option<Time> {
    if millis <= 0 then None else Some(1000000 * millis)
  }

  // App Store notifications.

  /** The delivery decodes to a notification, a transaction, and a renewal record if it carries one. */
  predicate Decodes(cfg: Config, d: AppleDelivery, n: A.NotificationPayload, tx: A.TransactionInfo,
      renewal: Option<A.RenewalInfo>)
  {
    && d.signedPayload != "" && cfg.verifier.notification(d.signedPayload) == Some(n) && n.notificationUUID != ""
    && n.signedTransactionInfo != "" && cfg.verifier.transaction(n.signedTransactionInfo) == Some(tx)
    && (if n.signedRenewalInfo == "" then renewal == None
        else renewal.Some? && cfg.verifier.renewalInfo(n.signedRenewalInfo) == renewal)
  }

  /** The delivery carries a notification but no transaction. */
  predicate DecodesBare(cfg: Config, d: AppleDelivery, n: A.NotificationPayload) {
    && d.signedPayload != "" && cfg.verifier.notification(d.signedPayload) == Some(n) && n.notificationUUID != ""
    && n.signedTransactionInfo == ""
  }

  predicate SaysOff(n: A.NotificationPayload, renewal: Option<A.RenewalInfo>) {
    n.subtype == "AUTO_RENEW_DISABLED" || (renewal.Some? && renewal.value.autoRenewStatus == 0)
  }

  predicate SaysOn(n: A.NotificationPayload, renewal: Option<A.RenewalInfo>) {
    n.subtype == "AUTO_RENEW_ENABLED" || (renewal.Some? && renewal.value.autoRenewStatus == 1)
  }

  predicate InGrace(n: A.NotificationPayload, renewal: Option<A.RenewalInfo>, now: Time) {
    n.subtype == "GRACE_PERIOD" || (renewal.Some? && 1000000 * renewal.value.gracePeriodExpiresDate > now)
  }

  /** The notification is of a kind that changes a subscription. */
  predicate ChangesIt(n: A.NotificationPayload, renewal: Option<A.RenewalInfo>) {
    || n.notificationType in {"SUBSCRIBED", "DID_RENEW", "DID_FAIL_TO_RENEW", "GRACE_PERIOD_EXPIRED", "EXPIRED",
                              "REFUND", "REVOKE"}
    || (n.notificationType == "DID_CHANGE_RENEWAL_STATUS" && (SaysOff(n, renewal) || SaysOn(n, renewal)))
  }

  /** What the status says about the notification, for every status. */
  predicate AppleStatusFits(status: Status, n: A.NotificationPayload, renewal: Option<A.RenewalInfo>, now: Time) {
    var changing := n.notificationType == "DID_CHANGE_RENEWAL_STATUS";
    var failing := n.notificationType == "DID_FAIL_TO_RENEW";
    && (status == Active <==> n.notificationType in {"SUBSCRIBED", "DID_RENEW"} || (changing && !SaysOff(n, renewal)))
    && (status == Cancelled <==> changing && SaysOff(n, renewal))
    && (status == GracePeriod <==> failing && InGrace(n, renewal, now))
    && (status == BillingRetry <==> failing && !InGrace(n, renewal, now))
    && (status == Expired <==> n.notificationType in {"GRACE_PERIOD_EXPIRED", "EXPIRED"})
    && (status == Revoked <==> n.notificationType in {"REFUND", "REVOKE"})
  }

  lemma AppleStatusExactly(n: A.NotificationPayload, renewal: Option<A.RenewalInfo>, now: Time)
    ensures var mapped := MapAppleStatus(n.notificationType, n.subtype, renewal, now);
            && (mapped.Some? <==> ChangesIt(n, renewal))
            && (mapped.Some? ==> AppleStatusFits(mapped.value.0, n, renewal, now)
                                 && (mapped.value.1 <==> mapped.value.0 == Active))
  {
    if renewal.Some? {
      TimesAreRight(renewal.value.gracePeriodExpiresDate, now);
    }
  }

  /** The event a notification is recorded as. */
  function AppleEventOf(n: A.NotificationPayload, now: Time): Event {
    Event(EventKey(Apple, n.notificationUUID), AppleType(n.notificationType), now)
  }

  /** A decoded delivery is ignored if it is not of this service, noted if its kind changes nothing, and
      otherwise a change. */
  lemma AppleDeliveryExactly(cfg: Config, d: AppleDelivery, n: A.NotificationPayload, tx: A.TransactionInfo,
      renewal: Option<A.RenewalInfo>)
    requires Decodes(cfg, d, n, tx, renewal)
    ensures var plan := ApplePlan(cfg, d);
            && (plan == Ignore <==> !IsOurs(cfg, tx))
            && (plan == Note(AppleEventOf(n, d.now), d.fault) <==> IsOurs(cfg, tx) && !ChangesIt(n, renewal))
            && (plan.Hook? <==> IsOurs(cfg, tx) && ChangesIt(n, renewal))
  {
    EnvironmentExactly(tx.environment);
    AppleStatusExactly(n, renewal, d.now);
  }

  /** What the change is, column by column. */
  lemma AppleChangeExactly(cfg: Config, d: AppleDelivery, n: A.NotificationPayload, tx: A.TransactionInfo,
      renewal: Option<A.RenewalInfo>)
    requires Decodes(cfg, d, n, tx, renewal) && IsOurs(cfg, tx) && ChangesIt(n, renewal)
    ensures ApplePlan(cfg, d).Hook?
    ensures var Hook(event, ch, fault) := ApplePlan(cfg, d);
            && event == AppleEventOf(n, d.now) && fault == d.fault
            && ch.key == ByTransaction(Apple, tx.originalTransactionID)
            && (forall user :: ch.user == Some(user) <==>
                  tx.appAccountToken != "" && cfg.parseUUID(tx.appAccountToken) == Some(user) && user != 0)
            && ch.productID == Some(tx.productID) && ch.transactionID == Some(tx.transactionID)
            && AppleStatusFits(ch.status, n, renewal, d.now) && (ch.autoRenew <==> ch.status == Active)
            && ch.environment == cfg.expectedEnv && ch.expiresAt == InMillis(tx.expiresDate)
            && ch.eventAt == (if n.signedDate > 0 then InMillis(n.signedDate) else InMillis(tx.signedDate))
            && ch.cancelledAt == None && ch.now == d.now && ch.freshID == d.freshID
  {
    EnvironmentExactly(tx.environment);
    AppleStatusExactly(n, renewal, d.now);
  }

  /** Everything else is noted, if it names its event, or refused. */
  lemma OtherAppleDeliveries(cfg: Config, d: AppleDelivery)
    ensures forall n :: DecodesBare(cfg, d, n) ==> ApplePlan(cfg, d) == Note(AppleEventOf(n, d.now), d.fault)
    ensures (forall n :: !DecodesBare(cfg, d, n)) && (forall n, tx, renewal :: !Decodes(cfg, d, n, tx, renewal))
            <==> ApplePlan(cfg, d) == Refuse(InvalidWebhookPayload)
  {
    var n := cfg.verifier.notification(d.signedPayload);
    if d.signedPayload != "" && n.Some? && n.value.notificationUUID != "" {
      if n.value.signedTransactionInfo == "" {
        assert DecodesBare(cfg, d, n.value);
      } else {
        var tx := cfg.verifier.transaction(n.value.signedTransactionInfo);
        var renewal := if n.value.signedRenewalInfo == "" then None
                       else cfg.verifier.renewalInfo(n.value.signedRenewalInfo);
        if tx.Some? && (n.value.signedRenewalInfo == "" || renewal.Some?) {
          assert Decodes(cfg, d, n.value, tx.value, renewal);
        }
      }
    }
  }

  // Google Play notifications and purchases.

  const NAMED_STATES: set<string> := {
    "SUBSCRIPTION_STATE_ACTIVE", "SUBSCRIPTION_STATE_IN_GRACE_PERIOD", "SUBSCRIPTION_STATE_ON_HOLD",
    "SUBSCRIPTION_STATE_PAUSED", "SUBSCRIPTION_STATE_CANCELED", "SUBSCRIPTION_STATE_EXPIRED"
  }

  /** The developer's cancellation is the one that counts, or the notice is of a revocation. */
  predicate IsTakenBack(body: G.PurchaseV2, notificationType: int) {
    notificationType == 12 || CancelledByDeveloper(body.canceledStateContext)
  }

  predicate HasLapsed(expiry: Time, now: Time) {
    expiry != ZERO_TIME && expiry < now
  }

  /** What the status says about the purchase as sent, for every status: the state decides, and for a state
      without a name the kind of notice does. */
  predicate GoogleStatusFits(status: Status, body: G.PurchaseV2, item: G.LineItem, expiry: Time, notificationType: int,
      now: Time)
  {
    var taken := IsTakenBack(body, notificationType);
    var state := body.subscriptionState;
    var renews := item.autoRenewEnabled == Some(true);
    var unnamed := state !in NAMED_STATES;
    && (status == Revoked <==> taken)
    && (status == Active <==>
          !taken && ((state == "SUBSCRIPTION_STATE_ACTIVE" && renews)
                     || (unnamed && notificationType !in {3, 5, 6, 13})))
    && (status == GracePeriod <==>
          !taken && (state == "SUBSCRIPTION_STATE_IN_GRACE_PERIOD" || (unnamed && notificationType == 6)))
    && (status == BillingRetry <==>
          !taken && (state in {"SUBSCRIPTION_STATE_ON_HOLD", "SUBSCRIPTION_STATE_PAUSED"}
                     || (unnamed && notificationType == 5)))
    && (status == Cancelled <==>
          !taken && ((state == "SUBSCRIPTION_STATE_ACTIVE" && !renews)
                     || (state == "SUBSCRIPTION_STATE_CANCELED" && !HasLapsed(expiry, now))
                     || (unnamed && notificationType == 3)))
    && (status == Expired <==>
          !taken && (state == "SUBSCRIPTION_STATE_EXPIRED"
                     || (state == "SUBSCRIPTION_STATE_CANCELED" && HasLapsed(expiry, now))
                     || (unnamed && notificationType == 13)))
  }

  predicate GoogleRenewalFits(autoRenew: bool, body: G.PurchaseV2, item: G.LineItem, notificationType: int) {
    var renews := item.autoRenewEnabled == Some(true);
    autoRenew <==>
      !IsTakenBack(body, notificationType)
      && ((renews && body.subscriptionState in {"SUBSCRIPTION_STATE_ACTIVE", "SUBSCRIPTION_STATE_IN_GRACE_PERIOD"})
          || (body.subscriptionState !in NAMED_STATES
              && (notificationType in {1, 2, 4, 7} || (renews && notificationType !in {3, 5, 6, 13}))))
  }

  /** The state a word of the API stands for, for every state. */
  lemma StatesExactly(raw: string)
    ensures var state := G.MapV2State(raw);
            && (state == G.StateActive <==> raw == "SUBSCRIPTION_STATE_ACTIVE")
            && (state == G.StateInGracePeriod <==> raw == "SUBSCRIPTION_STATE_IN_GRACE_PERIOD")
            && (state == G.StateOnHold <==> raw == "SUBSCRIPTION_STATE_ON_HOLD")
            && (state == G.StatePaused <==> raw == "SUBSCRIPTION_STATE_PAUSED")
            && (state == G.StateCanceled <==> raw == "SUBSCRIPTION_STATE_CANCELED")
            && (state == G.StateExpired <==> raw == "SUBSCRIPTION_STATE_EXPIRED")
            && (state == G.StatePending <==> raw == "SUBSCRIPTION_STATE_PENDING")
  {
  }

  /** The purchase is what this line item of the answer says. */
  predicate IsOfItem(p: G.Purchase, body: G.PurchaseV2, item: G.LineItem, expiry: Time) {
    && p.state == G.MapV2State(body.subscriptionState) && p.expiryTime == expiry
    && (p.autoRenewing <==> item.autoRenewEnabled == Some(true))
    && (p.cancellationReason == G.DeveloperInitiated <==> CancelledByDeveloper(body.canceledStateContext))
  }

  lemma GoogleStatusExactly(p: G.Purchase, body: G.PurchaseV2, item: G.LineItem, expiry: Time, notificationType: int,
      now: Time)
    requires IsOfItem(p, body, item, expiry)
    ensures var (status, autoRenew) := MapGoogleStatus(notificationType, p, now);
            && GoogleStatusFits(status, body, item, expiry, notificationType, now)
            && GoogleRenewalFits(autoRenew, body, item, notificationType)
  {
    StatesExactly(body.subscriptionState);
  }

  /** The line item an answer is about, and its expiry. */
  predicate IsAbout(parse: G.TimeParser, wanted: string, body: G.PurchaseV2, i: nat, expiry: Time) {
    G.IsRelevant(body.lineItems, wanted, i) && body.lineItems[i].expiryTime != ""
    && parse(body.lineItems[i].expiryTime) == Some(expiry)
  }

  function ProductOf(item: G.LineItem): string {
    if item.basePlanID.Some? && item.basePlanID.value != "" then item.productID + "_" + item.basePlanID.value
    else item.productID
  }

  function TextOf(s: string): Option<string> {
    if |s| > 0 then Some(s) else None
  }

  function UserCancelledAt(parse: G.TimeParser, c: Option<G.CanceledStateContext>): Option<Time> {
    if c.Some? && c.value.userInitiated.Some? && c.value.userInitiated.value != ""
    then parse(c.value.userInitiated.value) else None
  }

  /** A usable answer comes to one purchase, told from the answer. */
  lemma FetchedExactly(parse: G.TimeParser, defaultPackage: string, package: string, wanted: string, token: string,
      body: G.PurchaseV2, i: nat, expiry: Time)
    requires token != "" && (package != "" || defaultPackage != "") && IsAbout(parse, wanted, body, i, expiry)
    ensures var fetched := G.Fetched(parse, defaultPackage, package, wanted, token, G.Body(Some(body)));
            var item := body.lineItems[i];
            && fetched.Ok?
            && IsOfItem(fetched.value, body, item, expiry)
            && fetched.value.FullProductID() == ProductOf(item) && fetched.value.purchaseToken == token
            && fetched.value.latestOrderID == item.latestSuccessfulOrderID
            && fetched.value.cancelledAt == UserCancelledAt(parse, body.canceledStateContext)
            && (fetched.value.testPurchase <==> body.testPurchase)
  {
    var first := if wanted == "" then 0 else G.FirstOf(body.lineItems, wanted);
    assert G.IsRelevant(body.lineItems, wanted, first);
    assert first == i;
  }

  /** The delivery decodes to a notice about a subscription. */
  predicate Notifies(cfg: Config, d: GoogleDelivery, m: G.PubSubMessage, n: G.DeveloperNotification,
      sub: G.SubscriptionNotification)
  {
    d.payload != "" && cfg.parsePubSub(d.payload) == Some((m, n)) && !n.test && n.subscription == Some(sub)
  }

  /** The notice is of this service's package and of its one subscription. */
  predicate IsOfThisApp(cfg: Config, n: G.DeveloperNotification, sub: G.SubscriptionNotification) {
    && sub.subscriptionID == "beebase_pro"
    && (n.packageName == cfg.googlePackageName || (cfg.googlePackageName == "" && n.packageName == "com.beebase.production"))
    && n.packageName != ""
  }

  function GoogleEventOf(m: G.PubSubMessage, eventType: EventType, now: Time): Event {
    Event(EventKey(Google, m.messageID), eventType, now)
  }

  function ItemsOf(reply: G.ApiReply): seq<G.LineItem> {
    if reply.Body? && reply.purchase.Some? then reply.purchase.value.lineItems else []
  }

  /** What a notice about a subscription comes to, every outcome exactly. */
  lemma GoogleDeliveryExactly(cfg: Config, d: GoogleDelivery, m: G.PubSubMessage, n: G.DeveloperNotification,
      sub: G.SubscriptionNotification)
    requires Notifies(cfg, d, m, n, sub)
    ensures var plan := GooglePlan(cfg, d);
            var ours := IsOfThisApp(cfg, n, sub);
            var asks := ours && sub.purchaseToken != "" && cfg.hasGoogleClient;
            var items := ItemsOf(d.reply);
            var has := exists li :: li in items && li.productID == "beebase_pro";
            var usable := HasUsable(cfg.parseRFC3339, "beebase_pro", items);
            && (plan == Ignore <==> !ours)
            && (plan == Refuse(InvalidWebhookPayload) <==> ours && sub.purchaseToken == "")
            && (plan == Refuse(GoogleNotConfigured) <==> ours && sub.purchaseToken != "" && !cfg.hasGoogleClient)
            && (plan == Note(GoogleEventOf(m, UpstreamMissing(sub.notificationType), d.now), d.fault)
                <==> asks && (d.reply.Status404? || (items != [] && !has)))
            && (plan == Refuse(GoogleLookupFailed)
                <==> asks && (d.reply.OtherFailure? || (d.reply.Body? && (items == [] || (has && !usable)))))
            && (plan.Hook? <==> asks && usable)
  {
    G.FetchErrorsExactly(cfg.parseRFC3339, cfg.clientPackageName, n.packageName, "beebase_pro", sub.purchaseToken,
                         d.reply);
    HasItem(ItemsOf(d.reply));
  }

  lemma HasItem(items: seq<G.LineItem>)
    ensures (exists li :: li in items && li.productID == "beebase_pro")
            <==> exists i: nat :: G.IsRelevant(items, "beebase_pro", i)
  {
    var i := G.FirstOf(items, "beebase_pro");
    if i < |items| {
      assert G.IsRelevant(items, "beebase_pro", i) && items[i] in items;
    }
    if j: nat :| G.IsRelevant(items, "beebase_pro", j) {
      assert items[j] in items;
    }
  }

  lemma GooglePlanIs(cfg: Config, d: GoogleDelivery, m: G.PubSubMessage, n: G.DeveloperNotification,
      sub: G.SubscriptionNotification, p: G.Purchase)
    requires Notifies(cfg, d, m, n, sub) && IsOfThisApp(cfg, n, sub) && sub.purchaseToken != "" && cfg.hasGoogleClient
    requires G.Fetched(cfg.parseRFC3339, cfg.clientPackageName, n.packageName, "beebase_pro", sub.purchaseToken,
                       d.reply) == Ok(p)
    ensures GooglePlan(cfg, d) == Hook(GoogleEventOf(m, GoogleType(sub.notificationType), d.now),
                                       GoogleChange(cfg, m, n, sub, p, d.now), d.fault)
  {
  }

  /** The time of a notice: its own, else the time it was published. */
  function NoticeTime(cfg: Config, m: G.PubSubMessage, n: G.DeveloperNotification): Option<Time> {
    if n.eventTimeMillis > 0 then InMillis(n.eventTimeMillis)
    else if m.publishTime == "" then None
    else if cfg.parseRFC3339Nano(m.publishTime).Some? then cfg.parseRFC3339Nano(m.publishTime)
    else cfg.parseRFC3339(m.publishTime)
  }

  /** What the change of a notice is, column by column. */
  lemma GoogleChangeExactly(cfg: Config, d: GoogleDelivery, m: G.PubSubMessage, n: G.DeveloperNotification,
      sub: G.SubscriptionNotification, body: G.PurchaseV2, i: nat, expiry: Time)
    requires Notifies(cfg, d, m, n, sub) && IsOfThisApp(cfg, n, sub) && sub.purchaseToken != "" && cfg.hasGoogleClient
    requires d.reply == G.Body(Some(body)) && IsAbout(cfg.parseRFC3339, "beebase_pro", body, i, expiry)
    ensures GooglePlan(cfg, d).Hook?
    ensures var Hook(event, ch, fault) := GooglePlan(cfg, d);
            var item := body.lineItems[i];
            && event == GoogleEventOf(m, GoogleType(sub.notificationType), d.now) && fault == d.fault
            && ch.key == ByToken(Google, sub.purchaseToken) && ch.user == None
            && ch.productID == Some(ProductOf(item)) && ch.transactionID == TextOf(item.latestSuccessfulOrderID)
            && GoogleStatusFits(ch.status, body, item, expiry, sub.notificationType, d.now)
            && GoogleRenewalFits(ch.autoRenew, body, item, sub.notificationType)
            && ch.environment == (if body.testPurchase then Sandbox else Production)
            && ch.expiresAt == (if expiry == ZERO_TIME then None else Some(expiry))
            && ch.eventAt == NoticeTime(cfg, m, n)
            && ch.cancelledAt == UserCancelledAt(cfg.parseRFC3339, body.canceledStateContext) && ch.now == d.now
  {
    FetchedExactly(cfg.parseRFC3339, cfg.clientPackageName, n.packageName, "beebase_pro", sub.purchaseToken, body, i,
                   expiry);
    var p := G.Fetched(cfg.parseRFC3339, cfg.clientPackageName, n.packageName, "beebase_pro", sub.purchaseToken,
                       d.reply).value;
    GoogleStatusExactly(p, body, body.lineItems[i], expiry, sub.notificationType, d.now);
    assert ProductOf(body.lineItems[i]) != "";
    GooglePlanIs(cfg, d, m, n, sub, p);
  }

  /** Everything else is noted, if it is a test or about something else, or refused. */
  lemma OtherGoogleDeliveries(cfg: Config, d: GoogleDelivery)
    ensures d.payload == "" || cfg.parsePubSub(d.payload).None? ==> GooglePlan(cfg, d) == Refuse(InvalidWebhookPayload)
    ensures d.payload != "" && cfg.parsePubSub(d.payload).Some? ==>
              var (m, n) := cfg.parsePubSub(d.payload).value;
              && (n.test ==> GooglePlan(cfg, d) == Note(GoogleEventOf(m, TestNotification, d.now), d.fault))
              && (!n.test && n.subscription.None? ==>
                    GooglePlan(cfg, d) == Note(GoogleEventOf(m, NonSubscription, d.now), d.fault))
  {
  }

  // Verifications.

  /** The answer has an item of the wanted product, with an expiry that can be read. */
  ghost predicate HasUsable(parse: G.TimeParser, wanted: string, items: seq<G.LineItem>) {
    exists i: nat :: G.IsRelevant(items, wanted, i) && items[i].expiryTime != "" && parse(items[i].expiryTime).Some?
  }

  lemma FetchedOkExactly(parse: G.TimeParser, defaultPackage: string, package: string, wanted: string, token: string,
      reply: G.ApiReply)
    ensures G.Fetched(parse, defaultPackage, package, wanted, token, reply).Ok?
            <==> token != "" && (package != "" || defaultPackage != "") && HasUsable(parse, wanted, ItemsOf(reply))
  {
    G.FetchErrorsExactly(parse, defaultPackage, package, wanted, token, reply);
  }

  /** What a Google verification comes to: a purchase exactly if the answer is usable; which errors otherwise. */
  lemma GoogleCheckExactly(cfg: Config, d: GoogleCheck)
    ensures var wanted := if d.subscriptionID == "" then "beebase_pro" else d.subscriptionID;
            var package := if d.packageName == "" then cfg.googlePackageName else d.packageName;
            var plan := GoogleCheckPlan(cfg, d);
            && (plan.Check?
                <==> d.purchaseToken != "" && cfg.hasGoogleClient && (package != "" || cfg.clientPackageName != "")
                     && HasUsable(cfg.parseRFC3339, wanted, ItemsOf(d.reply)))
            && (plan == Refuse(GoogleNotConfigured) <==> d.purchaseToken != "" && !cfg.hasGoogleClient)
            && (plan.Check? || plan == Refuse(GoogleNotConfigured) || plan == Refuse(InvalidWebhookPayload))
  {
    var wanted := if d.subscriptionID == "" then "beebase_pro" else d.subscriptionID;
    var package := if d.packageName == "" then cfg.googlePackageName else d.packageName;
    FetchedOkExactly(cfg.parseRFC3339, cfg.clientPackageName, package, wanted, d.purchaseToken, d.reply);
  }

  lemma GooglePurchaseExactly(cfg: Config, d: GoogleCheck, body: G.PurchaseV2, i: nat, expiry: Time)
    requires GoogleCheckPlan(cfg, d).Check? && d.reply == G.Body(Some(body))
    requires IsAbout(cfg.parseRFC3339, if d.subscriptionID == "" then "beebase_pro" else d.subscriptionID, body, i, expiry)
    ensures var Check(p, fault) := GoogleCheckPlan(cfg, d);
            var item := body.lineItems[i];
            && fault == d.fault && p.key == ByToken(Google, d.purchaseToken) && p.userID == d.userID
            && p.productID == ProductOf(item) && p.transactionID == TextOf(item.latestSuccessfulOrderID)
            && GoogleStatusFits(p.status, body, item, expiry, 0, d.now)
            && GoogleRenewalFits(p.autoRenew, body, item, 0)
            && p.environment == (if body.testPurchase then Sandbox else Production)
            && p.expiresAt == (if expiry == ZERO_TIME then None else Some(expiry))
            && (p.clearsCancellation <==> p.status == Active) && p.now == d.now && p.freshID == d.freshID
  {
    var wanted := if d.subscriptionID == "" then "beebase_pro" else d.subscriptionID;
    var package := if d.packageName == "" then cfg.googlePackageName else d.packageName;
    FetchErrors(cfg, d);
    FetchedExactly(cfg.parseRFC3339, cfg.clientPackageName, package, wanted, d.purchaseToken, body, i, expiry);
    var p := G.Fetched(cfg.parseRFC3339, cfg.clientPackageName, package, wanted, d.purchaseToken, d.reply).value;
    GoogleStatusExactly(p, body, body.lineItems[i], expiry, 0, d.now);
    assert GoogleCheckPlan(cfg, d) == Check(GooglePurchase(p, wanted, d), d.fault);
    assert ProductOf(body.lineItems[i]) != "";
  }

  lemma FetchErrors(cfg: Config, d: GoogleCheck)
    requires GoogleCheckPlan(cfg, d).Check?
    ensures d.purchaseToken != ""
    ensures (if d.packageName == "" then cfg.googlePackageName else d.packageName) != "" || cfg.clientPackageName != ""
  {
    GoogleCheckExactly(cfg, d);
  }

  /** The status a code of the App Store Server API stands for. */
  predicate CodeFits(status: Status, code: int) {
    && (status == Active <==> code == 1)
    && (status == Expired <==> code == 2)
    && (status == BillingRetry <==> code == 3)
    && (status == GracePeriod <==> code == 4)
    && (status == Revoked <==> code == 5)
  }

  lemma CodesExactly(code: int)
    ensures MapAppleAPIStatus(code).Some? <==> 1 <= code <= 5
    ensures MapAppleAPIStatus(code).Some? ==> CodeFits(MapAppleAPIStatus(code).value, code)
  {
  }

  /** An answer about this environment is reconciled exactly if a candidate is selected, its code is one of the
      five, and the renewal record it carries, if any, can be read; status, renewal and transaction are that
      candidate's. */
  lemma ReconciledExactly(ctx: R.Context, local: A.TransactionInfo, response: A.SubscriptionResponse, i: nat)
    requires response.environment == "" || (SpellsProduction(response.environment) <==> ctx.expectedEnv == Production)
    requires R.IsEarliestLatest(ctx, local, R.Flatten(response.data), i)
    ensures var c := R.Flatten(response.data)[i];
            var outcome := R.Outcome(ctx, local, A.Answered(response));
            var renewal := ctx.verifier.renewalInfo(c.signedRenewalInfo);
            && (outcome.Ok? <==> 1 <= c.status <= 5 && (c.signedRenewalInfo == "" || renewal.Some?))
            && (outcome.Err? ==> outcome == Err(A.ApiMalformed))
            && (outcome.Ok? ==>
                  && ctx.verifier.transaction(c.signedTransactionInfo) == Some(outcome.value.transaction)
                  && CodeFits(outcome.value.status, c.status)
                  && (outcome.value.autoRenew
                      <==> if c.signedRenewalInfo == "" then c.status in {1, 4} else renewal.value.autoRenewStatus == 1))
  {
    R.ChoiceIs(ctx, local, R.Flatten(response.data), i);
    CodesExactly(R.Flatten(response.data)[i].status);
    if response.environment != "" {
      EnvironmentExactly(response.environment);
    }
  }

  /** The other answers: a failure stays what it is, another environment and an answer without a candidate of
      this purchase, bundle and environment are refused. */
  lemma UnreconciledExactly(ctx: R.Context, local: A.TransactionInfo, reply: A.ApiReply)
    ensures reply.Failed? ==> R.Outcome(ctx, local, reply) == Err(reply.error)
    ensures reply.Answered? ==>
              var elsewhere := reply.response.environment != ""
                               && !(SpellsProduction(reply.response.environment) <==> ctx.expectedEnv == Production);
              && (elsewhere ==> R.Outcome(ctx, local, reply) == Err(A.ApiEnvironment))
              && (!elsewhere && (forall c :: c in R.Flatten(reply.response.data) ==> !IsCandidate(ctx, local, c)) ==>
                    R.Outcome(ctx, local, reply) == Err(A.ApiMalformed))
  {
    if reply.Answered? {
      EnvironmentExactly(reply.response.environment);
      R.ReconciliationIsTrue(ctx, local, reply);
      forall c | c in R.Flatten(reply.response.data)
        ensures R.Judge(ctx, local, c) == R.Accepted <==> IsCandidate(ctx, local, c)
      {
        CandidatesExactly(ctx, local, c);
      }
    }
  }

  /** A signed candidate that verifies, of this purchase, bundle and environment. */
  predicate IsCandidate(ctx: R.Context, local: A.TransactionInfo, c: A.LastTransaction) {
    c.signedTransactionInfo != ""
    && match ctx.verifier.transaction(c.signedTransactionInfo)
       case None => false
       case Some(tx) =>
         tx.originalTransactionID == local.originalTransactionID && tx.bundleID == ctx.bundleID
         && (SpellsProduction(tx.environment) <==> ctx.expectedEnv == Production)
  }

  lemma CandidatesExactly(ctx: R.Context, local: A.TransactionInfo, c: A.LastTransaction)
    ensures R.Judge(ctx, local, c) == R.Accepted <==> IsCandidate(ctx, local, c)
  {
    var tx := ctx.verifier.transaction(c.signedTransactionInfo);
    if tx.Some? {
      EnvironmentExactly(tx.value.environment);
    }
  }

  /** What an Apple verification comes to, every outcome exactly: bundle, environment and product are checked in
      this order; without the API, or with the API down, the transaction itself counts as active and renewing. */
  lemma AppleCheckExactly(cfg: Config, d: AppleCheck, tx: A.TransactionInfo)
    requires d.signedTransaction != "" && cfg.verifier.transaction(d.signedTransaction) == Some(tx)
    ensures var plan := AppleCheckPlan(cfg, d);
            var outcome := R.Outcome(R.Context(cfg.verifier, cfg.bundleID, cfg.expectedEnv), tx, d.reply);
            var alone := !cfg.hasAppleAPI || outcome == Err(A.ApiUnavailable);
            && (plan == Refuse(BundleIDMismatch) <==> tx.bundleID != cfg.bundleID)
            && (plan == Refuse(InvalidWebhookPayload) <==> tx.bundleID == cfg.bundleID && !IsOursIn(cfg, tx.environment))
            && (plan == Refuse(UnsupportedProduct)
                <==> tx.bundleID == cfg.bundleID && IsOursIn(cfg, tx.environment) && !IsOurs(cfg, tx))
            && (forall e :: plan == Refuse(ReconciliationFailed(e)) <==> IsOurs(cfg, tx) && !alone && outcome == Err(e))
            && (plan.Check? <==> IsOurs(cfg, tx) && (alone || outcome.Ok?))
            && (plan.Check? && alone ==> IsPurchaseOf(plan.purchase, cfg, d, tx, Active, true))
            && (plan.Check? && !alone ==>
                  IsPurchaseOf(plan.purchase, cfg, d, outcome.value.transaction, outcome.value.status,
                               outcome.value.autoRenew))
  {
    EnvironmentExactly(tx.environment);
  }

  lemma OtherAppleChecks(cfg: Config, d: AppleCheck)
    ensures d.signedTransaction == "" || cfg.verifier.transaction(d.signedTransaction).None?
            ==> AppleCheckPlan(cfg, d) == Refuse(InvalidWebhookPayload)
  {
  }

  predicate IsPurchaseOf(p: Purchase, cfg: Config, d: AppleCheck, tx: A.TransactionInfo, status: Status, autoRenew: bool) {
    && p.key == ByTransaction(Apple, tx.originalTransactionID) && p.userID == d.userID && p.productID == tx.productID
    && p.transactionID == Some(tx.transactionID) && p.status == status && p.environment == cfg.expectedEnv
    && p.expiresAt == InMillis(tx.expiresDate) && p.autoRenew == autoRenew
    && (p.clearsCancellation <==> status in {Active, GracePeriod}) && p.now == d.now && p.freshID == d.freshID
  }
}
