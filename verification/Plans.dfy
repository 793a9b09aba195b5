/** From a decoded call to a job: the checks, the status mapping and the fields a call wants to write. */
module Plans {
  import opened Wrappers
  import opened Domain
  import opened Repository
  import opened StatusMapping
  import opened Jobs
  import A = AppleStore
  import G = GooglePlay
  import R = Reconciliation

  /** What the service is configured with. The function-valued fields stand for code this model does
      not open: JWS verification, UUID parsing, envelope decoding and time parsing. */
  datatype Config = Config(
    verifier: A.Verifier,
    bundleID: string,
    expectedEnv: Environment,
    parseUUID: string -> Option<UUID>,
    parsePubSub: string -> Option<(G.PubSubMessage, G.DeveloperNotification)>,
    parseRFC3339: G.TimeParser,
    parseRFC3339Nano: G.TimeParser,
    hasAppleAPI: bool,
    hasGoogleClient: bool,
    googlePackageName: string,
    clientPackageName: string)

  const DEFAULT_PACKAGE := "com.beebase.production"

  datatype AppleDelivery = AppleDelivery(signedPayload: string, now: Time, freshID: UUID, fault: Fault)

  datatype GoogleDelivery = GoogleDelivery(payload: string, reply: G.ApiReply, now: Time, fault: Fault)

  datatype AppleCheck = AppleCheck(
    userID: UUID,
    signedTransaction: string,
    reply: A.ApiReply,
    now: Time,
    freshID: UUID,
    fault: Fault)

  datatype GoogleCheck = GoogleCheck(
    userID: UUID,
    purchaseToken: string,
    subscriptionID: string,
    packageName: string,
    reply: G.ApiReply,
    now: Time,
    freshID: UUID,
    fault: Fault)

  function PositiveMilli(millis: int): Option<Time> {
    if millis > 0 then Some(UnixMilli(millis)) else None
  }

  /** The user an Apple transaction names: a token that parses, and not to the nil UUID. */
  function TokenUser(cfg: Config, token: string): Option<UUID> {
    if token == "" then None
    else
      match cfg.parseUUID(token)
      case None => None
      case Some(user) => if user == NIL_UUID then None else Some(user)
  }

  function AppleEvent(n: A.NotificationPayload, now: Time): Event {
    Event(EventKey(Apple, n.notificationUUID), AppleType(n.notificationType), now)
  }

  function AppleChange(cfg: Config, n: A.NotificationPayload, tx: A.TransactionInfo, status: Status, autoRenew: bool,
      d: AppleDelivery): Change {
    Change(ByTransaction(Apple, tx.originalTransactionID), TokenUser(cfg, tx.appAccountToken), Some(tx.productID),
           Some(tx.transactionID), status, MapEnvironment(tx.environment), PositiveMilli(tx.expiresDate), autoRenew,
           OrElse(PositiveMilli(n.signedDate), PositiveMilli(tx.signedDate)), None, d.now, d.freshID)
  }

  /** What an App Store notification comes to. */
  function ApplePlan(cfg: Config, d: AppleDelivery): Job {
    if d.signedPayload == "" then Refuse(InvalidWebhookPayload)
    else
      match cfg.verifier.notification(d.signedPayload)
      case None => Refuse(InvalidWebhookPayload)
      case Some(n) =>
        if n.notificationUUID == "" then Refuse(InvalidWebhookPayload)
        else if n.signedTransactionInfo == "" then Note(AppleEvent(n, d.now), d.fault)
        else
          match cfg.verifier.transaction(n.signedTransactionInfo)
          case None => Refuse(InvalidWebhookPayload)
          case Some(tx) =>
            var renewal := if n.signedRenewalInfo == "" then None else cfg.verifier.renewalInfo(n.signedRenewalInfo);
            if n.signedRenewalInfo != "" && renewal.None? then Refuse(InvalidWebhookPayload)
            else if tx.bundleID != cfg.bundleID || MapEnvironment(tx.environment) != cfg.expectedEnv
                    || !IsSupportedProduct(tx.productID) then Ignore
            else
              match MapAppleStatus(n.notificationType, n.subtype, renewal, d.now)
              case None => Note(AppleEvent(n, d.now), d.fault)
              case Some((status, autoRenew)) =>
                Hook(AppleEvent(n, d.now), AppleChange(cfg, n, tx, status, autoRenew, d), d.fault)
  }

  function GoogleEvent(m: G.PubSubMessage, eventType: EventType, now: Time): Event {
    Event(EventKey(Google, m.messageID), eventType, now)
  }

  function ExpiryOf(p: G.Purchase): Option<Time> {
    if p.expiryTime == ZERO_TIME then None else Some(p.expiryTime)
  }

  function PublishedAt(cfg: Config, m: G.PubSubMessage): Option<Time> {
    if m.publishTime == "" then None
    else OrElse(cfg.parseRFC3339Nano(m.publishTime), cfg.parseRFC3339(m.publishTime))
  }

  function Nonempty(s: string): Option<string> {
    if s == "" then None else Some(s)
  }

  function EnvironmentOf(p: G.Purchase): Environment {
    if p.testPurchase then Sandbox else Production
  }

  function GoogleChange(cfg: Config, m: G.PubSubMessage, n: G.DeveloperNotification, s: G.SubscriptionNotification,
      p: G.Purchase, now: Time): Change {
    var (status, autoRenew) := MapGoogleStatus(s.notificationType, p, now);
    Change(ByToken(Google, s.purchaseToken), None, Nonempty(p.FullProductID()), Nonempty(p.latestOrderID), status,
           EnvironmentOf(p), ExpiryOf(p), autoRenew, OrElse(PositiveMilli(n.eventTimeMillis), PublishedAt(cfg, m)),
           p.cancelledAt, now, NIL_UUID)
  }

  /** What a Google Play notification comes to. */
  function GooglePlan(cfg: Config, d: GoogleDelivery): Job {
    if d.payload == "" then Refuse(InvalidWebhookPayload)
    else
      match cfg.parsePubSub(d.payload)
      case None => Refuse(InvalidWebhookPayload)
      case Some((m, n)) =>
        if n.test then Note(GoogleEvent(m, TestNotification, d.now), d.fault)
        else
          match n.subscription
          case None => Note(GoogleEvent(m, NonSubscription, d.now), d.fault)
          case Some(s) =>
            var expected := if cfg.googlePackageName == "" then DEFAULT_PACKAGE else cfg.googlePackageName;
            if n.packageName != expected || s.subscriptionID != GOOGLE_SUBSCRIPTION_ID then Ignore
            else if s.purchaseToken == "" then Refuse(InvalidWebhookPayload)
            else if !cfg.hasGoogleClient then Refuse(GoogleNotConfigured)
            else
              match G.Fetched(cfg.parseRFC3339, cfg.clientPackageName, n.packageName, s.subscriptionID,
                              s.purchaseToken, d.reply)
              case Err(e) =>
                if e == G.SubscriptionNotFound
                then Note(GoogleEvent(m, UpstreamMissing(s.notificationType), d.now), d.fault)
                else Refuse(GoogleLookupFailed)
              case Ok(p) =>
                Hook(GoogleEvent(m, GoogleType(s.notificationType), d.now), GoogleChange(cfg, m, n, s, p, d.now), d.fault)
  }

  function ApplePurchase(tx: A.TransactionInfo, status: Status, autoRenew: bool, env: Environment, d: AppleCheck)
    : Purchase
  {
    Purchase(ByTransaction(Apple, tx.originalTransactionID), d.userID, tx.productID, Some(tx.transactionID), status, env,
             PositiveMilli(tx.expiresDate), autoRenew, status == Active || status == GracePeriod, d.now, d.freshID)
  }

  function ContextOf(cfg: Config): R.Context {
    R.Context(cfg.verifier, cfg.bundleID, cfg.expectedEnv)
  }

  /** What the verification of an Apple purchase comes to. */
  ghost function AppleCheckPlan(cfg: Config, d: AppleCheck): Job {
    if d.signedTransaction == "" then Refuse(InvalidWebhookPayload)
    else
      match cfg.verifier.transaction(d.signedTransaction)
      case None => Refuse(InvalidWebhookPayload)
      case Some(tx) =>
        var env := MapEnvironment(tx.environment);
        if tx.bundleID != cfg.bundleID then Refuse(BundleIDMismatch)
        else if env != cfg.expectedEnv then Refuse(InvalidWebhookPayload)
        else if !IsSupportedProduct(tx.productID) then Refuse(UnsupportedProduct)
        else if !cfg.hasAppleAPI then Check(ApplePurchase(tx, Active, true, env, d), d.fault)
        else
          match R.Outcome(ContextOf(cfg), tx, d.reply)
          case Ok(r) => Check(ApplePurchase(r.transaction, r.status, r.autoRenew, env, d), d.fault)
          case Err(e) =>
            if e == A.ApiUnavailable then Check(ApplePurchase(tx, Active, true, env, d), d.fault)
            else Refuse(ReconciliationFailed(e))
  }

  function GooglePurchase(p: G.Purchase, subscriptionID: string, d: GoogleCheck): Purchase {
    var (status, autoRenew) := MapGoogleStatus(0, p, d.now);
    var product := p.FullProductID();
    Purchase(ByToken(Google, d.purchaseToken), d.userID, if product == "" then subscriptionID else product,
             Nonempty(p.latestOrderID), status, EnvironmentOf(p), ExpiryOf(p), autoRenew, status == Active, d.now,
             d.freshID)
  }

  /** What the verification of a Google purchase comes to. */
  function GoogleCheckPlan(cfg: Config, d: GoogleCheck): Job {
    if d.purchaseToken == "" then Refuse(InvalidWebhookPayload)
    else if !cfg.hasGoogleClient then Refuse(GoogleNotConfigured)
    else
      var subscriptionID := if d.subscriptionID == "" then GOOGLE_SUBSCRIPTION_ID else d.subscriptionID;
      var package := if d.packageName == "" then cfg.googlePackageName else d.packageName;
      match G.Fetched(cfg.parseRFC3339, cfg.clientPackageName, package, subscriptionID, d.purchaseToken, d.reply)
      case Err(_) => Refuse(InvalidWebhookPayload)
      case Ok(p) => Check(GooglePurchase(p, subscriptionID, d), d.fault)
  }

  /** A call on the service that may change the tables. */
  datatype Request =
    | AppleWebhook(apple: AppleDelivery)
    | GoogleWebhook(google: GoogleDelivery)
    | VerifyApple(appleCheck: AppleCheck)
    | VerifyGoogle(googleCheck: GoogleCheck)
    | DeleteAccount(userID: UUID, fails: bool)

  ghost function Plan(cfg: Config, r: Request): Job {
    match r
    case AppleWebhook(d) => ApplePlan(cfg, d)
    case GoogleWebhook(d) => GooglePlan(cfg, d)
    case VerifyApple(d) => AppleCheckPlan(cfg, d)
    case VerifyGoogle(d) => GoogleCheckPlan(cfg, d)
    case DeleteAccount(user, fails) => Forget(user, fails)
  }

  ghost function Planned(cfg: Config, rs: seq<Request>): seq<Job> {
    seq(|rs|, i requires 0 <= i < |rs| => Plan(cfg, rs[i]))
  }

  lemma AppleHooksAreSound(cfg: Config, d: AppleDelivery)
    ensures Sound(cfg.expectedEnv, ApplePlan(cfg, d)) && IsWebhook(ApplePlan(cfg, d))
  {
  }

  lemma GoogleChangeIsSound(cfg: Config, m: G.PubSubMessage, n: G.DeveloperNotification, s: G.SubscriptionNotification,
      p: G.Purchase, now: Time)
    ensures SoundChange(cfg.expectedEnv, GoogleChange(cfg, m, n, s, p, now))
  {
  }

  lemma GoogleHooksAreSound(cfg: Config, d: GoogleDelivery)
    ensures Sound(cfg.expectedEnv, GooglePlan(cfg, d)) && IsWebhook(GooglePlan(cfg, d))
  {
    var plan := GooglePlan(cfg, d);
    if plan.Hook? {
      var (m, n) := cfg.parsePubSub(d.payload).value;
      var s := n.subscription.value;
      var p := G.Fetched(cfg.parseRFC3339, cfg.clientPackageName, n.packageName, s.subscriptionID, s.purchaseToken,
                         d.reply).value;
      assert plan.change == GoogleChange(cfg, m, n, s, p, d.now);
      GoogleChangeIsSound(cfg, m, n, s, p, d.now);
    }
  }

  lemma AppleChecksAreSound(cfg: Config, d: AppleCheck)
    ensures Sound(cfg.expectedEnv, AppleCheckPlan(cfg, d))
  {
  }

  lemma GooglePurchaseIsSound(cfg: Config, p: G.Purchase, subscriptionID: string, d: GoogleCheck)
    ensures SoundPurchase(cfg.expectedEnv, GooglePurchase(p, subscriptionID, d))
  {
  }

  lemma GoogleChecksAreSound(cfg: Config, d: GoogleCheck)
    ensures Sound(cfg.expectedEnv, GoogleCheckPlan(cfg, d))
  {
    var subscriptionID := if d.subscriptionID == "" then GOOGLE_SUBSCRIPTION_ID else d.subscriptionID;
    var package := if d.packageName == "" then cfg.googlePackageName else d.packageName;
    var fetched := G.Fetched(cfg.parseRFC3339, cfg.clientPackageName, package, subscriptionID, d.purchaseToken, d.reply);
    if fetched.Ok? {
      GooglePurchaseIsSound(cfg, fetched.value, subscriptionID, d);
    }
  }

  /** Whatever sequence of calls the service receives, the jobs they come to are sound for its
      environment; and a sequence of webhooks comes to webhook jobs. */
  lemma PlannedRunsAreSound(cfg: Config, rs: seq<Request>)
    ensures SoundRun(cfg.expectedEnv, Planned(cfg, rs))
    ensures (forall i :: 0 <= i < |rs| ==> rs[i].AppleWebhook? || rs[i].GoogleWebhook?)
            ==> WebhookRun(Planned(cfg, rs))
  {
    forall i | 0 <= i < |rs|
      ensures Sound(cfg.expectedEnv, Planned(cfg, rs)[i])
      ensures rs[i].AppleWebhook? || rs[i].GoogleWebhook? ==> IsWebhook(Planned(cfg, rs)[i])
    {
      match rs[i] {
        case AppleWebhook(d) => AppleHooksAreSound(cfg, d);
        case GoogleWebhook(d) => GoogleHooksAreSound(cfg, d);
        case VerifyApple(d) => AppleChecksAreSound(cfg, d);
        case VerifyGoogle(d) => GoogleChecksAreSound(cfg, d);
        case DeleteAccount(_, _) =>
      }
    }
  }
}
