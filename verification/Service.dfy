/** The service: its handlers, statement by statement, over the repository. */
module Service {
  import opened Wrappers
  import opened Domain
  import opened Repository
  import opened StatusMapping
  import opened UpdateGuard
  import opened Jobs
  import opened Plans
  import A = AppleStore
  import G = GooglePlay
  import R = Reconciliation

  datatype Entitlement = Free | Pro

  /** Active and in grace last until their expiry, or for good without one; cancelled lasts until an expiry
      that has to be there; nothing else grants anything. */
  predicate Grants(status: Status, expiresAt: Option<Time>, t: Time) {
    if expiresAt.Some? then status in {Active, GracePeriod, Cancelled} && t < expiresAt.value
    else status in {Active, GracePeriod}
  }

  /** The entitlement of a user whose most recent subscription is `row`. */
  function EntitlementFor(allowlist: set<UUID>, userID: UUID, row: Option<Row>, now: Time): (e: Entitlement)
    ensures e == Pro <==> userID in allowlist || (row.Some? && Grants(row.value.status, row.value.expiresAt, now))
  {
    if row.Some? && row.value.HasActiveAccess(now) then Pro
    else if userID in allowlist then Pro
    else Free
  }

  datatype VerificationResult = VerificationResult(subscription: Subscription?, entitlement: Entitlement)

  /** The webhook answer a job's reply stands for. */
  function Failure(r: Result<Option<Row>, ServiceError>): Option<ServiceError> {
    match r
    case Ok(_) => None
    case Err(e) => Some(e)
  }

  /** A statement or transaction that should turn the rows `before` into `wanted` did so, or failed
      with its error and left them alone. */
  predicate Reached(before: Rows, wanted: Result<Rows, RepoError>, after: Rows, r: Option<ServiceError>) {
    match wanted
    case Ok(rows) => r == None && after == rows
    case Err(e) => r == Some(Storage(e)) && after == before
  }

  /** `ch` is the change these decoded parts of an App Store notification make up. */
  predicate IsAppleChange(ch: Change, txInfo: A.TransactionInfo, status: Status, autoRenew: bool, env: Environment,
      expiresAt: Option<Time>, eventAt: Option<Time>, now: Time)
  {
    && ch.key == ByTransaction(Apple, txInfo.originalTransactionID)
    && ch.productID == Some(txInfo.productID) && ch.transactionID == Some(txInfo.transactionID)
    && ch.status == status && ch.environment == env && ch.expiresAt == expiresAt && ch.autoRenew == autoRenew
    && ch.eventAt == eventAt && ch.cancelledAt == None && ch.now == now
  }

  /** `ch` is the change these parts of a Google Play notification and purchase make up. */
  predicate IsGoogleChange(ch: Change, p: G.Purchase, status: Status, autoRenew: bool, expiresAt: Option<Time>,
      eventAt: Option<Time>, now: Time)
  {
    && ch.key.ByToken?
    && ch.productID == Nonempty(p.FullProductID()) && ch.transactionID == Nonempty(p.latestOrderID)
    && ch.status == status && ch.autoRenew == autoRenew && ch.environment == EnvironmentOf(p)
    && ch.expiresAt == expiresAt && ch.eventAt == eventAt && ch.cancelledAt == p.cancelledAt && ch.now == now
  }

  class SubscriptionService {
    const cfg: Config
    const repo: SubscriptionRepository
    var allowlist: set<UUID>

    constructor (cfg: Config, repo: SubscriptionRepository)
      ensures this.cfg == cfg && this.repo == repo && allowlist == {}
    {
      this.cfg, this.repo, allowlist := cfg, repo, {};
    }

    /** An empty list leaves the allowlist as it was. */
    method WithProEntitlementAllowlist(userIDs: seq<UUID>)
      modifies this
      ensures allowlist == if userIDs == [] then old(allowlist) else set id | id in userIDs
    {
      if |userIDs| == 0 {
        return;
      }
      var allow := {};
      for i := 0 to |userIDs|
        invariant allow == set id | id in userIDs[..i]
      {
        allow := allow + {userIDs[i]};
      }
      assert userIDs[..|userIDs|] == userIDs;
      allowlist := allow;
    }

    method DeleteAllByUser(userID: UUID, fails: bool) returns (r: Option<ServiceError>)
      modifies repo
      ensures var done := Perform(old(repo.Contents()), Forget(userID, fails));
              repo.Contents() == done.store && r == Failure(done.reply)
    {
      var e := repo.DeleteAllByUser(userID, fails);
      if e.Some? {
        return Some(Storage(e.value));
      }
      return None;
    }

    method HandleAppleNotification(d: AppleDelivery) returns (r: Option<ServiceError>)
      requires Valid(repo.rows)
      modifies repo
      ensures var done := Perform(old(repo.Contents()), ApplePlan(cfg, d));
              repo.Contents() == done.store && r == Failure(done.reply)
    {
      if d.signedPayload == "" {
        return Some(InvalidWebhookPayload);
      }
      var notification := cfg.verifier.notification(d.signedPayload);
      if notification.None? {
        return Some(InvalidWebhookPayload);
      }
      var n := notification.value;
      if n.notificationUUID == "" {
        return Some(InvalidWebhookPayload);
      }
      if n.signedTransactionInfo == "" {
        var _ := repo.RecordEventIfNotExists(AppleEvent(n, d.now), d.fault == RecordFails);
        return None;
      }
      var transaction := cfg.verifier.transaction(n.signedTransactionInfo);
      if transaction.None? {
        return Some(InvalidWebhookPayload);
      }
      var txInfo := transaction.value;
      var renewalInfo: Option<A.RenewalInfo> := None;
      if n.signedRenewalInfo != "" {
        renewalInfo := cfg.verifier.renewalInfo(n.signedRenewalInfo);
        if renewalInfo.None? {
          return Some(InvalidWebhookPayload);
        }
      }
      if txInfo.bundleID != cfg.bundleID {
        return None;
      }
      var incomingEnv := MapEnvironment(txInfo.environment);
      if incomingEnv != cfg.expectedEnv {
        return None;
      }
      if !IsSupportedProduct(txInfo.productID) {
        return None;
      }
      var mapped := MapAppleStatus(n.notificationType, n.subtype, renewalInfo, d.now);
      if mapped.None? {
        var _ := repo.RecordEventIfNotExists(AppleEvent(n, d.now), d.fault == RecordFails);
        return None;
      }
      var (targetStatus, autoRenew) := mapped.value;
      var begun := repo.Begin(d.fault == BeginFails);
      if begun.Err? {
        return Some(Storage(begun.error));
      }
      r := ApplyAppleNotification(n, txInfo, targetStatus, autoRenew, incomingEnv, d);
      var ended := repo.End(begun.value, r.Some?, d.fault == CommitFails);
      if ended.Some? {
        return Some(Storage(ended.value));
      }
    }

    /** The transaction of an App Store notification, between begin and commit. */
    method ApplyAppleNotification(n: A.NotificationPayload, txInfo: A.TransactionInfo, targetStatus: Status,
        autoRenew: bool, incomingEnv: Environment, d: AppleDelivery) returns (r: Option<ServiceError>)
      requires Valid(repo.rows)
      requires incomingEnv == MapEnvironment(txInfo.environment)
      modifies repo
      ensures (repo.Contents(), r) == HookBody(old(repo.Contents()), AppleEvent(n, d.now),
                                               AppleChange(cfg, n, txInfo, targetStatus, autoRenew, d), d.fault)
    {
      var inserted := repo.RecordEventIfNotExists(AppleEvent(n, d.now), d.fault == RecordFails);
      if inserted.Err? {
        return Some(Storage(inserted.error));
      }
      if !inserted.value {
        return None;
      }

      r := ResolveApple(n, txInfo, targetStatus, autoRenew, incomingEnv, d);
    }

    /** Resolves the user and the row of an App Store notification, and updates or creates the row. */
    method ResolveApple(n: A.NotificationPayload, txInfo: A.TransactionInfo, targetStatus: Status, autoRenew: bool,
        incomingEnv: Environment, d: AppleDelivery) returns (r: Option<ServiceError>)
      requires Valid(repo.rows)
      requires incomingEnv == MapEnvironment(txInfo.environment)
      modifies repo
      ensures repo.events == old(repo.events)
      ensures var ch := AppleChange(cfg, n, txInfo, targetStatus, autoRenew, d);
              Reached(old(repo.rows), Resolved(old(repo.rows), ch, d.fault), repo.rows, r)
    {
      var userID := TokenUserID(txInfo);
      var existing := repo.FindByProviderAndTransaction(Apple, txInfo.originalTransactionID, d.fault == LookupFails);
      if existing.Ok? {
        if userID == NIL_UUID {
          userID := existing.value.row.userID;
        }
      } else if existing.error != NotFound {
        return Some(Storage(existing.error));
      }
      if userID == NIL_UUID {
        return None;
      }
      var incomingExpiresAt, incomingEventAt := AppleTimes(n, txInfo);
      ghost var ch := AppleChange(cfg, n, txInfo, targetStatus, autoRenew, d);
      if existing.Ok? {
        FindAnswers(repo.rows, ch.key);
        r := UpdateFromApple(existing.value, txInfo, targetStatus, autoRenew, incomingEnv, incomingExpiresAt,
                             incomingEventAt, d, ch);
      } else {
        r := CreateFromApple(userID, txInfo, targetStatus, autoRenew, incomingEnv, incomingExpiresAt, incomingEventAt,
                             d, ch);
      }
    }

    /** The user the transaction's account token names, and the nil UUID when it names none. */
    method TokenUserID(txInfo: A.TransactionInfo) returns (userID: UUID)
      ensures TokenUser(cfg, txInfo.appAccountToken) == if userID == NIL_UUID then None else Some(userID)
    {
      userID := NIL_UUID;
      if txInfo.appAccountToken != "" {
        var parsed := cfg.parseUUID(txInfo.appAccountToken);
        if parsed.Some? && parsed.value != NIL_UUID {
          userID := parsed.value;
        }
      }
    }

    /** Updates the object found for an App Store change, if the guard lets it. */
    method UpdateFromApple(sub: Subscription, txInfo: A.TransactionInfo, targetStatus: Status, autoRenew: bool,
        env: Environment, incomingExpiresAt: Option<Time>, incomingEventAt: Option<Time>, d: AppleDelivery,
        ghost ch: Change) returns (r: Option<ServiceError>)
      requires IsAppleChange(ch, txInfo, targetStatus, autoRenew, env, incomingExpiresAt, incomingEventAt, d.now)
      requires sub.row.originalTransactionID == Some(txInfo.originalTransactionID)
      modifies repo, sub
      ensures repo.events == old(repo.events)
      ensures var row := old(sub.row);
              var eff := if ShouldApplyUpdate(Some(row), ch.status, ch.expiresAt, ch.eventAt)
                         then Overwrite(Changed(row, ch)) else Keep;
              Reached(old(repo.rows), AttemptEffect(old(repo.rows), eff, d.fault == WriteFails), repo.rows, r)
    {
      if !ShouldApplyUpdate(Some(sub.row), targetStatus, incomingExpiresAt, incomingEventAt) {
        return None;
      }
      FillFromApple(sub, txInfo, targetStatus, autoRenew, env, incomingExpiresAt, incomingEventAt, d.now, ch);
      var e := repo.Update(sub, d.fault == WriteFails);
      if e.Some? {
        return Some(Storage(e.value));
      }
      return None;
    }

    /** Creates the row of an App Store change that found none. */
    method CreateFromApple(userID: UUID, txInfo: A.TransactionInfo, targetStatus: Status, autoRenew: bool,
        env: Environment, incomingExpiresAt: Option<Time>, incomingEventAt: Option<Time>, d: AppleDelivery,
        ghost ch: Change) returns (r: Option<ServiceError>)
      requires IsAppleChange(ch, txInfo, targetStatus, autoRenew, env, incomingExpiresAt, incomingEventAt, d.now)
      modifies repo
      ensures repo.events == old(repo.events)
      ensures var row := Changed(Blank(d.freshID, userID, txInfo.productID, ch.key, d.now), ch);
              Reached(old(repo.rows), AttemptEffect(old(repo.rows), Insert(row), d.fault == WriteFails), repo.rows, r)
    {
      var sub := new Subscription.New(d.freshID, userID, Apple, txInfo.productID, d.now);
      FillFromApple(sub, txInfo, targetStatus, autoRenew, env, incomingExpiresAt, incomingEventAt, d.now, ch);
      var e := repo.Create(sub, d.fault == WriteFails);
      if e.Some? {
        return Some(Storage(e.value));
      }
      return None;
    }

    /** The assignments an App Store change makes to the object found for it, or to a new one (whose
        cancellation time is not set yet). */
    method FillFromApple(sub: Subscription, txInfo: A.TransactionInfo, targetStatus: Status, autoRenew: bool,
        env: Environment, incomingExpiresAt: Option<Time>, incomingEventAt: Option<Time>, now: Time, ghost ch: Change)
      requires IsAppleChange(ch, txInfo, targetStatus, autoRenew, env, incomingExpiresAt, incomingEventAt, now)
      modifies sub
      ensures sub.row == WithKey(Changed(old(sub.row), ch), ch.key)
    {
      sub.row := sub.row.(productID := txInfo.productID);
      sub.row := sub.row.(originalTransactionID := Some(txInfo.originalTransactionID));
      sub.row := sub.row.(transactionID := Some(txInfo.transactionID));
      sub.row := sub.row.(status := targetStatus);
      sub.row := sub.row.(environment := Some(env));
      sub.row := sub.row.(expiresAt := incomingExpiresAt);
      sub.row := sub.row.(autoRenew := Some(autoRenew));
      if incomingEventAt.Some? {
        sub.row := sub.row.(lastEventAt := incomingEventAt);
      }
      NoteCancellation(sub, targetStatus, None, now);
      sub.row := sub.row.(updatedAt := now);
    }

    /** A cancellation keeps the store's own time if it reports one, else the time noted before, else
        now; an activation clears it; any other status leaves it. */
    method NoteCancellation(sub: Subscription, targetStatus: Status, reported: Option<Time>, now: Time)
      modifies sub
      ensures sub.row == old(sub.row).(cancelledAt :=
                if targetStatus == Cancelled then OrElse(reported, OrElse(old(sub.row).cancelledAt, Some(now)))
                else if targetStatus == Active then None
                else old(sub.row).cancelledAt)
    {
      if targetStatus == Cancelled {
        if reported.Some? {
          sub.row := sub.row.(cancelledAt := reported);
        } else if sub.row.cancelledAt.None? {
          sub.row := sub.row.(cancelledAt := Some(now));
        }
      } else if targetStatus == Active {
        sub.row := sub.row.(cancelledAt := None);
      }
    }

    method AppleTimes(n: A.NotificationPayload, txInfo: A.TransactionInfo)
      returns (incomingExpiresAt: Option<Time>, incomingEventAt: Option<Time>)
      ensures incomingExpiresAt == PositiveMilli(txInfo.expiresDate)
      ensures incomingEventAt == OrElse(PositiveMilli(n.signedDate), PositiveMilli(txInfo.signedDate))
    {
      incomingExpiresAt, incomingEventAt := None, None;
      if txInfo.expiresDate > 0 {
        incomingExpiresAt := Some(UnixMilli(txInfo.expiresDate));
      }
      if n.signedDate > 0 {
        incomingEventAt := Some(UnixMilli(n.signedDate));
      } else if txInfo.signedDate > 0 {
        incomingEventAt := Some(UnixMilli(txInfo.signedDate));
      }
    }

    method HandleGoogleNotification(d: GoogleDelivery) returns (r: Option<ServiceError>)
      requires Valid(repo.rows)
      modifies repo
      ensures var done := Perform(old(repo.Contents()), GooglePlan(cfg, d));
              repo.Contents() == done.store && r == Failure(done.reply)
    {
      if |d.payload| == 0 {
        return Some(InvalidWebhookPayload);
      }
      var parsed := cfg.parsePubSub(d.payload);
      if parsed.None? {
        return Some(InvalidWebhookPayload);
      }
      var (m, n) := parsed.value;
      if n.test {
        var _ := repo.RecordEventIfNotExists(GoogleEvent(m, TestNotification, d.now), d.fault == RecordFails);
        return None;
      }
      if n.subscription.None? {
        var _ := repo.RecordEventIfNotExists(GoogleEvent(m, NonSubscription, d.now), d.fault == RecordFails);
        return None;
      }
      var subNotif := n.subscription.value;
      var expectedPackage := cfg.googlePackageName;
      if expectedPackage == "" {
        expectedPackage := DEFAULT_PACKAGE;
      }
      if n.packageName != expectedPackage {
        return None;
      }
      if subNotif.subscriptionID != GOOGLE_SUBSCRIPTION_ID {
        return None;
      }
      if subNotif.purchaseToken == "" {
        return Some(InvalidWebhookPayload);
      }
      if !cfg.hasGoogleClient {
        return Some(GoogleNotConfigured);
      }
      var googleSub := G.GetSubscription(cfg.parseRFC3339, cfg.clientPackageName, n.packageName,
                                         subNotif.subscriptionID, subNotif.purchaseToken, d.reply);
      if googleSub.Err? {
        if googleSub.error == G.SubscriptionNotFound {
          var _ := repo.RecordEventIfNotExists(GoogleEvent(m, UpstreamMissing(subNotif.notificationType), d.now),
                                               d.fault == RecordFails);
          return None;
        }
        return Some(GoogleLookupFailed);
      }
      var begun := repo.Begin(d.fault == BeginFails);
      if begun.Err? {
        return Some(Storage(begun.error));
      }
      r := ApplyGoogleNotification(m, n, subNotif, googleSub.value, d);
      var ended := repo.End(begun.value, r.Some?, d.fault == CommitFails);
      if ended.Some? {
        return Some(Storage(ended.value));
      }
    }

    /** The transaction of a Google Play notification, between begin and commit. The status, expiry and
        event time are worked out from the message and the fetched purchase before it starts. */
    method ApplyGoogleNotification(m: G.PubSubMessage, n: G.DeveloperNotification, s: G.SubscriptionNotification,
        googleSub: G.Purchase, d: GoogleDelivery) returns (r: Option<ServiceError>)
      requires Valid(repo.rows)
      modifies repo
      ensures (repo.Contents(), r) == HookBody(old(repo.Contents()),
                                               GoogleEvent(m, GoogleType(s.notificationType), d.now),
                                               GoogleChange(cfg, m, n, s, googleSub, d.now), d.fault)
    {
      var (targetStatus, autoRenew) := MapGoogleStatus(s.notificationType, googleSub, d.now);
      var incomingExpiresAt: Option<Time> := None;
      if googleSub.expiryTime != ZERO_TIME {
        incomingExpiresAt := Some(googleSub.expiryTime);
      }
      var incomingEventAt := GoogleEventTime(m, n);
      ghost var ch := GoogleChange(cfg, m, n, s, googleSub, d.now);

      var event := GoogleEvent(m, GoogleType(s.notificationType), d.now);
      var inserted := repo.RecordEventIfNotExists(event, d.fault == RecordFails);
      if inserted.Err? {
        return Some(Storage(inserted.error));
      }
      if !inserted.value {
        return None;
      }

      r := ResolveGoogle(s, googleSub, targetStatus, autoRenew, incomingExpiresAt, incomingEventAt, d, ch);
    }

    /** Finds the row of a Google Play notification and updates it; without a row there is nothing to do. */
    method ResolveGoogle(s: G.SubscriptionNotification, googleSub: G.Purchase, targetStatus: Status, autoRenew: bool,
        incomingExpiresAt: Option<Time>, incomingEventAt: Option<Time>, d: GoogleDelivery, ghost ch: Change)
      returns (r: Option<ServiceError>)
      requires Valid(repo.rows)
      requires IsGoogleChange(ch, googleSub, targetStatus, autoRenew, incomingExpiresAt, incomingEventAt, d.now)
      requires ch.key == ByToken(Google, s.purchaseToken) && ch.user == None
      modifies repo
      ensures repo.events == old(repo.events)
      ensures Reached(old(repo.rows), Resolved(old(repo.rows), ch, d.fault), repo.rows, r)
    {
      var existing := repo.FindByProviderAndPurchaseToken(Google, s.purchaseToken, d.fault == LookupFails);
      if existing == Err(NotFound) {
        return None;
      }
      if existing.Err? {
        return Some(Storage(existing.error));
      }
      var sub := existing.value;
      if !ShouldApplyUpdate(Some(sub.row), targetStatus, incomingExpiresAt, incomingEventAt) {
        return None;
      }
      ghost var before := sub.row;
      IdentifyFromGoogle(sub, googleSub);
      FillFromGoogle(sub, googleSub, targetStatus, autoRenew, incomingExpiresAt, incomingEventAt, d.now);
      assert sub.row == Changed(before, ch);
      var e := repo.Update(sub, d.fault == WriteFails);
      if e.Some? {
        return Some(Storage(e.value));
      }
      return None;
    }

    /** Product and order, where the purchase names them. */
    method IdentifyFromGoogle(sub: Subscription, googleSub: G.Purchase)
      modifies sub
      ensures var product := Nonempty(googleSub.FullProductID());
              sub.row == old(sub.row).(
                productID := if product.Some? then product.value else old(sub.row).productID,
                transactionID := OrElse(Nonempty(googleSub.latestOrderID), old(sub.row).transactionID))
    {
      var productID := googleSub.FullProductID();
      if productID != "" {
        sub.row := sub.row.(productID := productID);
      }
      if googleSub.latestOrderID != "" {
        sub.row := sub.row.(transactionID := Some(googleSub.latestOrderID));
      }
    }

    /** The lifecycle assignments a Google Play change makes to the object found for it. */
    method FillFromGoogle(sub: Subscription, googleSub: G.Purchase, targetStatus: Status, autoRenew: bool,
        incomingExpiresAt: Option<Time>, incomingEventAt: Option<Time>, now: Time)
      modifies sub
      ensures var was := old(sub.row);
              sub.row == was.(
                status := targetStatus,
                environment := Some(EnvironmentOf(googleSub)),
                expiresAt := incomingExpiresAt,
                autoRenew := Some(autoRenew),
                lastEventAt := OrElse(incomingEventAt, was.lastEventAt),
                cancelledAt :=
                  if targetStatus == Cancelled then OrElse(googleSub.cancelledAt, OrElse(was.cancelledAt, Some(now)))
                  else if targetStatus == Active then None
                  else was.cancelledAt,
                updatedAt := now)
    {
      var env := Production;
      if googleSub.testPurchase {
        env := Sandbox;
      }
      sub.row := sub.row.(status := targetStatus);
      sub.row := sub.row.(environment := Some(env));
      sub.row := sub.row.(expiresAt := incomingExpiresAt);
      sub.row := sub.row.(autoRenew := Some(autoRenew));
      if incomingEventAt.Some? {
        sub.row := sub.row.(lastEventAt := incomingEventAt);
      }
      NoteCancellation(sub, targetStatus, googleSub.cancelledAt, now);
      sub.row := sub.row.(updatedAt := now);
    }

    method GoogleEventTime(m: G.PubSubMessage, n: G.DeveloperNotification) returns (incomingEventAt: Option<Time>)
      ensures incomingEventAt == OrElse(PositiveMilli(n.eventTimeMillis), PublishedAt(cfg, m))
    {
      incomingEventAt := None;
      if n.eventTimeMillis > 0 {
        incomingEventAt := Some(UnixMilli(n.eventTimeMillis));
      } else if m.publishTime != "" {
        var nano := cfg.parseRFC3339Nano(m.publishTime);
        if nano.Some? {
          incomingEventAt := nano;
        } else {
          incomingEventAt := cfg.parseRFC3339(m.publishTime);
        }
      }
    }

    /** The user's most recently updated subscription, if any, and what it entitles to now. */
    method GetSubscription(userID: UUID, now: Time, fails: bool) returns (r: Result<VerificationResult, ServiceError>)
      ensures fails ==> r == Err(Storage(Unavailable))
      ensures !fails && !HasRows(repo.rows, userID) ==>
                r == Ok(VerificationResult(null, EntitlementFor(allowlist, userID, None, now)))
      ensures !fails && !HasRows(repo.rows, userID) ==> (r.value.entitlement == Pro <==> userID in allowlist)
      ensures !fails && HasRows(repo.rows, userID) ==>
                && r.Ok? && r.value.subscription != null && fresh(r.value.subscription)
                && IsLatest(repo.rows, userID, r.value.subscription.row)
                && (r.value.entitlement == Pro
                    <==> userID in allowlist
                         || Grants(r.value.subscription.row.status, r.value.subscription.row.expiresAt, now))
                && r.value.entitlement
                   == EntitlementFor(allowlist, userID, Some(r.value.subscription.row), now)
    {
      var found := repo.FindByUserID(userID, fails);
      if found.Err? {
        if found.error == NotFound {
          return Ok(VerificationResult(null, EntitlementFor(allowlist, userID, None, now)));
        }
        return Err(Storage(found.error));
      }
      return Ok(VerificationResult(found.value, EntitlementFor(allowlist, userID, Some(found.value.row), now)));
    }

    /** The outcome of a verification job, as the caller sees it. */
    ghost predicate Answers(r: Result<VerificationResult, ServiceError>, reply: Result<Option<Row>, ServiceError>,
        userID: UUID, now: Time)
      reads this, if r.Ok? && r.value.subscription != null then {r.value.subscription} else {}
    {
      match r
      case Err(e) => reply == Err(e)
      case Ok(v) =>
        && v.subscription != null
        && reply == Ok(Some(v.subscription.row))
        && v.entitlement == EntitlementFor(allowlist, userID, Some(v.subscription.row), now)
    }

    method VerifyApplePurchase(d: AppleCheck) returns (r: Result<VerificationResult, ServiceError>)
      requires Valid(repo.rows)
      modifies repo
      ensures var done := Perform(old(repo.Contents()), AppleCheckPlan(cfg, d));
              repo.Contents() == done.store && Answers(r, done.reply, d.userID, d.now)
    {
      if d.signedTransaction == "" {
        return Err(InvalidWebhookPayload);
      }
      var transaction := cfg.verifier.transaction(d.signedTransaction);
      if transaction.None? {
        return Err(InvalidWebhookPayload);
      }
      var txInfo := transaction.value;
      if txInfo.bundleID != cfg.bundleID {
        return Err(BundleIDMismatch);
      }
      var incomingEnv := MapEnvironment(txInfo.environment);
      if incomingEnv != cfg.expectedEnv {
        return Err(InvalidWebhookPayload);
      }
      if !IsSupportedProduct(txInfo.productID) {
        return Err(UnsupportedProduct);
      }
      var authoritativeStatus, autoRenew := Active, true;
      if cfg.hasAppleAPI {
        var reconciled := R.ReconcileApplePurchase(ContextOf(cfg), txInfo, d.reply);
        if reconciled.Err? {
          if reconciled.error != A.ApiUnavailable {
            return Err(ReconciliationFailed(reconciled.error));
          }
        } else {
          txInfo := reconciled.value.transaction;
          authoritativeStatus := reconciled.value.status;
          autoRenew := reconciled.value.autoRenew;
        }
      }
      var begun := repo.Begin(d.fault == BeginFails);
      if begun.Err? {
        return Err(Storage(begun.error));
      }
      var stored := StoreApplePurchase(txInfo, authoritativeStatus, autoRenew, incomingEnv, d);
      var ended := repo.End(begun.value, stored.Err?, d.fault == CommitFails);
      if stored.Err? {
        return Err(stored.error);
      }
      if ended.Some? {
        return Err(Storage(ended.value));
      }
      var sub := stored.value;
      return Ok(VerificationResult(sub, EntitlementFor(allowlist, d.userID, Some(sub.row), d.now)));
    }

    /** The transaction of an Apple verification, between begin and commit. */
    method StoreApplePurchase(txInfo: A.TransactionInfo, status: Status, autoRenew: bool, incomingEnv: Environment,
        d: AppleCheck) returns (r: Result<Subscription, ServiceError>)
      requires Valid(repo.rows)
      modifies repo
      ensures r.Ok? ==> fresh(r.value)
      ensures var (after, result) := CheckBody(old(repo.Contents()),
                                               ApplePurchase(txInfo, status, autoRenew, incomingEnv, d), d.fault);
              && repo.Contents() == after
              && (match result
                  case Ok(row) => r.Ok? && r.value.row == row
                  case Err(e) => r == Err(e))
    {
      var sub, existed := PrepareApple(txInfo, status, autoRenew, incomingEnv, d);
      if sub.Err? {
        return Err(Storage(sub.error));
      }
      var e := Persist(sub.value, existed, d.fault == WriteFails);
      if e.Some? {
        return Err(Storage(e.value));
      }
      return Ok(sub.value);
    }

    /** The object a verified Apple purchase is stored from: the one found for it, or a new one. */
    method PrepareApple(txInfo: A.TransactionInfo, status: Status, autoRenew: bool, incomingEnv: Environment,
        d: AppleCheck) returns (r: Result<Subscription, RepoError>, existed: bool)
      requires Valid(repo.rows)
      ensures var p := ApplePurchase(txInfo, status, autoRenew, incomingEnv, d);
              Prepared(r, existed, Find(repo.rows, p.key), p, d.fault == LookupFails)
      ensures r.Ok? ==> fresh(r.value)
    {
      existed := false;
      var existing := repo.FindByProviderAndTransaction(Apple, txInfo.originalTransactionID, d.fault == LookupFails);
      if existing.Err? && existing.error != NotFound {
        return existing, false;
      }
      existed := existing.Ok?;
      var sub: Subscription;
      if existed {
        sub := existing.value;
      } else {
        sub := new Subscription.New(d.freshID, d.userID, Apple, txInfo.productID, d.now);
      }
      FindAnswers(repo.rows, ByTransaction(Apple, txInfo.originalTransactionID));
      FillVerifiedApple(sub, txInfo, status, autoRenew, incomingEnv, d);
      return Ok(sub), existed;
    }

    /** Looking up and filling in went as it should: the lookup failed, or `r` is the verified object. */
    ghost predicate Prepared(r: Result<Subscription, RepoError>, existed: bool, found: Option<Row>, p: Purchase,
        fails: bool)
      reads if r.Ok? then {r.value} else {}
    {
      if fails then r == Err(Unavailable)
      else r.Ok? && existed == found.Some? && r.value.row == Verified(found, p)
    }

    /** Stores a verified object: an upsert if it was read from the table, an insert if it is new. */
    method Persist(sub: Subscription, existed: bool, fails: bool) returns (e: Option<RepoError>)
      modifies repo
      ensures repo.events == old(repo.events)
      ensures match (if fails then Err(Unavailable)
                     else if existed then Upserted(old(repo.rows), old(sub.row))
                     else Inserted(old(repo.rows), old(sub.row)))
              case Ok(rows) => e == None && repo.rows == rows
              case Err(error) => e == Some(error) && repo.rows == old(repo.rows)
    {
      if existed {
        e := repo.Upsert(sub, fails);
      } else {
        e := repo.Create(sub, fails);
      }
    }

    /** The assignments a verified Apple purchase makes to the object found for it, or to a new one
        (whose user and cancellation time are right already). */
    method FillVerifiedApple(sub: Subscription, txInfo: A.TransactionInfo, status: Status, autoRenew: bool,
        env: Environment, d: AppleCheck)
      modifies sub
      ensures var p := ApplePurchase(txInfo, status, autoRenew, env, d);
              sub.row == WithKey(Verified(Some(old(sub.row)), p), p.key)
    {
      var incomingExpiresAt: Option<Time> := None;
      if txInfo.expiresDate > 0 {
        incomingExpiresAt := Some(UnixMilli(txInfo.expiresDate));
      }
      sub.row := sub.row.(userID := d.userID);
      sub.row := sub.row.(productID := txInfo.productID);
      sub.row := sub.row.(transactionID := Some(txInfo.transactionID));
      sub.row := sub.row.(originalTransactionID := Some(txInfo.originalTransactionID));
      sub.row := sub.row.(status := status);
      sub.row := sub.row.(environment := Some(env));
      sub.row := sub.row.(expiresAt := incomingExpiresAt);
      sub.row := sub.row.(autoRenew := Some(autoRenew));
      if status == Active || status == GracePeriod {
        sub.row := sub.row.(cancelledAt := None);
      }
      sub.row := sub.row.(updatedAt := d.now);
    }

    method VerifyGooglePurchase(d: GoogleCheck) returns (r: Result<VerificationResult, ServiceError>)
      requires Valid(repo.rows)
      modifies repo
      ensures var done := Perform(old(repo.Contents()), GoogleCheckPlan(cfg, d));
              repo.Contents() == done.store && Answers(r, done.reply, d.userID, d.now)
    {
      var fetched, subscriptionID := FetchGooglePurchase(d);
      if fetched.Err? {
        return Err(fetched.error);
      }
      var begun := repo.Begin(d.fault == BeginFails);
      if begun.Err? {
        return Err(Storage(begun.error));
      }
      var stored := StoreGooglePurchase(fetched.value, subscriptionID, d);
      var ended := repo.End(begun.value, stored.Err?, d.fault == CommitFails);
      if stored.Err? {
        return Err(stored.error);
      }
      if ended.Some? {
        return Err(Storage(ended.value));
      }
      var sub := stored.value;
      return Ok(VerificationResult(sub, EntitlementFor(allowlist, d.userID, Some(sub.row), d.now)));
    }

    /** Defaults for what the caller left out, and the purchase as Google reports it. */
    method FetchGooglePurchase(d: GoogleCheck) returns (r: Result<G.Purchase, ServiceError>, subscriptionID: string)
      ensures GoogleCheckPlan(cfg, d) == (match r
                                          case Err(e) => Refuse(e)
                                          case Ok(p) => Check(GooglePurchase(p, subscriptionID, d), d.fault))
    {
      subscriptionID := d.subscriptionID;
      if d.purchaseToken == "" {
        return Err(InvalidWebhookPayload), subscriptionID;
      }
      if subscriptionID == "" {
        subscriptionID := GOOGLE_SUBSCRIPTION_ID;
      }
      var packageName := d.packageName;
      if packageName == "" {
        packageName := cfg.googlePackageName;
      }
      if !cfg.hasGoogleClient {
        return Err(GoogleNotConfigured), subscriptionID;
      }
      var googleSub := G.GetSubscription(cfg.parseRFC3339, cfg.clientPackageName, packageName, subscriptionID,
                                         d.purchaseToken, d.reply);
      if googleSub.Err? {
        return Err(InvalidWebhookPayload), subscriptionID;
      }
      return Ok(googleSub.value), subscriptionID;
    }

    /** The transaction of a Google verification, between begin and commit. */
    method StoreGooglePurchase(googleSub: G.Purchase, subscriptionID: string, d: GoogleCheck)
      returns (r: Result<Subscription, ServiceError>)
      requires Valid(repo.rows)
      modifies repo
      ensures r.Ok? ==> fresh(r.value)
      ensures var (after, result) := CheckBody(old(repo.Contents()),
                                               GooglePurchase(googleSub, subscriptionID, d), d.fault);
              && repo.Contents() == after
              && (match result
                  case Ok(row) => r.Ok? && r.value.row == row
                  case Err(e) => r == Err(e))
    {
      var sub, existed := PrepareGoogle(googleSub, subscriptionID, d);
      if sub.Err? {
        return Err(Storage(sub.error));
      }
      var e := Persist(sub.value, existed, d.fault == WriteFails);
      if e.Some? {
        return Err(Storage(e.value));
      }
      return Ok(sub.value);
    }

    /** The object a verified Google purchase is stored from: the one found for it, or a new one. */
    method PrepareGoogle(googleSub: G.Purchase, subscriptionID: string, d: GoogleCheck)
      returns (r: Result<Subscription, RepoError>, existed: bool)
      requires Valid(repo.rows)
      ensures var p := GooglePurchase(googleSub, subscriptionID, d);
              Prepared(r, existed, Find(repo.rows, p.key), p, d.fault == LookupFails)
      ensures r.Ok? ==> fresh(r.value)
    {
      var (targetStatus, autoRenew) := MapGoogleStatus(0, googleSub, d.now);
      var productID := googleSub.FullProductID();
      if productID == "" {
        productID := subscriptionID;
      }
      var existing := repo.FindByProviderAndPurchaseToken(Google, d.purchaseToken, d.fault == LookupFails);
      if existing.Err? && existing.error != NotFound {
        return existing, false;
      }
      existed := existing.Ok?;
      var sub: Subscription;
      if existed {
        sub := existing.value;
      } else {
        sub := new Subscription.New(d.freshID, d.userID, Google, productID, d.now);
        sub.row := sub.row.(purchaseToken := Some(d.purchaseToken));
      }
      FillVerifiedGoogle(sub, googleSub, productID, targetStatus, autoRenew, d,
                         GooglePurchase(googleSub, subscriptionID, d));
      return Ok(sub), existed;
    }

    /** The assignments a verified Google purchase makes to the object found for it, or to a new one
        (whose user, product and cancellation time are right already). */
    method FillVerifiedGoogle(sub: Subscription, googleSub: G.Purchase, productID: string, targetStatus: Status,
        autoRenew: bool, d: GoogleCheck, ghost p: Purchase)
      requires p.userID == d.userID && p.productID == productID && p.now == d.now
      requires p.transactionID == Nonempty(googleSub.latestOrderID) && p.environment == EnvironmentOf(googleSub)
      requires p.status == targetStatus && p.autoRenew == autoRenew && p.expiresAt == ExpiryOf(googleSub)
      requires p.clearsCancellation <==> targetStatus == Active
      modifies sub
      ensures sub.row == Verified(Some(old(sub.row)), p)
    {
      var incomingExpiresAt: Option<Time> := None;
      if googleSub.expiryTime != ZERO_TIME {
        incomingExpiresAt := Some(googleSub.expiryTime);
      }
      var env := Production;
      if googleSub.testPurchase {
        env := Sandbox;
      }
      sub.row := sub.row.(userID := d.userID);
      sub.row := sub.row.(productID := productID);
      if googleSub.latestOrderID != "" {
        sub.row := sub.row.(transactionID := Some(googleSub.latestOrderID));
      }
      sub.row := sub.row.(status := targetStatus);
      sub.row := sub.row.(environment := Some(env));
      sub.row := sub.row.(expiresAt := incomingExpiresAt);
      sub.row := sub.row.(autoRenew := Some(autoRenew));
      if targetStatus == Active {
        sub.row := sub.row.(cancelledAt := None);
      }
      sub.row := sub.row.(updatedAt := d.now);
    }
  }
}
