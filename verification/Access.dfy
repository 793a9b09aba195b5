/** From a store's notification to access: what a row written by it grants, and when. */
module Access {
  import opened Wrappers
  import opened Domain
  import opened StatusMapping
  import opened Jobs
  import opened Plans
  import A = AppleStore
  import G = GooglePlay

  /** An instant a purchase is still good at when it may have no expiry. */
  predicate GoodAt(expiresAt: Option<Time>, t: Time) {
    expiresAt.Some? ==> expiresAt.value > t
  }

  /** An instant before an expiry that has to be there. */
  predicate PaidAt(expiresAt: Option<Time>, t: Time) {
    expiresAt.Some? && expiresAt.value > t
  }

  /** The notices after which a purchase is paid for: the failed renewal only in grace. */
  predicate KeepsPurchase(n: A.NotificationPayload, renewal: Option<A.RenewalInfo>, now: Time) {
    || n.notificationType in {"SUBSCRIBED", "DID_RENEW", "DID_CHANGE_RENEWAL_STATUS"}
    || (n.notificationType == "DID_FAIL_TO_RENEW"
        && (n.subtype == "GRACE_PERIOD" || (renewal.Some? && renewal.value.gracePeriodExpiresDate > MillisOf(now))))
  }

  predicate TurnsRenewalOff(n: A.NotificationPayload, renewal: Option<A.RenewalInfo>) {
    n.notificationType == "DID_CHANGE_RENEWAL_STATUS"
    && (n.subtype == "AUTO_RENEW_DISABLED" || (renewal.Some? && renewal.value.autoRenewStatus == 0))
  }

  /** The access an App Store notification grants at `t`: the purchase is paid for, and unexpired; without an
      expiry it is good as long as it renews. */
  predicate AppleGrants(n: A.NotificationPayload, renewal: Option<A.RenewalInfo>, expiresAt: Option<Time>, now: Time,
      t: Time)
  {
    KeepsPurchase(n, renewal, now) && if expiresAt.Some? then expiresAt.value > t else !TurnsRenewalOff(n, renewal)
  }

  /** Whatever row an App Store notification is written over, the row grants access afterwards exactly when
      the notification does, and it renews exactly if the notification makes it active. */
  lemma AppleAccessExactly(cfg: Config, d: AppleDelivery, row: Row, t: Time)
    requires ApplePlan(cfg, d).Hook?
    ensures var n := cfg.verifier.notification(d.signedPayload).value;
            var tx := cfg.verifier.transaction(n.signedTransactionInfo);
            var renewal := if n.signedRenewalInfo == "" then None else cfg.verifier.renewalInfo(n.signedRenewalInfo);
            var after := Changed(row, ApplePlan(cfg, d).change);
            && tx.Some?
            && (after.HasActiveAccess(t) <==> AppleGrants(n, renewal, PositiveMilli(tx.value.expiresDate), d.now, t))
            && (after.autoRenew == Some(true) <==> after.status == Active)
            && (after.status == Revoked <==> n.notificationType in {"REFUND", "REVOKE"})
            && (after.status == Expired <==> n.notificationType in {"EXPIRED", "GRACE_PERIOD_EXPIRED"})
  {
  }

  predicate StateIsKnown(p: G.Purchase) {
    !p.state.StateUnspecified? && !p.state.StatePending?
  }

  predicate IsTakenBack(notificationType: int, p: G.Purchase) {
    notificationType == 12 || p.cancellationReason == G.DeveloperInitiated
  }

  /** For a purchase in a state Google names, the row grants access at `t` exactly if the purchase has not
      been taken back and is active, in grace or cancelled, and unexpired at `t`; only a renewing or
      grace-period purchase may do without an expiry. The kind of notification does not matter otherwise. */
  lemma GoogleAccessExactly(cfg: Config, m: G.PubSubMessage, n: G.DeveloperNotification, s: G.SubscriptionNotification,
      p: G.Purchase, now: Time, row: Row, t: Time)
    requires StateIsKnown(p) && now <= t
    ensures Changed(row, GoogleChange(cfg, m, n, s, p, now)).HasActiveAccess(t)
            <==> !IsTakenBack(s.notificationType, p)
                 && match p.state
                    case StateActive => if p.autoRenewing then GoodAt(ExpiryOf(p), t) else PaidAt(ExpiryOf(p), t)
                    case StateInGracePeriod => GoodAt(ExpiryOf(p), t)
                    case StateCanceled => PaidAt(ExpiryOf(p), t)
                    case _ => false
  {
  }

  /** A verification and a webhook map one purchase to the same status and auto-renewal, unless the webhook
      is a revocation notice or the purchase is in no state Google names. */
  lemma VerificationAgreesWithWebhook(p: G.Purchase, notificationType: int, now: Time)
    requires notificationType != 12 && StateIsKnown(p)
    ensures MapGoogleStatus(notificationType, p, now) == MapGoogleStatus(0, p, now)
  {
  }
}
