/** How store vocabulary becomes domain vocabulary: environments, products and statuses. */
module StatusMapping {
  import opened Wrappers
  import opened Domain
  import A = AppleStore
  import G = GooglePlay

  const PRODUCT_PRO_MONTHLY := "beebase_pro_monthly"
  const PRODUCT_PRO_YEARLY := "beebase_pro_yearly"
  const GOOGLE_SUBSCRIPTION_ID := "beebase_pro"

  predicate IsSupportedProduct(productID: string) {
    productID == PRODUCT_PRO_MONTHLY || productID == PRODUCT_PRO_YEARLY
  }

  /** Lower-casing, exact for every character whose lower case is an ASCII letter: the ASCII capitals,
      the dotted capital I and the Kelvin sign. */
  function ToLower(c: char): char {
    if 'A' <= c <= 'Z' then c - 'A' + 'a'
    else if c == '\U{0130}' then 'i'
    else if c == '\U{212A}' then 'k'
    else c
  }

  function LowerCase(s: string): string {
    if s == "" then "" else [ToLower(s[0])] + LowerCase(s[1..])
  }

  function MapEnvironment(raw: string): Environment {
    if LowerCase(raw) == "production" then Production else Sandbox
  }

  lemma {:induction false} LowerCaseAt(s: string, i: nat)
    requires i < |s|
    ensures |LowerCase(s)| == |s| && LowerCase(s)[i] == ToLower(s[i])
  {
    if i == 0 {
      LowerCaseLength(s);
    } else {
      LowerCaseAt(s[1..], i - 1);
    }
  }

  lemma {:induction false} LowerCaseLength(s: string)
    ensures |LowerCase(s)| == |s|
  {
    if s == "" {
    } else {
      LowerCaseLength(s[1..]);
    }
  }

  /** The word, in any mix of small and capital letters; the dotted capital I counts as one. */
  predicate SpellsProduction(raw: string) {
    && |raw| == 10
    && (forall i :: 0 <= i < 10 ==>
          raw[i] == "production"[i] || raw[i] == "PRODUCTION"[i] || (i == 7 && raw[i] == '\U{0130}'))
  }

  /** Production is what spells it; everything else is the sandbox. */
  lemma EnvironmentExactly(raw: string)
    ensures MapEnvironment(raw) == Production <==> SpellsProduction(raw)
  {
    LowerCaseLength(raw);
    forall i: nat | i < |raw|
      ensures LowerCase(raw)[i] == ToLower(raw[i])
    {
      LowerCaseAt(raw, i);
    }
    if |raw| == 10 {
      forall i: nat | i < 10
        ensures ToLower(raw[i]) == "production"[i]
                <==> raw[i] == "production"[i] || raw[i] == "PRODUCTION"[i] || (i == 7 && raw[i] == '\U{0130}')
      {
        LetterExactly(raw[i], "production"[i], "PRODUCTION"[i]);
      }
    }
  }

  /** The characters whose lower case is a given small letter. */
  lemma LetterExactly(c: char, small: char, capital: char)
    requires 'a' <= small <= 'z' && capital == small - 'a' + 'A'
    ensures ToLower(c) == small <==>
              c == small || c == capital || (small == 'i' && c == '\U{0130}') || (small == 'k' && c == '\U{212A}')
  {
  }

  /** The status and auto-renew flag an App Store notification stands for, if any. */
  function MapAppleStatus(notificationType: string, subtype: string, renewal: Option<A.RenewalInfo>, now: Time)
    : Option<(Status, bool)>
  {
    if notificationType == A.TYPE_SUBSCRIBED then Some((Active, true))
    else if notificationType == A.TYPE_DID_RENEW then Some((Active, true))
    else if notificationType == A.TYPE_DID_CHANGE_RENEWAL_STATUS then
      if subtype == A.SUBTYPE_AUTO_RENEW_DISABLED || (renewal.Some? && renewal.value.autoRenewStatus == 0) then
        Some((Cancelled, false))
      else if subtype == A.SUBTYPE_AUTO_RENEW_ENABLED || (renewal.Some? && renewal.value.autoRenewStatus == 1) then
        Some((Active, true))
      else None
    else if notificationType == A.TYPE_DID_FAIL_TO_RENEW then
      if subtype == A.SUBTYPE_GRACE_PERIOD
         || (renewal.Some? && renewal.value.gracePeriodExpiresDate > MillisOf(now)) then
        Some((GracePeriod, false))
      else Some((BillingRetry, false))
    else if notificationType == A.TYPE_GRACE_PERIOD_EXPIRED then Some((Expired, false))
    else if notificationType == A.TYPE_EXPIRED then Some((Expired, false))
    else if notificationType == A.TYPE_REFUND || notificationType == A.TYPE_REVOKE then Some((Revoked, false))
    else None
  }

  /** The status code of the App Store Server API. */
  function MapAppleAPIStatus(status: int): Option<Status> {
    match status
    case 1 => Some(Active)
    case 2 => Some(Expired)
    case 3 => Some(BillingRetry)
    case 4 => Some(GracePeriod)
    case 5 => Some(Revoked)
    case _ => None
  }

  /** The status and auto-renew flag a Google purchase stands for under a notification type. */
  function MapGoogleStatus(notificationType: int, sub: G.Purchase, now: Time): (Status, bool) {
    if notificationType == G.REVOKED || sub.cancellationReason == G.DeveloperInitiated then (Revoked, false)
    else
      match sub.state
      case StateActive => if !sub.autoRenewing then (Cancelled, false) else (Active, true)
      case StateInGracePeriod => (GracePeriod, sub.autoRenewing)
      case StateOnHold => (BillingRetry, false)
      case StateCanceled =>
        if sub.expiryTime != ZERO_TIME && sub.expiryTime < now then (Expired, false) else (Cancelled, false)
      case StateExpired => (Expired, false)
      case StatePaused => (BillingRetry, false)
      case _ =>
        if notificationType == G.RECOVERED || notificationType == G.RENEWED
           || notificationType == G.PURCHASED || notificationType == G.RESTARTED then (Active, true)
        else if notificationType == G.IN_GRACE_PERIOD then (GracePeriod, false)
        else if notificationType == G.ON_HOLD then (BillingRetry, false)
        else if notificationType == G.CANCELED then (Cancelled, false)
        else if notificationType == G.EXPIRED then (Expired, false)
        else if notificationType == G.REVOKED then (Revoked, false)
        else (Active, sub.autoRenewing)
  }

  /** The developer's cancellation is the one that counts: it is present and none before it is. */
  predicate CancelledByDeveloper(c: Option<G.CanceledStateContext>) {
    c.Some? && c.value.developerInitiated && c.value.userInitiated.None? && !c.value.systemInitiated
  }

  predicate RenewsUnder(items: seq<G.LineItem>, productID: string) {
    exists li :: li in items && li.autoRenewEnabled == Some(true) && (productID != "" ==> li.productID == productID)
  }

  /** What a purchase maps to under any notification type. */
  lemma GoogleStatusRange(notificationType: int, p: G.Purchase, now: Time)
    ensures var (status, autoRenew) := MapGoogleStatus(notificationType, p, now);
            && status.Valid() && status != Inactive
            && (status == Revoked <==> notificationType == 12 || p.cancellationReason == G.DeveloperInitiated)
            && (autoRenew ==> status == Active || status == GracePeriod)
            && (autoRenew && status == GracePeriod ==> p.autoRenewing)
  {
  }

  /** Whatever Google's client returns, under every notification type, maps to a stored status other
      than inactive: revoked exactly on a revocation notice or a developer cancellation, auto-renewing
      only while active or in grace, and in grace only if a line item of the product renews. */
  lemma GooglePipelineIsTotal(parse: G.TimeParser, defaultPackage: string, package: string, subscriptionID: string,
      token: string, body: G.PurchaseV2, notificationType: int, now: Time)
    requires G.Fetched(parse, defaultPackage, package, subscriptionID, token, G.Body(Some(body))).Ok?
    ensures var p := G.Fetched(parse, defaultPackage, package, subscriptionID, token, G.Body(Some(body))).value;
            var (status, autoRenew) := MapGoogleStatus(notificationType, p, now);
            && status.Valid() && status != Inactive
            && (status == Revoked <==> (notificationType == 12 || CancelledByDeveloper(body.canceledStateContext)))
            && (autoRenew ==> status == Active || status == GracePeriod)
            && (autoRenew && status == GracePeriod ==> RenewsUnder(body.lineItems, subscriptionID))
            && p.purchaseToken == token != ""
  {
    GoogleStatusRange(notificationType,
                      G.Fetched(parse, defaultPackage, package, subscriptionID, token, G.Body(Some(body))).value, now);
    var items := body.lineItems;
    var i := if subscriptionID == "" then 0 else G.FirstOf(items, subscriptionID);
    assert items[i] in items;
  }
}
