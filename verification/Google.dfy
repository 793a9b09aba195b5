/** Google Play's notifications and purchases, and the client that normalises a purchase. */
module GooglePlay {
  import opened Wrappers
  import opened Domain

  const RECOVERED := 1
  const RENEWED := 2
  const CANCELED := 3
  const PURCHASED := 4
  const ON_HOLD := 5
  const IN_GRACE_PERIOD := 6
  const RESTARTED := 7
  const REVOKED := 12
  const EXPIRED := 13

  datatype PubSubMessage = PubSubMessage(messageID: string, publishTime: string)

  datatype SubscriptionNotification = SubscriptionNotification(
    notificationType: int,
    purchaseToken: string,
    subscriptionID: string)

  datatype DeveloperNotification = DeveloperNotification(
    packageName: string,
    eventTimeMillis: int,
    subscription: Option<SubscriptionNotification>,
    test: bool)

  datatype PurchaseState =
    | StateUnspecified
    | StatePending
    | StateActive
    | StatePaused
    | StateInGracePeriod
    | StateOnHold
    | StateCanceled
    | StateExpired

  datatype CancellationReason =
    | UserInitiated
    | SystemInitiated
    | DeveloperInitiated
    | Replacement
    | Unknown

  /** The normalised purchase the service works on. */
  datatype Purchase = Purchase(
    packageName: string,
    productID: string,
    basePlanID: string,
    purchaseToken: string,
    state: PurchaseState,
    expiryTime: Time,
    startTime: Option<Time>,
    autoRenewing: bool,
    latestOrderID: string,
    cancelledAt: Option<Time>,
    cancellationReason: CancellationReason,
    acknowledgementState: string,
    testPurchase: bool)
  {
    function FullProductID(): string {
      if basePlanID != "" then productID + "_" + basePlanID else productID
    }
  }

  datatype LineItem = LineItem(
    productID: string,
    basePlanID: Option<string>,
    expiryTime: string,
    autoRenewEnabled: Option<bool>,
    latestSuccessfulOrderID: string)

  /** Who cancelled: each part may be present; `userInitiated` carries the cancel time text. */
  datatype CanceledStateContext = CanceledStateContext(
    userInitiated: Option<string>,
    systemInitiated: bool,
    developerInitiated: bool,
    replacement: bool)

  /** The purchase as the API returns it. */
  datatype PurchaseV2 = PurchaseV2(
    lineItems: seq<LineItem>,
    subscriptionState: string,
    startTime: string,
    canceledStateContext: Option<CanceledStateContext>,
    acknowledgementState: string,
    testPurchase: bool)

  datatype ClientError = SubscriptionNotFound | InvalidArguments | ApiFailed | MalformedResponse

  /** The HTTP answer: a body (possibly empty), a 404, or any other failure. */
  datatype ApiReply = Body(purchase: Option<PurchaseV2>) | Status404 | OtherFailure

  function MapV2State(raw: string): PurchaseState {
    match raw
    case "SUBSCRIPTION_STATE_ACTIVE" => StateActive
    case "SUBSCRIPTION_STATE_IN_GRACE_PERIOD" => StateInGracePeriod
    case "SUBSCRIPTION_STATE_ON_HOLD" => StateOnHold
    case "SUBSCRIPTION_STATE_CANCELED" => StateCanceled
    case "SUBSCRIPTION_STATE_EXPIRED" => StateExpired
    case "SUBSCRIPTION_STATE_PAUSED" => StatePaused
    case "SUBSCRIPTION_STATE_PENDING" => StatePending
    case _ => StateUnspecified
  }

  type TimeParser = string -> Option<Time>

  /** `i` is the line item normalisation must use. */
  predicate IsRelevant(items: seq<LineItem>, filter: string, i: nat) {
    && i < |items|
    && (filter == "" ==> i == 0)
    && (filter != "" ==> items[i].productID == filter && forall j :: 0 <= j < i ==> items[j].productID != filter)
  }

  /** Position of the first line item of product `filter`; the length of `items` when there is none. */
  function FirstOf(items: seq<LineItem>, filter: string): (i: nat)
    ensures i <= |items|
    ensures forall j :: 0 <= j < i ==> items[j].productID != filter
    ensures i < |items| ==> items[i].productID == filter
  {
    if items == [] then 0
    else if items[0].productID == filter then 0
    else 1 + FirstOf(items[1..], filter)
  }

  function OptionalTime(parse: TimeParser, raw: string): Option<Time> {
    if raw == "" then None else parse(raw)
  }

  /** Who cancelled, and when; the first part present decides. */
  function Cancellation(parse: TimeParser, c: Option<CanceledStateContext>): (CancellationReason, Option<Time>) {
    match c
    case None => (Unknown, None)
    case Some(ctx) =>
      if ctx.userInitiated.Some? then (UserInitiated, OptionalTime(parse, ctx.userInitiated.value))
      else if ctx.systemInitiated then (SystemInitiated, None)
      else if ctx.developerInitiated then (DeveloperInitiated, None)
      else if ctx.replacement then (Replacement, None)
      else (Unknown, None)
  }

  /** The purchase that line item `item` of `sub` stands for. */
  function PurchaseOf(parse: TimeParser, packageName: string, token: string, sub: PurchaseV2, item: LineItem,
      expiry: Time): Purchase {
    var (reason, cancelledAt) := Cancellation(parse, sub.canceledStateContext);
    Purchase(packageName, item.productID,
             if item.basePlanID.Some? then item.basePlanID.value else "",
             token, MapV2State(sub.subscriptionState), expiry, OptionalTime(parse, sub.startTime),
             item.autoRenewEnabled == Some(true), item.latestSuccessfulOrderID, cancelledAt, reason,
             sub.acknowledgementState, sub.testPurchase)
  }

  /** Normalisation as one expression over the relevant line item. */
  function Normalized(parse: TimeParser, packageName: string, token: string, filter: string,
      sub: Option<PurchaseV2>): Result<Purchase, ClientError> {
    if sub.None? || sub.value.lineItems == [] then Err(MalformedResponse)
    else
      var items := sub.value.lineItems;
      var i := if filter == "" then 0 else FirstOf(items, filter);
      if i == |items| then Err(SubscriptionNotFound)
      else
        var expiry := OptionalTime(parse, items[i].expiryTime);
        if expiry.None? then Err(MalformedResponse)
        else Ok(PurchaseOf(parse, packageName, token, sub.value, items[i], expiry.value))
  }

  /** What the client answers to a request, given the HTTP reply. */
  function Fetched(parse: TimeParser, defaultPackage: string, packageName: string, subscriptionID: string,
      token: string, reply: ApiReply): Result<Purchase, ClientError> {
    var package := if packageName == "" then defaultPackage else packageName;
    if package == "" || token == "" then Err(InvalidArguments)
    else
      match reply
      case Status404 => Err(SubscriptionNotFound)
      case OtherFailure => Err(ApiFailed)
      case Body(sub) => Normalized(parse, package, token, subscriptionID, sub)
  }

  method NormalizeSubscriptionV2(parse: TimeParser, packageName: string, purchaseToken: string, filterSubID: string,
      sub: Option<PurchaseV2>) returns (r: Result<Purchase, ClientError>)
    ensures r == Normalized(parse, packageName, purchaseToken, filterSubID, sub)
  {
    if sub.None? {
      return Err(MalformedResponse);
    }
    var body := sub.value;
    if |body.lineItems| == 0 {
      return Err(MalformedResponse);
    }

    var item := body.lineItems[0];
    if filterSubID != "" {
      var matched := false;
      for i := 0 to |body.lineItems|
        invariant !matched && item == body.lineItems[0]
        invariant forall j :: 0 <= j < i ==> body.lineItems[j].productID != filterSubID
      {
        if body.lineItems[i].productID == filterSubID {
          item := body.lineItems[i];
          matched := true;
          assert i == FirstOf(body.lineItems, filterSubID);
          break;
        }
      }
      if !matched {
        return Err(SubscriptionNotFound);
      }
    }

    var basePlanID := "";
    if item.basePlanID.Some? {
      basePlanID := item.basePlanID.value;
    }

    if item.expiryTime == "" {
      return Err(MalformedResponse);
    }
    var expiryTime := parse(item.expiryTime);
    if expiryTime.None? {
      return Err(MalformedResponse);
    }

    var autoRenewing := false;
    if item.autoRenewEnabled.Some? {
      autoRenewing := item.autoRenewEnabled.value;
    }

    var startTime: Option<Time> := None;
    if body.startTime != "" {
      startTime := parse(body.startTime);
    }

    var cancelledAt: Option<Time>, cancelReason := None, Unknown;
    if body.canceledStateContext.Some? {
      var ctx := body.canceledStateContext.value;
      if ctx.userInitiated.Some? {
        cancelReason := UserInitiated;
        if ctx.userInitiated.value != "" {
          cancelledAt := parse(ctx.userInitiated.value);
        }
      } else if ctx.systemInitiated {
        cancelReason := SystemInitiated;
      } else if ctx.developerInitiated {
        cancelReason := DeveloperInitiated;
      } else if ctx.replacement {
        cancelReason := Replacement;
      }
    }

    return Ok(Purchase(packageName, item.productID, basePlanID, purchaseToken, MapV2State(body.subscriptionState),
                       expiryTime.value, startTime, autoRenewing, item.latestSuccessfulOrderID, cancelledAt,
                       cancelReason, body.acknowledgementState, body.testPurchase));
  }

  method GetSubscription(parse: TimeParser, defaultPackage: string, packageName: string, subscriptionID: string,
      purchaseToken: string, reply: ApiReply) returns (r: Result<Purchase, ClientError>)
    ensures r == Fetched(parse, defaultPackage, packageName, subscriptionID, purchaseToken, reply)
  {
    var package := packageName;
    if package == "" {
      package := defaultPackage;
    }
    if package == "" {
      return Err(InvalidArguments);
    }
    if purchaseToken == "" {
      return Err(InvalidArguments);
    }
    match reply {
      case Status404 => return Err(SubscriptionNotFound);
      case OtherFailure => return Err(ApiFailed);
      case Body(sub) => r := NormalizeSubscriptionV2(parse, package, purchaseToken, subscriptionID, sub);
    }
  }

  /** The error a request for a purchase ends in, told from the input alone: the arguments come first, then
      the answer's status, then whether the wanted product is among the line items, then its expiry. */
  lemma FetchErrorsExactly(parse: TimeParser, defaultPackage: string, package: string, subscriptionID: string,
      token: string, reply: ApiReply)
    ensures var r := Fetched(parse, defaultPackage, package, subscriptionID, token, reply);
            var sent := (package != "" || defaultPackage != "") && token != "";
            var items := if reply.Body? && reply.purchase.Some? then reply.purchase.value.lineItems else [];
            var usable := exists i: nat :: IsRelevant(items, subscriptionID, i) && items[i].expiryTime != ""
                                           && parse(items[i].expiryTime).Some?;
            var wanted := exists i: nat :: IsRelevant(items, subscriptionID, i);
            && (r == Err(InvalidArguments) <==> !sent)
            && (r == Err(ApiFailed) <==> sent && reply.OtherFailure?)
            && (r == Err(SubscriptionNotFound) <==> sent && (reply.Status404? || (items != [] && !wanted)))
            && (r == Err(MalformedResponse) <==> sent && reply.Body? && (items == [] || (wanted && !usable)))
            && (r.Ok? <==> sent && usable)
            && (r.Ok? ==> r.value.purchaseToken == token
                          && r.value.packageName == (if package == "" then defaultPackage else package))
  {
    if reply.Body? && reply.purchase.Some? {
      NormalisationIsExact(parse, package, token, subscriptionID, reply.purchase.value);
      var items := reply.purchase.value.lineItems;
      var i := if subscriptionID == "" then 0 else FirstOf(items, subscriptionID);
      if i < |items| {
        assert IsRelevant(items, subscriptionID, i);
        forall other: nat | IsRelevant(items, subscriptionID, other)
          ensures other == i
        {
        }
      }
    }
  }

  /** Normalisation uses the first line item of the wanted product (or the very first when no
      product is named), and fails exactly when there is no such item or its expiry is unusable. */
  lemma NormalisationIsExact(parse: TimeParser, packageName: string, token: string, filter: string, sub: PurchaseV2)
    ensures var r := Normalized(parse, packageName, token, filter, Some(sub));
            && (r.Ok? <==> exists i: nat :: IsRelevant(sub.lineItems, filter, i)
                                        && sub.lineItems[i].expiryTime != ""
                                        && parse(sub.lineItems[i].expiryTime).Some?)
            && (r.Ok? ==> exists i: nat :: IsRelevant(sub.lineItems, filter, i)
                                       && parse(sub.lineItems[i].expiryTime) == Some(r.value.expiryTime)
                                       && r.value.productID == sub.lineItems[i].productID
                                       && r.value.latestOrderID == sub.lineItems[i].latestSuccessfulOrderID
                                       && (r.value.autoRenewing <==> sub.lineItems[i].autoRenewEnabled == Some(true)))
            && (r == Err(SubscriptionNotFound) <==>
                  filter != "" && sub.lineItems != [] && forall li :: li in sub.lineItems ==> li.productID != filter)
  {
  }
}
