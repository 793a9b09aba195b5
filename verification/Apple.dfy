/** What the App Store sends, and the JWS verifier seen as a partial function on tokens. */
module AppleStore {
  import opened Wrappers

  const TYPE_SUBSCRIBED := "SUBSCRIBED"
  const TYPE_DID_RENEW := "DID_RENEW"
  const TYPE_DID_CHANGE_RENEWAL_STATUS := "DID_CHANGE_RENEWAL_STATUS"
  const TYPE_DID_FAIL_TO_RENEW := "DID_FAIL_TO_RENEW"
  const TYPE_EXPIRED := "EXPIRED"
  const TYPE_GRACE_PERIOD_EXPIRED := "GRACE_PERIOD_EXPIRED"
  const TYPE_REFUND := "REFUND"
  const TYPE_REVOKE := "REVOKE"

  const SUBTYPE_AUTO_RENEW_ENABLED := "AUTO_RENEW_ENABLED"
  const SUBTYPE_AUTO_RENEW_DISABLED := "AUTO_RENEW_DISABLED"
  const SUBTYPE_GRACE_PERIOD := "GRACE_PERIOD"

  datatype NotificationPayload = NotificationPayload(
    notificationType: string,
    subtype: string,
    notificationUUID: string,
    signedTransactionInfo: string,
    signedRenewalInfo: string,
    signedDate: int)

  datatype TransactionInfo = TransactionInfo(
    transactionID: string,
    originalTransactionID: string,
    bundleID: string,
    productID: string,
    expiresDate: int,
    appAccountToken: string,
    signedDate: int,
    environment: string)

  datatype RenewalInfo = RenewalInfo(autoRenewStatus: int, gracePeriodExpiresDate: int)

  /** Signature and certificate checks included: a token decodes to a record or does not. */
  datatype Verifier = Verifier(
    notification: string -> Option<NotificationPayload>,
    transaction: string -> Option<TransactionInfo>,
    renewalInfo: string -> Option<RenewalInfo>)

  datatype LastTransaction = LastTransaction(
    status: int,
    signedTransactionInfo: string,
    signedRenewalInfo: string)

  datatype SubscriptionData = SubscriptionData(lastTransactions: seq<LastTransaction>)

  datatype SubscriptionResponse = SubscriptionResponse(environment: string, data: seq<SubscriptionData>)

  datatype ApiError = ApiUnavailable | ApiEnvironment | ApiMalformed | ApiRefused

  /** The App Store Server API's answer to one request. */
  datatype ApiReply = Answered(response: SubscriptionResponse) | Failed(error: ApiError)
}
