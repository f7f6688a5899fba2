/**
 * `DerivService::transferToDerivAccount`: one authorize request and at most
 * one payment-agent transfer request to the provider, and the classification
 * of the two replies into a success or failure result. The WebSocket
 * transport is not modelled: the decoded replies, or the exception raised
 * while obtaining them, are given as a ProviderScript.
 */
module DerivTransfer {
  import opened Wrappers

  /** The `error` object of a provider reply; its `message` may be absent. */
  datatype ProviderError = ProviderError(message: Option<string>)

  /** The decoded reply to `{authorize: token}`: an error, and the agent's
      `authorize.balance` when the reply reports one. */
  datatype AuthReply = AuthReply(error: Option<ProviderError>, balance: Option<real>)

  /** The decoded reply to the transfer request: an error, and the value of
      its `paymentagent_transfer` field when present. */
  datatype TransferReply = TransferReply(error: Option<ProviderError>, paymentagentTransfer: Option<int>)

  /** An exception raised while connecting, sending or receiving. */
  datatype Fault = ConnectionFault(message: string) | OtherFault(message: string)

  /** What one round trip produced: a decoded reply, or an exception. */
  datatype Received<+T> = Got(reply: T) | Threw(fault: Fault)

  /** The provider's behaviour for one call: the authorize round trip, and the
      transfer round trip should the transfer request be sent. */
  datatype ProviderScript = ProviderScript(authorize: Received<AuthReply>, transfer: Received<TransferReply>)

  /** The `data` part of a transfer result. */
  datatype ProviderData = NoData | AuthData(auth: AuthReply) | TransferData(transfer: TransferReply)

  /** `{success, message, data}` as returned by transferToDerivAccount. */
  datatype TransferResult = TransferResult(success: bool, message: string, data: ProviderData)

  /** The payment-agent transfer request: `{paymentagent_transfer: 1,
      transfer_to, amount, currency, description}`. */
  datatype PaymentRequest = PaymentRequest(transferTo: string, amount: real, currency: string, description: string)

  /** A call's result, and the transfer request it sent, if it got that far. */
  datatype Attempt = Attempt(result: TransferResult, sent: Option<PaymentRequest>)

  /** The authorize reply lets the transfer go ahead: no error, and no
      reported balance below the amount. */
  predicate Authorized(auth: AuthReply, amount: real) {
    auth.error.None? && !(auth.balance.Some? && auth.balance.value < amount)
  }

  /** The transfer reply confirms the transfer. */
  predicate Confirmed(reply: TransferReply) {
    reply.error.None? && reply.paymentagentTransfer == Some(1)
  }

  /** The error's `message`, else the fallback text. */
  function ErrorText(e: ProviderError, fallback: string): (t: string)
    ensures e.message.Some? ==> t == e.message.value
    ensures e.message.None? ==> t == fallback
  {
    match e.message
    case Some(m) => m
    case None => fallback
  }

  /** An exception never escapes: it becomes a failure without data. */
  function FaultResult(f: Fault): (r: TransferResult)
    ensures !r.success && r.data == NoData
    // the exception's message, behind a prefix naming its kind
    ensures f.ConnectionFault? ==> r.message == "Connection error: " + f.message
    ensures f.OtherFault? ==> r.message == "Transfer error: " + f.message
  {
    match f
    case ConnectionFault(m) => TransferResult(false, "Connection error: " + m, NoData)
    case OtherFault(m) => TransferResult(false, "Transfer error: " + m, NoData)
  }

  function TransferOutcome(reply: TransferReply): (r: TransferResult)
    ensures r.success <==> Confirmed(reply)
    ensures r.data == TransferData(reply)
    // a reported error passes on the provider's text, else the stock one
    ensures reply.error.Some? && reply.error.value.message.Some? ==>
              r.message == reply.error.value.message.value
    ensures reply.error.Some? && reply.error.value.message.None? ==> r.message == "Transfer failed"
    ensures reply.error.None? && !r.success ==> r.message == "Unexpected response from Deriv API"
  {
    if reply.error.Some? then
      TransferResult(false, ErrorText(reply.error.value, "Transfer failed"), TransferData(reply))
    else if reply.paymentagentTransfer == Some(1) then
      TransferResult(true, "Transfer successful", TransferData(reply))
    else
      TransferResult(false, "Unexpected response from Deriv API", TransferData(reply))
  }

  /** transferToDerivAccount(loginid, amount) against the given provider behaviour. */
  function TransferToDerivAccount(loginid: string, amount: real, script: ProviderScript): (a: Attempt)
    // the transfer request is sent exactly when authorization went through
    ensures a.sent.Some? <==> script.authorize.Got? && Authorized(script.authorize.reply, amount)
    ensures a.sent.Some? ==> a.sent.value == PaymentRequest(loginid, amount, "USD", "Deposit via Stepakash")
    // success exactly when both replies say so
    ensures a.result.success <==>
              a.sent.Some? && script.transfer.Got? && Confirmed(script.transfer.reply)
    ensures a.result.success ==> a.result.message == "Transfer successful"
    // the failure messages, path by path
    ensures script.authorize.Threw? ==> a.result == FaultResult(script.authorize.fault)
    ensures script.authorize.Got? && script.authorize.reply.error.Some? ==>
              a.result.message == "Authorization failed: " + ErrorText(script.authorize.reply.error.value, "Unknown error")
    ensures a.sent.Some? && script.transfer.Threw? ==> a.result == FaultResult(script.transfer.fault)
    ensures a.sent.Some? && script.transfer.Got? ==> a.result == TransferOutcome(script.transfer.reply)
  {
    match script.authorize
    case Threw(f) => Attempt(FaultResult(f), None)
    case Got(auth) =>
      if auth.error.Some? then
        Attempt(TransferResult(false, "Authorization failed: " + ErrorText(auth.error.value, "Unknown error"), AuthData(auth)), None)
      else if auth.balance.Some? && auth.balance.value < amount then
        Attempt(TransferResult(false, "Insufficient payment agent balance", AuthData(auth)), None)
      else
        var request := PaymentRequest(loginid, amount, "USD", "Deposit via Stepakash");
        match script.transfer
        case Threw(f) => Attempt(FaultResult(f), Some(request))
        case Got(reply) => Attempt(TransferOutcome(reply), Some(request))
  }

  /** An agent balance below the amount stops the call before any transfer
      request, with its own message. */
  lemma InsufficientAgentBalance(loginid: string, amount: real, script: ProviderScript)
    requires script.authorize.Got? && script.authorize.reply.error.None?
    requires script.authorize.reply.balance.Some? && script.authorize.reply.balance.value < amount
    ensures TransferToDerivAccount(loginid, amount, script).sent == None
    ensures TransferToDerivAccount(loginid, amount, script).result ==
              TransferResult(false, "Insufficient payment agent balance", AuthData(script.authorize.reply))
  {
  }

  /** A reply without error whose `paymentagent_transfer` is not 1 is never
      taken for success. */
  lemma UnexpectedReplyIsFailure(loginid: string, amount: real, script: ProviderScript)
    requires script.authorize.Got? && Authorized(script.authorize.reply, amount)
    requires script.transfer.Got? && script.transfer.reply.error.None?
    requires script.transfer.reply.paymentagentTransfer != Some(1)
    ensures TransferToDerivAccount(loginid, amount, script).result ==
              TransferResult(false, "Unexpected response from Deriv API", TransferData(script.transfer.reply))
  {
  }

  /** A connection fault after the transfer request went out is reported as
      a plain failure, although the provider may have executed the transfer. */
  lemma FaultAfterRequestIsFailure(loginid: string, amount: real, script: ProviderScript)
    requires script.authorize.Got? && Authorized(script.authorize.reply, amount)
    requires script.transfer.Threw?
    ensures TransferToDerivAccount(loginid, amount, script).sent.Some?
    ensures !TransferToDerivAccount(loginid, amount, script).result.success
  {
  }
}
