/**
 * The four orchestrations of `DerivService` as functions from the store
 * before the call to the result and the store after it. The environment's
 * answers to every bridge and provider call are fixed in advance by an
 * oracle argument; generated transaction numbers and the clock come from it
 * too. The class in Service performs the same steps one call at a time and
 * is proved equal to these functions.
 */
module Saga {
  import opened Wrappers
  import opened Money
  import opened DerivTransfer
  import opened Bridge

  /** The exceptions the orchestrations throw. */
  datatype Failure =
    | UserDataFailed(message: string)
    | BelowMinimumDeposit
    | InsufficientFunds(balanceUsd: real)
    | AlreadyProcessed
    | DepositCreateFailed(message: string)
    | TransferFailed(message: string)
    | Unreconciled(transactionId: string)
    | BelowMinimumWithdrawal
    | RateUnavailable
    | PendingWithdrawalExists
    | WithdrawalCreateFailed(message: string)
    | DepositNotFound
    | DepositUpdateFailed(message: string)
    | WithdrawalNotFound
    | UndefinedKey(key: string)
    | WithdrawalUpdateFailed(message: string)

  /** The exception's message. The balance in the insufficient-funds
      message is formatted by `number_format`, which is not modelled. */
  function Message(f: Failure): string {
    match f
    case UserDataFailed(m) => m
    case BelowMinimumDeposit => "The minimum deposit amount is $2.50 USD."
    case InsufficientFunds(_) => "Insufficient funds."
    case AlreadyProcessed => "Transaction already processed."
    case DepositCreateFailed(m) => Prefixed("Failed to create deposit request: ", m)
    case TransferFailed(m) => m
    case Unreconciled(id) => Prefixed("Transfer completed but system update failed. Contact support with transaction ID: ", id)
    case BelowMinimumWithdrawal => "The minimum withdrawal amount is $2.50 USD."
    case RateUnavailable => "Exchange rate not available. Please try again later."
    case PendingWithdrawalExists => "You have a pending withdrawal request. Please wait for it to be processed."
    case WithdrawalCreateFailed(m) => Prefixed("Failed to create withdrawal request: ", m)
    case DepositNotFound => "Deposit request not found"
    case DepositUpdateFailed(m) => Prefixed("Failed to update deposit request: ", m)
    case WithdrawalNotFound => "Withdrawal request not found"
    case UndefinedKey(k) => "Undefined array key \"" + k + "\""
    case WithdrawalUpdateFailed(m) => Prefixed("Failed to update withdrawal request: ", m)
  }

  /** The endpoint's or the provider's message is passed on unchanged, a
      failed write's message ends in the bridge's message, and the
      unreconciled-transfer message ends in the transaction id the customer
      quotes to support. */
  lemma MessageCarriesDetail(f: Failure)
    ensures f.UserDataFailed? || f.TransferFailed? ==> Message(f) == f.message
    ensures f.Unreconciled? ==> |Message(f)| >= |f.transactionId| && Message(f)[|Message(f)| - |f.transactionId|..] == f.transactionId
    ensures f.DepositCreateFailed? || f.DepositUpdateFailed? || f.WithdrawalCreateFailed? || f.WithdrawalUpdateFailed? ==>
              |Message(f)| >= |f.message| && Message(f)[|Message(f)| - |f.message|..] == f.message
  {
    match f
    case Unreconciled(id) =>
    case DepositCreateFailed(m) =>
    case DepositUpdateFailed(m) =>
    case WithdrawalCreateFailed(m) =>
    case WithdrawalUpdateFailed(m) =>
    case _ =>
  }

  /** A message made of a fixed text followed by a detail. */
  function Prefixed(text: string, detail: string): (m: string)
    ensures |m| >= |detail| && m[|m| - |detail|..] == detail
  {
    assert (text + detail)[|text|..] == detail;
    text + detail
  }

  /** The result of an orchestration and the store it leaves behind. */
  datatype Step<+T> = Step(result: Result<T, Failure>, store: Store)

  /** processDeposit's success value: the provider's transfer reply. */
  datatype DepositReceipt = DepositReceipt(data: ProviderData)

  /** processWithdrawal's success value. */
  datatype WithdrawalReceipt = WithdrawalReceipt(requestId: nat, amount: real, crNumber: string)

  /** completeDeposit's success value: the stored record when it was already
      processed, otherwise the provider's transfer reply. */
  datatype DepositCompletion = DepositAlreadyProcessed(record: DepositRequest) | DepositProcessed(data: ProviderData)

  /** completeWithdrawal's success value: in both cases the record as read. */
  datatype WithdrawalCompletion = WithdrawalAlreadyProcessed(record: WithdrawalRequest) | WithdrawalProcessed(record: WithdrawalRequest)

  datatype DepositArgs = DepositArgs(transactionId: string, walletId: string, crNumber: string, amount: real, sessionId: string)

  datatype DepositOracle = DepositOracle(
    userData: UserDataReply,
    duplicate: DuplicateReply,
    transactionNumber: string,
    create: WriteReply,
    provider: ProviderScript,
    update: WriteReply,
    ledger: WriteReply,
    userInfo: InfoReply,
    now: Timestamp)

  datatype WithdrawalArgs = WithdrawalArgs(walletId: string, crNumber: string, amount: real, sessionId: string)

  datatype WithdrawalOracle = WithdrawalOracle(
    sellRate: RateReply,
    pending: PendingReply,
    create: WriteReply,
    userInfo: InfoReply,
    now: Timestamp)

  datatype CompleteDepositOracle = CompleteDepositOracle(
    read: bool,
    provider: ProviderScript,
    update: WriteReply,
    userInfo: InfoReply,
    now: Timestamp)

  datatype CompleteWithdrawalOracle = CompleteWithdrawalOracle(
    read: bool,
    sellRate: RateReply,
    update: WriteReply,
    ledger: WriteReply,
    transactionId: string,
    transactionNumber: string,
    userInfo: InfoReply,
    now: Timestamp)

  /** The buy rate's shilling price is positive (the source divides by it unguarded). */
  predicate RatePositive(o: DepositOracle) {
    o.userData.UserDataServed? ==> o.userData.data.buyRate.kes > 0.0
  }

  /** The wallet balance in dollars, `(total_credit - total_debit) / kes`:
      converted back at the buy rate it is the shilling balance. */
  function BalanceUsd(u: UserData): (usd: real)
    requires u.buyRate.kes > 0.0
    ensures usd * u.buyRate.kes == u.totalCredit - u.totalDebit
    ensures usd >= 0.0 <==> u.totalCredit >= u.totalDebit
  {
    (u.totalCredit - u.totalDebit) / u.buyRate.kes
  }

  /** The ledger entry of a completed deposit. */
  function DepositEntry(a: DepositArgs, transactionNumber: string, buy: Rate, amountUsd: real): (e: LedgerEntry)
    ensures e.direction == Dr && e.charge == DepositCharge(buy, amountUsd)
    ensures e.amount == a.amount && e.amountUsd == Some(amountUsd) && e.rate == buy.kes
    // the entry is linked to its deposit by the deposit's own ids
    ensures e.transactionId == a.transactionId && e.transactionNumber == transactionNumber && e.walletId == a.walletId
  {
    LedgerEntry(a.transactionId, transactionNumber, a.walletId, a.amount, Some(amountUsd), None,
                buy.kes, DepositCharge(buy, amountUsd), "Deposit to Deriv", Dr)
  }

  /** processDeposit(transaction_id, wallet_id, crNumber, amount, session_id). */
  function DepositSaga(s: Store, a: DepositArgs, o: DepositOracle): (out: Step<DepositReceipt>)
    requires RatePositive(o)
    ensures IdsFresh(s) ==> IdsFresh(out.store)
    ensures s.log < out.store.log
    ensures out.store.withdrawals == s.withdrawals && out.store.nextWithdrawalId == s.nextWithdrawalId
    // at most one ledger entry, and only on a successful deposit
    ensures s.ledger <= out.store.ledger && |out.store.ledger| <= |s.ledger| + 1
    ensures out.store.ledger != s.ledger ==> out.result.Ok?
    ensures out.store.outbox != s.outbox ==> out.result.Ok?
  {
    var s1 := s.Log(UserDataRead(a.walletId));
    match UserDataResult(o.userData)
    case Err(m) => Step(Err(UserDataFailed(m)), s1)
    case Ok(u) =>
      var kes := u.buyRate.kes;
      var amountUsd := ToUsd(a.amount, kes);
      if amountUsd < MinimumUsd then Step(Err(BelowMinimumDeposit), s1)
      else if BalanceUsd(u) < amountUsd then Step(Err(InsufficientFunds(BalanceUsd(u))), s1)
      else
        var s2 := s1.Log(DuplicateChecked(a.transactionId));
        if IsDuplicate(o.duplicate) then Step(Err(AlreadyProcessed), s2)
        else SettleDeposit(s2, a, o, u.buyRate, amountUsd)
  }

  /** processDeposit from the request creation on, once the checks passed:
      create the Pending record, transfer, mark the record deposited, post
      the ledger entry, notify. */
  function SettleDeposit(s: Store, a: DepositArgs, o: DepositOracle, buy: Rate, amountUsd: real): (out: Step<DepositReceipt>)
    ensures IdsFresh(s) ==> IdsFresh(out.store)
    ensures s.log < out.store.log
    ensures out.store.withdrawals == s.withdrawals && out.store.nextWithdrawalId == s.nextWithdrawalId
    ensures s.ledger <= out.store.ledger && |out.store.ledger| <= |s.ledger| + 1
    ensures out.store.ledger != s.ledger ==> out.result.Ok?
    ensures out.store.outbox != s.outbox ==> out.result.Ok?
  {
    var request := DepositRequest(a.transactionId, o.transactionNumber, a.walletId, a.crNumber,
                                  amountUsd, buy.kes, 0, o.now, None, None);
    var s3 := CreateDeposit(s, request, o.create);
    if !o.create.Accepted? then
      Step(Err(DepositCreateFailed(WriteFailure(o.create, "Failed to create deposit request", "Deposit request service unavailable"))), s3)
    else
      var t := TransferToDerivAccount(a.crNumber, amountUsd, o.provider);
      var s4 := s3.Log(TransferCalled(a.crNumber, amountUsd, t.sent, t.result.success));
      if !t.result.success then Step(Err(TransferFailed(t.result.message)), s4)
      else
        var s5 := UpdateDeposit(s4, a.transactionId, amountUsd, o.now, o.update);
        if !o.update.Accepted? then Step(Err(Unreconciled(a.transactionId)), s5)
        else
          var s6 := PostLedger(s5, DepositEntry(a, o.transactionNumber, buy, amountUsd), o.ledger);
          var s7 := s6.Log(UserInfoRead(a.walletId));
          var s8 := match NotifiablePhone(o.userInfo)
                    case Some(phone) =>
                      s7.Send([Sms(Customer(phone), DepositCompleted(o.transactionNumber, amountUsd, a.crNumber)),
                               Sms(Operations, DepositCompletedForOperations(amountUsd, a.crNumber))])
                    case None => s7;
          Step(Ok(DepositReceipt(t.result.data)), s8)
  }

  /** processWithdrawal(wallet_id, crNumber, amount, session_id). */
  function WithdrawalSaga(s: Store, a: WithdrawalArgs, o: WithdrawalOracle): (out: Step<WithdrawalReceipt>)
    ensures IdsFresh(s) ==> IdsFresh(out.store)
    ensures s.log <= out.store.log
    ensures out.store.deposits == s.deposits && out.store.nextDepositId == s.nextDepositId && out.store.ledger == s.ledger
    ensures out.store.withdrawals != s.withdrawals ==> out.result.Ok?
  {
    if a.amount < MinimumUsd then Step(Err(BelowMinimumWithdrawal), s)
    else
      var s1 := s.Log(SellRateRead);
      match SellRate(o.sellRate)
      case None => Step(Err(RateUnavailable), s1)
      case Some(rate) =>
        var s2 := s1.Log(PendingWithdrawalsChecked(a.walletId));
        if PendingWithdrawals(o.pending) != [] then Step(Err(PendingWithdrawalExists), s2)
        else
          var request := WithdrawalRequest(a.walletId, a.crNumber, a.amount, rate.kes, 0, o.now, None, None, None, None);
          var id := s2.nextWithdrawalId;
          var s3 := CreateWithdrawal(s2, request, o.create);
          if !o.create.Accepted? then
            Step(Err(WithdrawalCreateFailed(WriteFailure(o.create, "Failed to create withdrawal request", "Withdrawal request service unavailable"))), s3)
          else
            var s4 := s3.Log(UserInfoRead(a.walletId));
            var s5 := match NotifiablePhone(o.userInfo)
                      case Some(phone) =>
                        s4.Send([Sms(Customer(phone), WithdrawalRequested(a.amount)),
                                 Sms(Operations, WithdrawalRequestedForOperations(a.amount, a.crNumber))])
                      case None => s4;
            Step(Ok(WithdrawalReceipt(id, a.amount, a.crNumber)), s5)
  }

  /** Every deposit update in the log names the given transaction id. */
  predicate UpdatesOnly(log: seq<Event>, transactionId: string) {
    forall i | 0 <= i < |log| && log[i].DepositUpdateCalled? :: log[i].transactionId == transactionId
  }

  /** completeDeposit(request_id). The record is read by its request id,
      and the same request id is what the update call is given as
      transaction id. */
  function CompleteDepositSaga(s: Store, id: nat, o: CompleteDepositOracle): (out: Step<DepositCompletion>)
    ensures IdsFresh(s) ==> IdsFresh(out.store)
    ensures s.log < out.store.log
    ensures out.store.withdrawals == s.withdrawals && out.store.ledger == s.ledger
    ensures out.store.deposits.Keys == s.deposits.Keys && out.store.nextDepositId == s.nextDepositId
    // every deposit update it sends names the request id's text as transaction id
    ensures UpdatesOnly(out.store.log[|s.log|..], IdText(id))
    // and the deposits change only as that update marks them
    ensures out.store.deposits != s.deposits ==>
              id in s.deposits && out.store.deposits == MarkTransaction(s.deposits, IdText(id), s.deposits[id].amount, o.now)
  {
    var found := ReadDeposit(s, id, o.read);
    var s1 := s.Log(DepositRead(id, DepositStatus(found)));
    match found
    case None => Step(Err(DepositNotFound), s1)
    case Some(record) =>
      if record.status == 1 then Step(Ok(DepositAlreadyProcessed(record)), s1)
      else CompletePendingDeposit(s1, id, record, o)
  }

  /** completeDeposit once a record that is not yet deposited was read:
      transfer, update with the request id as transaction id, notify. */
  function CompletePendingDeposit(s: Store, id: nat, record: DepositRequest, o: CompleteDepositOracle): (out: Step<DepositCompletion>)
    ensures IdsFresh(s) ==> IdsFresh(out.store)
    ensures s.log < out.store.log
    ensures out.store.withdrawals == s.withdrawals && out.store.ledger == s.ledger
    ensures out.store.deposits.Keys == s.deposits.Keys && out.store.nextDepositId == s.nextDepositId
    ensures UpdatesOnly(out.store.log[|s.log|..], IdText(id))
    ensures out.store.deposits != s.deposits ==>
              out.store.deposits == MarkTransaction(s.deposits, IdText(id), record.amount, o.now)
  {
    var t := TransferToDerivAccount(record.crNumber, record.amount, o.provider);
    var s2 := s.Log(TransferCalled(record.crNumber, record.amount, t.sent, t.result.success));
    if !t.result.success then Step(Err(TransferFailed(t.result.message)), s2)
    else
      var s3 := UpdateDeposit(s2, IdText(id), record.amount, o.now, o.update);
      if !o.update.Accepted? then
        Step(Err(DepositUpdateFailed(WriteFailure(o.update, "Failed to update deposit request", "Deposit update service unavailable"))), s3)
      else
        var s4 := s3.Log(UserInfoRead(record.walletId));
        var s5 := match NotifiablePhone(o.userInfo)
                  case Some(phone) =>
                    s4.Send([Sms(Customer(phone), DepositCallbackCompleted(record.transactionNumber, record.amount, record.crNumber))])
                  case None => s4;
        Step(Ok(DepositProcessed(t.result.data)), s5)
  }

  /** The ledger entry of a completed withdrawal, with the generated ids as
      fallbacks for a record that has none. */
  function WithdrawalEntry(record: WithdrawalRequest, sell: Rate, o: CompleteWithdrawalOracle): (e: LedgerEntry)
    ensures e.direction == Cr && e.charge == WithdrawalCharge(sell, record.amount)
    ensures e.amount == record.amount && e.amountKes == Some(ToKes(record.amount, record.rate)) && e.rate == record.rate
    ensures record.transactionId.Some? ==> e.transactionId == record.transactionId.value
    ensures record.transactionId.None? ==> e.transactionId == o.transactionId
    ensures record.transactionNumber.Some? ==> e.transactionNumber == record.transactionNumber.value
    ensures record.transactionNumber.None? ==> e.transactionNumber == o.transactionNumber
    ensures e.walletId == record.walletId
  {
    LedgerEntry(
      if record.transactionId.Some? then record.transactionId.value else o.transactionId,
      if record.transactionNumber.Some? then record.transactionNumber.value else o.transactionNumber,
      record.walletId, record.amount, None, Some(ToKes(record.amount, record.rate)),
      record.rate, WithdrawalCharge(sell, record.amount), "Withdrawal from Deriv", Cr)
  }

  /** completeWithdrawal(request_id). The sell rate is read without checking
      that one came back; reading its `bought_at` then raises. The SMS text
      reads the record's `transaction_number` without a fallback, which
      raises when the record has none. */
  function CompleteWithdrawalSaga(s: Store, id: nat, o: CompleteWithdrawalOracle): (out: Step<WithdrawalCompletion>)
    ensures IdsFresh(s) ==> IdsFresh(out.store)
    ensures s.log < out.store.log
    ensures out.store.deposits == s.deposits && out.store.nextDepositId == s.nextDepositId
    ensures out.store.nextWithdrawalId == s.nextWithdrawalId
    ensures s.ledger <= out.store.ledger && |out.store.ledger| <= |s.ledger| + 1
  {
    var found := ReadWithdrawal(s, id, o.read);
    var s1 := s.Log(WithdrawalRead(id, WithdrawalStatus(found)));
    match found
    case None => Step(Err(WithdrawalNotFound), s1)
    case Some(record) =>
      if record.status == 1 then Step(Ok(WithdrawalAlreadyProcessed(record)), s1)
      else
        var s2 := s1.Log(SellRateRead);
        match SellRate(o.sellRate)
        case None => Step(Err(UndefinedKey("bought_at")), s2)
        case Some(sell) =>
          var s3 := UpdateWithdrawal(s2, id, record.amount, o.now, o.update);
          if !o.update.Accepted? then
            Step(Err(WithdrawalUpdateFailed(WriteFailure(o.update, "Failed to update withdrawal request", "Withdrawal update service unavailable"))), s3)
          else
            var s4 := PostLedger(s3, WithdrawalEntry(record, sell, o), o.ledger);
            var s5 := s4.Log(UserInfoRead(record.walletId));
            match NotifiablePhone(o.userInfo)
            case None => Step(Ok(WithdrawalProcessed(record)), s5)
            case Some(phone) =>
              match record.transactionNumber
              case None => Step(Err(UndefinedKey("transaction_number")), s5)
              case Some(number) =>
                Step(Ok(WithdrawalProcessed(record)),
                     s5.Send([Sms(Customer(phone), WithdrawalCompleted(number, record.amount, record.crNumber))]))
  }
}
