/**
 * `CodeIgniterBridgeService` and `DerivService` as objects. The bridge object
 * holds the ledger system's state that the calls change; each of its methods
 * is one remote call whose answer is given as an argument. `DerivService`
 * performs each orchestration step by step through the bridge, and each of
 * its methods is proved to leave the result and the store that the matching
 * function of Saga describes.
 */
module Service {
  import opened Wrappers
  import opened Money
  import opened DerivTransfer
  import opened Bridge
  import opened Saga

  class LedgerBridge {
    var deposits: map<nat, DepositRequest>
    var nextDepositId: nat
    var withdrawals: map<nat, WithdrawalRequest>
    var nextWithdrawalId: nat
    var ledger: seq<LedgerEntry>
    var outbox: seq<Sms>
    /** Every call made so far, in order. */
    ghost var log: seq<Event>

    ghost function Snapshot(): Store
      reads this
    {
      Store(deposits, nextDepositId, withdrawals, nextWithdrawalId, ledger, outbox, log)
    }

    constructor (s: Store)
      ensures Snapshot() == s
    {
      deposits, nextDepositId := s.deposits, s.nextDepositId;
      withdrawals, nextWithdrawalId := s.withdrawals, s.nextWithdrawalId;
      ledger, outbox, log := s.ledger, s.outbox, s.log;
    }

    /** Records a call made from outside the bridge (a provider transfer). */
    method Record(ghost e: Event)
      modifies this
      ensures Snapshot() == old(Snapshot()).Log(e)
    {
      log := log + [e];
    }

    method GetUserData(walletId: string, reply: UserDataReply) returns (r: Result<UserData, string>)
      modifies this
      ensures r == UserDataResult(reply)
      ensures Snapshot() == old(Snapshot()).Log(UserDataRead(walletId))
    {
      log := log + [UserDataRead(walletId)];
      match reply {
        case UserDataServed(data) => r := Ok(data);
        case UserDataRefused(message) =>
          r := Err(if message.Some? then message.value else "Failed to get user data");
        case UserDataUnreachable => r := Err("User data service unavailable");
      }
    }

    method CheckDuplicateTransaction(transactionId: string, reply: DuplicateReply) returns (duplicate: bool)
      modifies this
      ensures duplicate == IsDuplicate(reply)
      ensures Snapshot() == old(Snapshot()).Log(DuplicateChecked(transactionId))
    {
      log := log + [DuplicateChecked(transactionId)];
      duplicate := reply.Answered? && reply.isDuplicate;
    }

    method CreateDepositRequest(request: DepositRequest, reply: WriteReply) returns (r: Result<(), string>)
      modifies this
      ensures r.Ok? <==> reply.Accepted?
      ensures r.Err? ==> r.error == WriteFailure(reply, "Failed to create deposit request", "Deposit request service unavailable")
      ensures Snapshot() == CreateDeposit(old(Snapshot()), request, reply)
    {
      log := log + [DepositCreateCalled(request.transactionId, reply.Accepted?)];
      if reply.Accepted? {
        deposits := deposits[nextDepositId := request];
        nextDepositId := nextDepositId + 1;
        r := Ok(());
      } else {
        r := Err(WriteFailure(reply, "Failed to create deposit request", "Deposit request service unavailable"));
      }
    }

    method UpdateDepositRequest(transactionId: string, amount: real, now: Timestamp, reply: WriteReply) returns (r: Result<(), string>)
      modifies this
      ensures r.Ok? <==> reply.Accepted?
      ensures r.Err? ==> r.error == WriteFailure(reply, "Failed to update deposit request", "Deposit update service unavailable")
      ensures Snapshot() == UpdateDeposit(old(Snapshot()), transactionId, amount, now, reply)
    {
      log := log + [DepositUpdateCalled(transactionId, reply.Accepted?)];
      if reply.Accepted? {
        deposits := MarkTransaction(deposits, transactionId, amount, now);
        r := Ok(());
      } else {
        r := Err(WriteFailure(reply, "Failed to update deposit request", "Deposit update service unavailable"));
      }
    }

    method GetDepositRequest(requestId: nat, served: bool) returns (r: Option<DepositRequest>)
      modifies this
      ensures r == ReadDeposit(old(Snapshot()), requestId, served)
      ensures Snapshot() == old(Snapshot()).Log(DepositRead(requestId, DepositStatus(r)))
    {
      r := if served && requestId in deposits then Some(deposits[requestId]) else None;
      log := log + [DepositRead(requestId, DepositStatus(r))];
    }

    method GetSellRate(reply: RateReply) returns (r: Option<Rate>)
      modifies this
      ensures r == SellRate(reply)
      ensures Snapshot() == old(Snapshot()).Log(SellRateRead)
    {
      log := log + [SellRateRead];
      r := if reply.Quoted? then Some(reply.rate) else None;
    }

    method CheckPendingWithdrawals(walletId: string, reply: PendingReply) returns (pending: seq<nat>)
      modifies this
      ensures pending == PendingWithdrawals(reply)
      ensures Snapshot() == old(Snapshot()).Log(PendingWithdrawalsChecked(walletId))
    {
      log := log + [PendingWithdrawalsChecked(walletId)];
      pending := if reply.Listed? then reply.pending else [];
    }

    method CreateWithdrawalRequest(request: WithdrawalRequest, reply: WriteReply) returns (r: Result<nat, string>)
      modifies this
      ensures r.Ok? <==> reply.Accepted?
      ensures r.Ok? ==> r.value == old(nextWithdrawalId)
      ensures r.Err? ==> r.error == WriteFailure(reply, "Failed to create withdrawal request", "Withdrawal request service unavailable")
      ensures Snapshot() == CreateWithdrawal(old(Snapshot()), request, reply)
    {
      log := log + [WithdrawalCreateCalled(reply.Accepted?)];
      if reply.Accepted? {
        r := Ok(nextWithdrawalId);
        withdrawals := withdrawals[nextWithdrawalId := request];
        nextWithdrawalId := nextWithdrawalId + 1;
      } else {
        r := Err(WriteFailure(reply, "Failed to create withdrawal request", "Withdrawal request service unavailable"));
      }
    }

    method GetWithdrawalRequest(requestId: nat, served: bool) returns (r: Option<WithdrawalRequest>)
      modifies this
      ensures r == ReadWithdrawal(old(Snapshot()), requestId, served)
      ensures Snapshot() == old(Snapshot()).Log(WithdrawalRead(requestId, WithdrawalStatus(r)))
    {
      r := if served && requestId in withdrawals then Some(withdrawals[requestId]) else None;
      log := log + [WithdrawalRead(requestId, WithdrawalStatus(r))];
    }

    method UpdateWithdrawalRequest(requestId: nat, amount: real, now: Timestamp, reply: WriteReply) returns (r: Result<(), string>)
      modifies this
      ensures r.Ok? <==> reply.Accepted?
      ensures r.Err? ==> r.error == WriteFailure(reply, "Failed to update withdrawal request", "Withdrawal update service unavailable")
      ensures Snapshot() == UpdateWithdrawal(old(Snapshot()), requestId, amount, now, reply)
    {
      log := log + [WithdrawalUpdateCalled(requestId, reply.Accepted?)];
      if reply.Accepted? {
        if requestId in withdrawals {
          withdrawals := withdrawals[requestId := MarkWithdrawn(withdrawals[requestId], amount, now)];
        }
        r := Ok(());
      } else {
        r := Err(WriteFailure(reply, "Failed to update withdrawal request", "Withdrawal update service unavailable"));
      }
    }

    method CreateLedgerEntries(entry: LedgerEntry, reply: WriteReply) returns (r: Result<(), string>)
      modifies this
      ensures r.Ok? <==> reply.Accepted?
      ensures Snapshot() == PostLedger(old(Snapshot()), entry, reply)
    {
      log := log + [LedgerPostCalled(entry.transactionId, entry.direction, reply.Accepted?)];
      if reply.Accepted? {
        ledger := ledger + [entry];
        r := Ok(());
      } else {
        r := Err(WriteFailure(reply, "Failed to create ledger entries", "Ledger service unavailable"));
      }
    }

    /** getUserInfo followed by `['phone'] ?? null`. */
    method GetUserPhone(walletId: string, reply: InfoReply) returns (phone: Option<string>)
      modifies this
      ensures phone == PhoneField(reply)
      ensures Snapshot() == old(Snapshot()).Log(UserInfoRead(walletId))
    {
      log := log + [UserInfoRead(walletId)];
      phone := if reply.Info? then reply.phone else None;
    }

    method SendSms(to: Recipient, notice: Notice)
      modifies this
      ensures Snapshot() == old(Snapshot()).Send([Sms(to, notice)])
    {
      outbox := outbox + [Sms(to, notice)];
    }
  }

  class DerivService {
    const bridge: LedgerBridge

    constructor (bridge: LedgerBridge)
      ensures this.bridge == bridge
    {
      this.bridge := bridge;
    }

    /** The provider call, recorded in the bridge's call log. */
    method TransferToDerivAccount(loginid: string, amount: real, script: ProviderScript) returns (r: TransferResult)
      modifies bridge
      ensures r == DerivTransfer.TransferToDerivAccount(loginid, amount, script).result
      ensures bridge.Snapshot() == old(bridge.Snapshot()).Log(
                TransferCalled(loginid, amount, DerivTransfer.TransferToDerivAccount(loginid, amount, script).sent, r.success))
    {
      var attempt := DerivTransfer.TransferToDerivAccount(loginid, amount, script);
      r := attempt.result;
      bridge.Record(TransferCalled(loginid, amount, attempt.sent, r.success));
    }

    method ProcessDeposit(transactionId: string, walletId: string, crNumber: string, amount: real, sessionId: string,
                          o: DepositOracle) returns (r: Result<DepositReceipt, Failure>)
      requires RatePositive(o)
      modifies bridge
      ensures var out := DepositSaga(old(bridge.Snapshot()), DepositArgs(transactionId, walletId, crNumber, amount, sessionId), o);
              r == out.result && bridge.Snapshot() == out.store
    {
      var userData := bridge.GetUserData(walletId, o.userData);
      if userData.Err? {
        return Err(UserDataFailed(userData.error));
      }
      var buyRate := userData.value.buyRate;
      var totalBalanceKes := userData.value.totalCredit - userData.value.totalDebit;
      var conversionRate := buyRate.kes;
      var amountUsd := ToUsd(amount, conversionRate);
      if amountUsd < MinimumUsd {
        return Err(BelowMinimumDeposit);
      }
      var totalBalanceUsd := totalBalanceKes / conversionRate;
      if totalBalanceUsd < amountUsd {
        return Err(InsufficientFunds(totalBalanceUsd));
      }
      var duplicate := bridge.CheckDuplicateTransaction(transactionId, o.duplicate);
      if duplicate {
        return Err(AlreadyProcessed);
      }
      r := SettleDeposit(transactionId, walletId, crNumber, amount, sessionId, o, buyRate, amountUsd);
    }

    /** The steps of processDeposit after its checks. */
    method SettleDeposit(transactionId: string, walletId: string, crNumber: string, amount: real, sessionId: string,
                         o: DepositOracle, buyRate: Rate, amountUsd: real) returns (r: Result<DepositReceipt, Failure>)
      modifies bridge
      ensures var out := Saga.SettleDeposit(old(bridge.Snapshot()), DepositArgs(transactionId, walletId, crNumber, amount, sessionId),
                                            o, buyRate, amountUsd);
              r == out.result && bridge.Snapshot() == out.store
    {
      var transactionNumber := o.transactionNumber;
      var request := DepositRequest(transactionId, transactionNumber, walletId, crNumber, amountUsd, buyRate.kes, 0, o.now, None, None);
      var created := bridge.CreateDepositRequest(request, o.create);
      if created.Err? {
        return Err(DepositCreateFailed(created.error));
      }
      var transfer := TransferToDerivAccount(crNumber, amountUsd, o.provider);
      if !transfer.success {
        return Err(TransferFailed(transfer.message));
      }
      var updated := bridge.UpdateDepositRequest(transactionId, amountUsd, o.now, o.update);
      if updated.Err? {
        return Err(Unreconciled(transactionId));
      }
      var charge := DepositCharge(buyRate, amountUsd);
      var entry := LedgerEntry(transactionId, transactionNumber, walletId, amount, Some(amountUsd), None,
                               buyRate.kes, charge, "Deposit to Deriv", Dr);
      var posted := bridge.CreateLedgerEntries(entry, o.ledger);
      var phone := bridge.GetUserPhone(walletId, o.userInfo);
      if phone.Some? && Truthy(phone.value) {
        bridge.SendSms(Customer(phone.value), DepositCompleted(transactionNumber, amountUsd, crNumber));
        bridge.SendSms(Operations, DepositCompletedForOperations(amountUsd, crNumber));
      }
      r := Ok(DepositReceipt(transfer.data));
    }

    method ProcessWithdrawal(walletId: string, crNumber: string, amount: real, sessionId: string,
                             o: WithdrawalOracle) returns (r: Result<WithdrawalReceipt, Failure>)
      modifies bridge
      ensures var out := WithdrawalSaga(old(bridge.Snapshot()), WithdrawalArgs(walletId, crNumber, amount, sessionId), o);
              r == out.result && bridge.Snapshot() == out.store
    {
      if amount < MinimumUsd {
        return Err(BelowMinimumWithdrawal);
      }
      var sellRate := bridge.GetSellRate(o.sellRate);
      if sellRate.None? {
        return Err(RateUnavailable);
      }
      var pending := bridge.CheckPendingWithdrawals(walletId, o.pending);
      if pending != [] {
        return Err(PendingWithdrawalExists);
      }
      var request := WithdrawalRequest(walletId, crNumber, amount, sellRate.value.kes, 0, o.now, None, None, None, None);
      var created := bridge.CreateWithdrawalRequest(request, o.create);
      if created.Err? {
        return Err(WithdrawalCreateFailed(created.error));
      }
      var phone := bridge.GetUserPhone(walletId, o.userInfo);
      if phone.Some? && Truthy(phone.value) {
        bridge.SendSms(Customer(phone.value), WithdrawalRequested(amount));
        bridge.SendSms(Operations, WithdrawalRequestedForOperations(amount, crNumber));
      }
      r := Ok(WithdrawalReceipt(created.value, amount, crNumber));
    }

    method CompleteDeposit(requestId: nat, o: CompleteDepositOracle) returns (r: Result<DepositCompletion, Failure>)
      modifies bridge
      ensures var out := CompleteDepositSaga(old(bridge.Snapshot()), requestId, o);
              r == out.result && bridge.Snapshot() == out.store
    {
      var found := bridge.GetDepositRequest(requestId, o.read);
      if found.None? {
        return Err(DepositNotFound);
      }
      var record := found.value;
      if record.status == 1 {
        return Ok(DepositAlreadyProcessed(record));
      }
      var transfer := TransferToDerivAccount(record.crNumber, record.amount, o.provider);
      if !transfer.success {
        return Err(TransferFailed(transfer.message));
      }
      var updated := bridge.UpdateDepositRequest(IdText(requestId), record.amount, o.now, o.update);
      if updated.Err? {
        return Err(DepositUpdateFailed(updated.error));
      }
      var phone := bridge.GetUserPhone(record.walletId, o.userInfo);
      if phone.Some? && Truthy(phone.value) {
        bridge.SendSms(Customer(phone.value), DepositCallbackCompleted(record.transactionNumber, record.amount, record.crNumber));
      }
      r := Ok(DepositProcessed(transfer.data));
    }

    method CompleteWithdrawal(requestId: nat, o: CompleteWithdrawalOracle) returns (r: Result<WithdrawalCompletion, Failure>)
      modifies bridge
      ensures var out := CompleteWithdrawalSaga(old(bridge.Snapshot()), requestId, o);
              r == out.result && bridge.Snapshot() == out.store
    {
      var found := bridge.GetWithdrawalRequest(requestId, o.read);
      if found.None? {
        return Err(WithdrawalNotFound);
      }
      var record := found.value;
      if record.status == 1 {
        return Ok(WithdrawalAlreadyProcessed(record));
      }
      var sellRate := bridge.GetSellRate(o.sellRate);
      if sellRate.None? {
        return Err(UndefinedKey("bought_at"));
      }
      var charge := WithdrawalCharge(sellRate.value, record.amount);
      var updated := bridge.UpdateWithdrawalRequest(requestId, record.amount, o.now, o.update);
      if updated.Err? {
        return Err(WithdrawalUpdateFailed(updated.error));
      }
      var amountKes := ToKes(record.amount, record.rate);
      var entry := LedgerEntry(
        if record.transactionId.Some? then record.transactionId.value else o.transactionId,
        if record.transactionNumber.Some? then record.transactionNumber.value else o.transactionNumber,
        record.walletId, record.amount, None, Some(amountKes), record.rate, charge, "Withdrawal from Deriv", Cr);
      var posted := bridge.CreateLedgerEntries(entry, o.ledger);
      var phone := bridge.GetUserPhone(record.walletId, o.userInfo);
      if phone.Some? && Truthy(phone.value) {
        if record.transactionNumber.None? {
          return Err(UndefinedKey("transaction_number"));
        }
        bridge.SendSms(Customer(phone.value), WithdrawalCompleted(record.transactionNumber.value, record.amount, record.crNumber));
      }
      r := Ok(WithdrawalProcessed(record));
    }
  }
}
