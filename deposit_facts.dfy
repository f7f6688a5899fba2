/**
 * What processDeposit and completeDeposit do in each of their branches:
 * which guard stops which call, what a failed step leaves in the store, the
 * ledger entry of a completed deposit, idempotent completion, and what the
 * fail-open duplicate check and the rounded balance gate let through.
 */
module DepositFacts {
  import opened Wrappers
  import opened Money
  import opened DerivTransfer
  import opened Bridge
  import opened Saga

  /** The user data came back and both amount guards pass. */
  predicate GuardsPass(a: DepositArgs, o: DepositOracle)
    requires RatePositive(o)
  {
    && o.userData.UserDataServed?
    && ToUsd(a.amount, o.userData.data.buyRate.kes) >= MinimumUsd
    && BalanceUsd(o.userData.data) >= ToUsd(a.amount, o.userData.data.buyRate.kes)
  }

  /** The amount processDeposit moves, in dollars. */
  function AmountUsd(a: DepositArgs, o: DepositOracle): (usd: real)
    requires o.userData.UserDataServed? && RatePositive(o)
    ensures IsCents(usd)
    ensures Abs(usd * o.userData.data.buyRate.kes - a.amount) <= 0.005 * o.userData.data.buyRate.kes
  {
    ToUsd(a.amount, o.userData.data.buyRate.kes)
  }

  /** The Pending record processDeposit creates. */
  function PendingDeposit(a: DepositArgs, o: DepositOracle): (r: DepositRequest)
    requires o.userData.UserDataServed? && RatePositive(o)
    ensures r.status == 0 && r.transactionId == a.transactionId && r.amount == AmountUsd(a, o)
    ensures r.rate == o.userData.data.buyRate.kes && r.deposited.None? && r.processedAt.None?
  {
    DepositRequest(a.transactionId, o.transactionNumber, a.walletId, a.crNumber,
                   AmountUsd(a, o), o.userData.data.buyRate.kes, 0, o.now, None, None)
  }

  /** Some stored deposit request carries the transaction id. */
  predicate HasTransaction(s: Store, transactionId: string) {
    exists k <- s.deposits.Keys :: s.deposits[k].transactionId == transactionId
  }

  /** The calls a deposit makes up to and including its request creation. */
  function CreationCalls(a: DepositArgs, accepted: bool): seq<Event> {
    [UserDataRead(a.walletId), DuplicateChecked(a.transactionId), DepositCreateCalled(a.transactionId, accepted)]
  }

  // ---------------------------------------------------------------------------
  // processDeposit

  /** When the user data cannot be read, or the amount is under the minimum,
      or the balance does not cover it, processDeposit throws after the
      user-data call and makes no other call: no duplicate check, no record,
      no transfer. The checks run in that order. */
  lemma DepositGuardsComeFirst(s: Store, a: DepositArgs, o: DepositOracle)
    requires RatePositive(o)
    ensures var out := DepositSaga(s, a, o);
            && (!o.userData.UserDataServed? ==>
                  out.result == Err(UserDataFailed(UserDataResult(o.userData).error)))
            && (o.userData.UserDataServed? && AmountUsd(a, o) < MinimumUsd ==>
                  out.result == Err(BelowMinimumDeposit))
            && (o.userData.UserDataServed? && AmountUsd(a, o) >= MinimumUsd
                && BalanceUsd(o.userData.data) < AmountUsd(a, o) ==>
                  out.result == Err(InsufficientFunds(BalanceUsd(o.userData.data))))
            && (!GuardsPass(a, o) ==> out.store == s.Log(UserDataRead(a.walletId)))
  {
  }

  /** A transaction the duplicate check reports as processed is refused with
      "Transaction already processed." before any record or transfer. */
  lemma DuplicateStopsDeposit(s: Store, a: DepositArgs, o: DepositOracle)
    requires RatePositive(o) && GuardsPass(a, o) && o.duplicate == Answered(true)
    ensures DepositSaga(s, a, o).result == Err(AlreadyProcessed)
    ensures Message(DepositSaga(s, a, o).result.error) == "Transaction already processed."
    ensures DepositSaga(s, a, o).store == s.Log(UserDataRead(a.walletId)).Log(DuplicateChecked(a.transactionId))
  {
  }

  /** When the Pending record cannot be created no transfer is attempted and
      the store keeps its deposits. */
  lemma CreateFailureStopsTransfer(s: Store, a: DepositArgs, o: DepositOracle)
    requires RatePositive(o) && GuardsPass(a, o) && !IsDuplicate(o.duplicate) && !o.create.Accepted?
    ensures DepositSaga(s, a, o).result.Err? && DepositSaga(s, a, o).result.error.DepositCreateFailed?
    ensures DepositSaga(s, a, o).store == s.(log := s.log + CreationCalls(a, false))
  {
  }

  /** A failed transfer throws the provider's message and leaves the Pending
      record as created, under the fresh request id: no update, no ledger
      entry. The record was stored before the transfer was attempted. */
  lemma FailedTransferLeavesPendingRecord(s: Store, a: DepositArgs, o: DepositOracle)
    requires RatePositive(o) && GuardsPass(a, o) && !IsDuplicate(o.duplicate) && o.create.Accepted?
    requires !TransferToDerivAccount(a.crNumber, AmountUsd(a, o), o.provider).result.success
    ensures var out := DepositSaga(s, a, o);
            && out.result == Err(TransferFailed(TransferToDerivAccount(a.crNumber, AmountUsd(a, o), o.provider).result.message))
            && out.store.deposits == s.deposits[s.nextDepositId := PendingDeposit(a, o)]
            && out.store.nextDepositId == s.nextDepositId + 1
            && out.store.ledger == s.ledger && out.store.outbox == s.outbox
            && |out.store.log| == |s.log| + 4
            && out.store.log[|s.log| + 2] == DepositCreateCalled(a.transactionId, true)
            && out.store.log[|s.log| + 3].TransferCalled?
  {
  }

  /** A transfer that went through but whose request update failed throws a
      message carrying the transaction id, posts no ledger entry and leaves
      the record Pending. */
  lemma UnreconciledDeposit(s: Store, a: DepositArgs, o: DepositOracle)
    requires RatePositive(o) && GuardsPass(a, o) && !IsDuplicate(o.duplicate) && o.create.Accepted?
    requires TransferToDerivAccount(a.crNumber, AmountUsd(a, o), o.provider).result.success
    requires !o.update.Accepted?
    ensures var out := DepositSaga(s, a, o);
            && out.result == Err(Unreconciled(a.transactionId))
            && Message(out.result.error)[|Message(out.result.error)| - |a.transactionId|..] == a.transactionId
            && out.store.ledger == s.ledger && out.store.outbox == s.outbox
            && out.store.deposits == s.deposits[s.nextDepositId := PendingDeposit(a, o)]
  {
  }

  /** A completed deposit marks its record deposited (with every other record
      of the same transaction id), posts one debit entry
      whose charge is the buy-rate margin on the dollar amount, and succeeds
      whether or not the ledger post is accepted. */
  lemma DepositLedgerEntry(s: Store, a: DepositArgs, o: DepositOracle)
    requires RatePositive(o) && GuardsPass(a, o) && !IsDuplicate(o.duplicate) && o.create.Accepted?
    requires TransferToDerivAccount(a.crNumber, AmountUsd(a, o), o.provider).result.success
    requires o.update.Accepted?
    ensures var out := DepositSaga(s, a, o);
            var buy := o.userData.data.buyRate;
            && out.result == Ok(DepositReceipt(TransferToDerivAccount(a.crNumber, AmountUsd(a, o), o.provider).result.data))
            && out.store.deposits[s.nextDepositId] == MarkDeposited(PendingDeposit(a, o), AmountUsd(a, o), o.now)
            && (o.ledger.Accepted? ==>
                  && |out.store.ledger| == |s.ledger| + 1
                  && out.store.ledger[|s.ledger|].direction == Dr
                  && out.store.ledger[|s.ledger|].charge == (buy.kes - buy.boughtAt) * AmountUsd(a, o)
                  && out.store.ledger[|s.ledger|].amountUsd == Some(AmountUsd(a, o)))
            && (!o.ledger.Accepted? ==> out.store.ledger == s.ledger)
  {
    var buy := o.userData.data.buyRate;
    var usd := AmountUsd(a, o);
    var s2 := s.Log(UserDataRead(a.walletId)).Log(DuplicateChecked(a.transactionId));
    assert DepositSaga(s, a, o) == SettleDeposit(s2, a, o, buy, usd);
    var s3 := CreateDeposit(s2, PendingDeposit(a, o), o.create);
    assert s3.deposits[s.nextDepositId] == PendingDeposit(a, o);
  }

  /** The balance gate compares rounded dollars, so a shilling amount that
      passes it exceeds the shilling balance by at most half a cent's worth. */
  lemma BalanceGateBound(a: DepositArgs, o: DepositOracle)
    requires RatePositive(o) && GuardsPass(a, o)
    ensures a.amount <= o.userData.data.totalCredit - o.userData.data.totalDebit + 0.005 * o.userData.data.buyRate.kes
  {
    var u := o.userData.data;
    var kes := u.buyRate.kes;
    var usd := AmountUsd(a, o);
    var balance := u.totalCredit - u.totalDebit;
    assert usd <= BalanceUsd(u);
    LessScaled(BalanceUsd(u), usd, kes);
    assert usd * kes <= BalanceUsd(u) * kes;
    assert BalanceUsd(u) * kes == balance by {
      assert BalanceUsd(u) == balance / kes;
    }
    assert a.amount - usd * kes <= Abs(usd * kes - a.amount);
    assert Abs(usd * kes - a.amount) <= 0.005 * kes;
  }

  /** ... and that excess happens: a balance of 1000.30 shillings at 100
      shillings to the dollar admits a deposit of 1000.40 shillings. */
  lemma BalanceGateAdmitsOverdraft(s: Store, a: DepositArgs, o: DepositOracle)
    requires a.amount == 1000.4
    requires o.userData == UserDataServed(UserData(1000.3, 0.0, Rate(100.0, 95.0)))
    requires !IsDuplicate(o.duplicate) && o.create.Accepted? && o.update.Accepted?
    requires TransferToDerivAccount(a.crNumber, 10.0, o.provider).result.success
    ensures DepositSaga(s, a, o).result.Ok?
    ensures a.amount > o.userData.data.totalCredit - o.userData.data.totalDebit
  {
    assert ToUsd(1000.4, 100.0) == 10.0 by {
      assert 1000.4 / 100.0 == 10.004;
    }
  }

  /** A duplicate check that answers truthfully, whether the transaction id
      already has a request, makes a resubmitted deposit fail once the first
      submission created its record. */
  lemma HonestDuplicateCheckBlocksResubmission(s: Store, a: DepositArgs, o1: DepositOracle, o2: DepositOracle)
    requires RatePositive(o1) && RatePositive(o2) && GuardsPass(a, o1) && GuardsPass(a, o2)
    requires !IsDuplicate(o1.duplicate) && o1.create.Accepted?
    requires o2.duplicate == Answered(HasTransaction(DepositSaga(s, a, o1).store, a.transactionId))
    ensures DepositSaga(DepositSaga(s, a, o1).store, a, o2).result == Err(AlreadyProcessed)
  {
    var first := DepositSaga(s, a, o1).store;
    assert s.nextDepositId in first.deposits && first.deposits[s.nextDepositId].transactionId == a.transactionId;
    assert HasTransaction(first, a.transactionId);
  }

  /** A deposit that goes through makes its transfer as its fourth call. */
  lemma CompletedDepositTransfers(s: Store, a: DepositArgs, o: DepositOracle)
    requires RatePositive(o) && GuardsPass(a, o) && !IsDuplicate(o.duplicate) && o.create.Accepted?
    requires TransferToDerivAccount(a.crNumber, AmountUsd(a, o), o.provider).result.success
    requires o.update.Accepted?
    ensures var out := DepositSaga(s, a, o);
            && out.result.Ok?
            && |out.store.log| > |s.log| + 3
            && out.store.log[|s.log| + 3] == TransferCalled(a.crNumber, AmountUsd(a, o), TransferToDerivAccount(a.crNumber, AmountUsd(a, o), o.provider).sent, true)
            && out.store.nextDepositId == s.nextDepositId + 1
            && s.nextDepositId in out.store.deposits && out.store.deposits[s.nextDepositId].transactionId == a.transactionId
  {
  }

  /** processDeposit keeps every record stored under an id other than the
      one it assigns, with its transaction id. */
  lemma DepositKeepsOtherRecords(s: Store, a: DepositArgs, o: DepositOracle)
    requires RatePositive(o)
    ensures var out := DepositSaga(s, a, o).store;
            forall k <- s.deposits.Keys | k != s.nextDepositId ::
              k in out.deposits && out.deposits[k].transactionId == s.deposits[k].transactionId
  {
  }

  /** With the duplicate check failing open, the same submission after a
      completed deposit transfers the money a second time, and leaves two
      request records for the one transaction. */
  lemma FailOpenDuplicateCheckTransfersAgain(s: Store, a: DepositArgs, o: DepositOracle)
    requires RatePositive(o) && GuardsPass(a, o) && o.duplicate == Unanswered && o.create.Accepted?
    requires TransferToDerivAccount(a.crNumber, AmountUsd(a, o), o.provider).result.success
    requires o.update.Accepted?
    ensures var once := DepositSaga(s, a, o);
            var twice := DepositSaga(once.store, a, o);
            && once.result.Ok? && twice.result.Ok?
            && TransferCalled(a.crNumber, AmountUsd(a, o), TransferToDerivAccount(a.crNumber, AmountUsd(a, o), o.provider).sent, true) in once.store.log[|s.log|..]
            && TransferCalled(a.crNumber, AmountUsd(a, o), TransferToDerivAccount(a.crNumber, AmountUsd(a, o), o.provider).sent, true) in twice.store.log[|once.store.log|..]
            && s.nextDepositId in twice.store.deposits && s.nextDepositId + 1 in twice.store.deposits
            && twice.store.deposits[s.nextDepositId].transactionId == a.transactionId
            && twice.store.deposits[s.nextDepositId + 1].transactionId == a.transactionId
  {
    var once := DepositSaga(s, a, o);
    CompletedDepositTransfers(s, a, o);
    assert once.store.log[|s.log| + 3] == once.store.log[|s.log|..][3];
    var twice := DepositSaga(once.store, a, o);
    CompletedDepositTransfers(once.store, a, o);
    DepositKeepsOtherRecords(once.store, a, o);
    assert s.nextDepositId in once.store.deposits && s.nextDepositId != once.store.nextDepositId;
    assert twice.store.log[|once.store.log| + 3] == twice.store.log[|once.store.log|..][3];
  }

  // ---------------------------------------------------------------------------
  // completeDeposit

  /** A record already at status 1 is returned as read: no transfer, no
      update, nothing else changes. */
  lemma CompleteDepositIdempotent(s: Store, id: nat, o: CompleteDepositOracle)
    requires o.read && id in s.deposits && s.deposits[id].status == 1
    ensures CompleteDepositSaga(s, id, o).result == Ok(DepositAlreadyProcessed(s.deposits[id]))
    ensures CompleteDepositSaga(s, id, o).store == s.Log(DepositRead(id, Some(1)))
  {
  }

  /** A record that cannot be read is reported missing, with no other call. */
  lemma CompleteDepositNotFound(s: Store, id: nat, o: CompleteDepositOracle)
    requires !o.read || id !in s.deposits
    ensures CompleteDepositSaga(s, id, o).result == Err(DepositNotFound)
    ensures CompleteDepositSaga(s, id, o).store == s.Log(DepositRead(id, None))
  {
  }

  /** A Pending record is transferred. A failed transfer or update leaves
      every record untouched. An accepted update marks the records whose
      transaction id is the request id's text: the record read is marked
      deposited exactly when its own transaction id is that text.
      completeDeposit posts no ledger entry. */
  lemma CompleteDepositPending(s: Store, id: nat, o: CompleteDepositOracle)
    requires o.read && id in s.deposits && s.deposits[id].status != 1
    ensures var record := s.deposits[id];
            var t := TransferToDerivAccount(record.crNumber, record.amount, o.provider);
            var out := CompleteDepositSaga(s, id, o);
            && out.store.log[|s.log| + 1] == TransferCalled(record.crNumber, record.amount, t.sent, t.result.success)
            && out.store.ledger == s.ledger
            && (!t.result.success ==> out.result == Err(TransferFailed(t.result.message)) && out.store.deposits == s.deposits)
            && (t.result.success && o.update.Accepted? ==>
                  && out.result == Ok(DepositProcessed(t.result.data))
                  && out.store.log[|s.log| + 2] == DepositUpdateCalled(IdText(id), true)
                  && (record.transactionId == IdText(id) ==> out.store.deposits[id] == MarkDeposited(record, record.amount, o.now))
                  && (record.transactionId != IdText(id) ==> out.store.deposits[id] == record))
            && (t.result.success && !o.update.Accepted? ==>
                  out.result.Err? && out.result.error.DepositUpdateFailed? && out.store.deposits == s.deposits)
  {
  }

  /** When the record's transaction id is its request id's text, a second
      completeDeposit after one that went through finds status 1 and
      transfers nothing. */
  lemma CompleteDepositTwice(s: Store, id: nat, o1: CompleteDepositOracle, o2: CompleteDepositOracle)
    requires o1.read && o2.read && id in s.deposits && s.deposits[id].transactionId == IdText(id)
    requires CompleteDepositSaga(s, id, o1).result.Ok?
    ensures var first := CompleteDepositSaga(s, id, o1).store;
            var second := CompleteDepositSaga(first, id, o2);
            && second.result.Ok? && second.result.value.DepositAlreadyProcessed?
            && second.store == first.Log(DepositRead(id, Some(1)))
  {
    var record := s.deposits[id];
    if record.status != 1 {
      CompleteDepositPending(s, id, o1);
    }
  }

  /** Otherwise the update misses the record read: a completeDeposit that
      went through leaves it Pending, and a second callback for the same
      request transfers the money again. */
  lemma CompleteDepositMissTransfersAgain(s: Store, id: nat, o1: CompleteDepositOracle, o2: CompleteDepositOracle)
    requires o1.read && o2.read && id in s.deposits
    requires s.deposits[id].status != 1 && s.deposits[id].transactionId != IdText(id)
    requires TransferToDerivAccount(s.deposits[id].crNumber, s.deposits[id].amount, o1.provider).result.success
    requires o1.update.Accepted?
    ensures var record := s.deposits[id];
            var first := CompleteDepositSaga(s, id, o1);
            var t2 := TransferToDerivAccount(record.crNumber, record.amount, o2.provider);
            && first.result.Ok? && first.result.value.DepositProcessed?
            && first.store.deposits[id] == record
            && var second := CompleteDepositSaga(first.store, id, o2).store;
               && |second.log| > |first.store.log| + 1
               && second.log[|first.store.log| + 1] == TransferCalled(record.crNumber, record.amount, t2.sent, t2.result.success)
  {
    var record := s.deposits[id];
    CompleteDepositMissKeepsRecord(s, id, o1);
    var first := CompleteDepositSaga(s, id, o1).store;
    CompleteDepositTransferCalled(first, id, o2, record);
  }

  /** A completeDeposit that went through without reaching the record read
      leaves that record as it was. */
  lemma CompleteDepositMissKeepsRecord(s: Store, id: nat, o: CompleteDepositOracle)
    requires o.read && id in s.deposits
    requires s.deposits[id].status != 1 && s.deposits[id].transactionId != IdText(id)
    requires TransferToDerivAccount(s.deposits[id].crNumber, s.deposits[id].amount, o.provider).result.success
    requires o.update.Accepted?
    ensures var first := CompleteDepositSaga(s, id, o);
            && first.result.Ok? && first.result.value.DepositProcessed?
            && id in first.store.deposits && first.store.deposits[id] == s.deposits[id]
  {
    CompleteDepositPending(s, id, o);
  }

  /** completeDeposit on a record that is not yet deposited calls the
      transfer right after reading it. */
  lemma CompleteDepositTransferCalled(s: Store, id: nat, o: CompleteDepositOracle, record: DepositRequest)
    requires o.read && id in s.deposits && s.deposits[id] == record && record.status != 1
    ensures var t := TransferToDerivAccount(record.crNumber, record.amount, o.provider);
            var log := CompleteDepositSaga(s, id, o).store.log;
            |log| > |s.log| + 1 && log[|s.log| + 1] == TransferCalled(record.crNumber, record.amount, t.sent, t.result.success)
  {
    CompleteDepositPending(s, id, o);
  }
}
