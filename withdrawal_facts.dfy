/**
 * What processWithdrawal and completeWithdrawal do in each of their
 * branches: the order of the withdrawal guards, the Pending record a request
 * creates, the credit entry of a completed withdrawal, idempotent completion
 * and the two undefined-key errors of completeWithdrawal.
 */
module WithdrawalFacts {
  import opened Wrappers
  import opened Money
  import opened Bridge
  import opened Saga

  // ---------------------------------------------------------------------------
  // processWithdrawal

  /** The guards run in order (minimum, sell rate, pending requests) and each
      refusal comes before any request is created. An amount under the
      minimum makes no call at all. */
  lemma WithdrawalRejections(s: Store, a: WithdrawalArgs, o: WithdrawalOracle)
    ensures var out := WithdrawalSaga(s, a, o);
            && (a.amount < MinimumUsd ==> out.result == Err(BelowMinimumWithdrawal) && out.store == s)
            && (a.amount >= MinimumUsd && !o.sellRate.Quoted? ==>
                  out.result == Err(RateUnavailable) && out.store == s.Log(SellRateRead))
            && (a.amount >= MinimumUsd && o.sellRate.Quoted? && PendingWithdrawals(o.pending) != [] ==>
                  out.result == Err(PendingWithdrawalExists)
                  && out.store == s.Log(SellRateRead).Log(PendingWithdrawalsChecked(a.walletId)))
  {
  }

  /** A pending request reported by the bridge refuses the withdrawal; one the
      bridge failed to list does not. */
  lemma UnlistedPendingRequestIsIgnored(s: Store, a: WithdrawalArgs, o: WithdrawalOracle)
    requires a.amount >= MinimumUsd && o.sellRate.Quoted? && o.pending == PendingUnanswered && o.create.Accepted?
    ensures WithdrawalSaga(s, a, o).result == Ok(WithdrawalReceipt(s.nextWithdrawalId, a.amount, a.crNumber))
  {
  }

  /** A request that passes the guards is stored under a fresh id with
      status 0 and the current sell rate's shilling price; on refusal nothing
      is stored. */
  lemma WithdrawalCreatesPendingRequest(s: Store, a: WithdrawalArgs, o: WithdrawalOracle)
    requires a.amount >= MinimumUsd && o.sellRate.Quoted? && PendingWithdrawals(o.pending) == []
    ensures var out := WithdrawalSaga(s, a, o);
            && (o.create.Accepted? ==>
                  && out.result == Ok(WithdrawalReceipt(s.nextWithdrawalId, a.amount, a.crNumber))
                  && out.store.withdrawals == s.withdrawals[s.nextWithdrawalId := out.store.withdrawals[s.nextWithdrawalId]]
                  && out.store.withdrawals[s.nextWithdrawalId].status == 0
                  && out.store.withdrawals[s.nextWithdrawalId].rate == o.sellRate.rate.kes
                  && out.store.withdrawals[s.nextWithdrawalId].amount == a.amount
                  && out.store.withdrawals[s.nextWithdrawalId].crNumber == a.crNumber)
            && (!o.create.Accepted? ==>
                  out.result.Err? && out.result.error.WithdrawalCreateFailed? && out.store.withdrawals == s.withdrawals)
  {
  }

  // ---------------------------------------------------------------------------
  // completeWithdrawal

  /** A record already at status 1 is returned as read, with no rate read,
      update or ledger call. */
  lemma CompleteWithdrawalIdempotent(s: Store, id: nat, o: CompleteWithdrawalOracle)
    requires o.read && id in s.withdrawals && s.withdrawals[id].status == 1
    ensures CompleteWithdrawalSaga(s, id, o).result == Ok(WithdrawalAlreadyProcessed(s.withdrawals[id]))
    ensures CompleteWithdrawalSaga(s, id, o).store == s.Log(WithdrawalRead(id, Some(1)))
  {
  }

  /** Without a sell rate the record is not touched: reading `bought_at` of
      the empty rate raises before the update. */
  lemma CompleteWithdrawalWithoutRate(s: Store, id: nat, o: CompleteWithdrawalOracle)
    requires o.read && id in s.withdrawals && s.withdrawals[id].status != 1 && !o.sellRate.Quoted?
    ensures CompleteWithdrawalSaga(s, id, o).result == Err(UndefinedKey("bought_at"))
    ensures CompleteWithdrawalSaga(s, id, o).store == s.Log(WithdrawalRead(id, Some(s.withdrawals[id].status))).Log(SellRateRead)
  {
  }

  /** A completed withdrawal marks its record withdrawn and posts one credit
      entry whose charge is the current sell-rate margin on the amount and
      whose shilling amount uses the rate stored with the request. A refused
      update posts nothing. */
  lemma CompleteWithdrawalLedger(s: Store, id: nat, o: CompleteWithdrawalOracle)
    requires o.read && id in s.withdrawals && s.withdrawals[id].status != 1 && o.sellRate.Quoted?
    ensures o.update.Accepted? ==>
              CompleteWithdrawalSaga(s, id, o).store.withdrawals[id] == MarkWithdrawn(s.withdrawals[id], s.withdrawals[id].amount, o.now)
    ensures o.update.Accepted? && o.ledger.Accepted? ==>
              CreditEntry(CompleteWithdrawalSaga(s, id, o).store.ledger, s.ledger, s.withdrawals[id], o.sellRate.rate)
    ensures o.update.Accepted? && !o.ledger.Accepted? ==> CompleteWithdrawalSaga(s, id, o).store.ledger == s.ledger
    ensures !o.update.Accepted? ==>
              && CompleteWithdrawalSaga(s, id, o).result.Err?
              && CompleteWithdrawalSaga(s, id, o).result.error.WithdrawalUpdateFailed?
              && CompleteWithdrawalSaga(s, id, o).store.ledger == s.ledger
              && CompleteWithdrawalSaga(s, id, o).store.withdrawals == s.withdrawals
  {
    var record := s.withdrawals[id];
    var entry := WithdrawalEntry(record, o.sellRate.rate, o);
    assert ToKes(record.amount, record.rate) == record.amount * record.rate;
    if o.update.Accepted? && o.ledger.Accepted? {
      var ledger := CompleteWithdrawalSaga(s, id, o).store.ledger;
      assert ledger == s.ledger + [entry];
      assert ledger[|s.ledger|].amountKes == Some(record.amount * record.rate);
      assert CreditEntry(ledger, s.ledger, record, o.sellRate.rate);
    }
  }

  /** The ledger grew by one credit entry for the request, charging the sell
      margin on its amount and converting it at the rate stored with it. */
  predicate CreditEntry(ledger: seq<LedgerEntry>, before: seq<LedgerEntry>, record: WithdrawalRequest, sell: Rate) {
    && |ledger| == |before| + 1 && ledger[..|before|] == before
    && ledger[|before|].direction == Cr
    && ledger[|before|].amount == record.amount
    && ledger[|before|].charge == (sell.boughtAt - sell.kes) * record.amount
    && ledger[|before|].amountKes == Some(record.amount * record.rate)
  }

  /** The credit entry's charge plus the shillings paid out is the dollars'
      value at cost, plus what the quoted rate moved between the request
      (whose rate fixes the payout) and its completion (whose sell rate fixes
      the charge). With an unchanged rate the charge is exactly the margin. */
  lemma WithdrawalChargeIsMargin(record: WithdrawalRequest, sell: Rate, o: CompleteWithdrawalOracle)
    ensures var e := WithdrawalEntry(record, sell, o);
            && e.charge + e.amountKes.value == ToKes(record.amount, sell.boughtAt) + ToKes(record.amount, record.rate - sell.kes)
            && (record.rate == sell.kes ==> e.charge == ToKes(record.amount, sell.boughtAt) - e.amountKes.value)
  {
    var e := WithdrawalEntry(record, sell, o);
    var a := record.amount;
    assert e.charge == a * sell.boughtAt - a * sell.kes;
    assert e.amountKes.value == a * record.rate;
    assert ToKes(a, record.rate - sell.kes) == a * record.rate - a * sell.kes;
  }

  /** When the customer has a phone but the record has no transaction
      number, the request is already marked withdrawn and its entry posted
      when the SMS text raises. */
  lemma MissingTransactionNumberRaisesAfterPosting(s: Store, id: nat, o: CompleteWithdrawalOracle)
    requires o.read && id in s.withdrawals && s.withdrawals[id].status != 1 && o.sellRate.Quoted?
    requires o.update.Accepted? && o.ledger.Accepted?
    requires NotifiablePhone(o.userInfo).Some? && s.withdrawals[id].transactionNumber.None?
    ensures var out := CompleteWithdrawalSaga(s, id, o);
            && out.result == Err(UndefinedKey("transaction_number"))
            && out.store.withdrawals[id].status == 1
            && |out.store.ledger| == |s.ledger| + 1
            && out.store.outbox == s.outbox
  {
  }

  /** A second completeWithdrawal after one that went through finds status 1
      and posts nothing more. */
  lemma CompleteWithdrawalTwice(s: Store, id: nat, o1: CompleteWithdrawalOracle, o2: CompleteWithdrawalOracle)
    requires o1.read && o2.read && id in s.withdrawals
    requires CompleteWithdrawalSaga(s, id, o1).result.Ok?
    ensures var first := CompleteWithdrawalSaga(s, id, o1).store;
            var second := CompleteWithdrawalSaga(first, id, o2);
            && second.result.Ok? && second.result.value.WithdrawalAlreadyProcessed?
            && second.store == first.Log(WithdrawalRead(id, Some(1)))
  {
    if s.withdrawals[id].status != 1 {
      CompleteWithdrawalLedger(s, id, o1);
    }
  }
}
