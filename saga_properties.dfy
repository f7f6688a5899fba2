/**
 * What the orchestrations guarantee: the order of their calls, which guard
 * stops which write, what a failed step leaves behind, idempotent
 * completion, and an invariant of the call log that holds across any
 * sequence of orchestrations.
 */
module SagaProperties {
  import opened Wrappers
  import opened Money
  import opened DerivTransfer
  import opened Bridge
  import opened Saga

  // ---------------------------------------------------------------------------
  // The call-log invariant

  /** A Pending record is known to exist: one was just created, or one was
      just read with a status other than 1. */
  predicate PendingEstablished(e: Event) {
    (e.DepositCreateCalled? && e.accepted) || (e.DepositRead? && e.status.Some? && e.status.value != 1)
  }

  /** The call at position i is preceded by the calls it depends on:
      a transfer by an established Pending deposit record; a deposit update by
      a successful transfer; a debit ledger post by an accepted update of
      the same transaction's request; a credit ledger post by an accepted
      withdrawal update; a withdrawal update by a sell-rate read that follows
      a read of an unprocessed withdrawal request. */
  predicate Justified(log: seq<Event>, i: int)
    requires 0 <= i < |log|
  {
    var e := log[i];
    && (e.TransferCalled? ==> i > 0 && PendingEstablished(log[i - 1]))
    && (e.DepositUpdateCalled? ==> i > 0 && log[i - 1].TransferCalled? && log[i - 1].success)
    && (e.LedgerPostCalled? && e.direction == Dr ==> i > 0 && log[i - 1] == DepositUpdateCalled(e.transactionId, true))
    && (e.LedgerPostCalled? && e.direction == Cr ==> i > 0 && log[i - 1].WithdrawalUpdateCalled? && log[i - 1].accepted)
    && (e.WithdrawalUpdateCalled? ==>
          i > 1 && log[i - 1] == SellRateRead && log[i - 2].WithdrawalRead? && log[i - 2].requestId == e.requestId
          && log[i - 2].status.Some? && log[i - 2].status.value != 1)
  }

  predicate OrderedLog(log: seq<Event>) {
    forall i | 0 <= i < |log| :: Justified(log, i)
  }

  /** Every ledger entry was posted by an accepted ledger call. */
  predicate LedgerPosted(s: Store) {
    forall k | 0 <= k < |s.ledger| ::
      LedgerPostCalled(s.ledger[k].transactionId, s.ledger[k].direction, true) in s.log
  }

  predicate Consistent(s: Store) {
    OrderedLog(s.log) && LedgerPosted(s) && IdsFresh(s)
  }

  /** Appending a call whose dependencies are the calls just before it keeps the log ordered. */
  lemma {:induction false} AppendKeepsOrdered(log: seq<Event>, e: Event)
    requires OrderedLog(log) && Justified(log + [e], |log|)
    ensures OrderedLog(log + [e])
  {
    var l := log + [e];
    forall i | 0 <= i < |l|
      ensures Justified(l, i)
    {
      if i < |log| {
        assert Justified(log, i);
        assert l[i] == log[i];
        assert i > 0 ==> l[i - 1] == log[i - 1];
        assert i > 1 ==> l[i - 2] == log[i - 2];
      }
    }
  }

  lemma DepositSagaKeepsOrdered(s: Store, a: DepositArgs, o: DepositOracle)
    requires RatePositive(o) && OrderedLog(s.log)
    ensures OrderedLog(DepositSaga(s, a, o).store.log)
  {
    var s1 := s.Log(UserDataRead(a.walletId));
    AppendKeepsOrdered(s.log, UserDataRead(a.walletId));
    match UserDataResult(o.userData)
    case Err(m) =>
    case Ok(u) =>
      var amountUsd := ToUsd(a.amount, u.buyRate.kes);
      if amountUsd >= MinimumUsd && BalanceUsd(u) >= amountUsd {
        var s2 := s1.Log(DuplicateChecked(a.transactionId));
        AppendKeepsOrdered(s1.log, DuplicateChecked(a.transactionId));
        if !IsDuplicate(o.duplicate) {
          var request := DepositRequest(a.transactionId, o.transactionNumber, a.walletId, a.crNumber,
                                        amountUsd, u.buyRate.kes, 0, o.now, None, None);
          var s3 := CreateDeposit(s2, request, o.create);
          AppendKeepsOrdered(s2.log, DepositCreateCalled(a.transactionId, o.create.Accepted?));
          if o.create.Accepted? {
            var t := TransferToDerivAccount(a.crNumber, amountUsd, o.provider);
            var e4 := TransferCalled(a.crNumber, amountUsd, t.sent, t.result.success);
            var s4 := s3.Log(e4);
            AppendKeepsOrdered(s3.log, e4);
            if t.result.success {
              var s5 := UpdateDeposit(s4, a.transactionId, amountUsd, o.now, o.update);
              AppendKeepsOrdered(s4.log, DepositUpdateCalled(a.transactionId, o.update.Accepted?));
              if o.update.Accepted? {
                var entry := DepositEntry(a, o.transactionNumber, u.buyRate, amountUsd);
                var s6 := PostLedger(s5, entry, o.ledger);
                AppendKeepsOrdered(s5.log, LedgerPostCalled(a.transactionId, Dr, o.ledger.Accepted?));
                AppendKeepsOrdered(s6.log, UserInfoRead(a.walletId));
              }
            }
          }
        }
      }
  }

  lemma WithdrawalSagaKeepsOrdered(s: Store, a: WithdrawalArgs, o: WithdrawalOracle)
    requires OrderedLog(s.log)
    ensures OrderedLog(WithdrawalSaga(s, a, o).store.log)
  {
    if a.amount >= MinimumUsd {
      var s1 := s.Log(SellRateRead);
      AppendKeepsOrdered(s.log, SellRateRead);
      if o.sellRate.Quoted? {
        var s2 := s1.Log(PendingWithdrawalsChecked(a.walletId));
        AppendKeepsOrdered(s1.log, PendingWithdrawalsChecked(a.walletId));
        if PendingWithdrawals(o.pending) == [] {
          var request := WithdrawalRequest(a.walletId, a.crNumber, a.amount, o.sellRate.rate.kes, 0, o.now, None, None, None, None);
          var s3 := CreateWithdrawal(s2, request, o.create);
          AppendKeepsOrdered(s2.log, WithdrawalCreateCalled(o.create.Accepted?));
          if o.create.Accepted? {
            AppendKeepsOrdered(s3.log, UserInfoRead(a.walletId));
          }
        }
      }
    }
  }

  lemma CompleteDepositSagaKeepsOrdered(s: Store, id: nat, o: CompleteDepositOracle)
    requires OrderedLog(s.log)
    ensures OrderedLog(CompleteDepositSaga(s, id, o).store.log)
  {
    var found := ReadDeposit(s, id, o.read);
    var s1 := s.Log(DepositRead(id, DepositStatus(found)));
    AppendKeepsOrdered(s.log, DepositRead(id, DepositStatus(found)));
    if found.Some? && found.value.status != 1 {
      var record := found.value;
      var t := TransferToDerivAccount(record.crNumber, record.amount, o.provider);
      var e2 := TransferCalled(record.crNumber, record.amount, t.sent, t.result.success);
      var s2 := s1.Log(e2);
      AppendKeepsOrdered(s1.log, e2);
      if t.result.success {
        var s3 := UpdateDeposit(s2, IdText(id), record.amount, o.now, o.update);
        AppendKeepsOrdered(s2.log, DepositUpdateCalled(IdText(id), o.update.Accepted?));
        if o.update.Accepted? {
          AppendKeepsOrdered(s3.log, UserInfoRead(record.walletId));
        }
      }
    }
  }

  lemma CompleteWithdrawalSagaKeepsOrdered(s: Store, id: nat, o: CompleteWithdrawalOracle)
    requires OrderedLog(s.log)
    ensures OrderedLog(CompleteWithdrawalSaga(s, id, o).store.log)
  {
    var found := ReadWithdrawal(s, id, o.read);
    var s1 := s.Log(WithdrawalRead(id, WithdrawalStatus(found)));
    AppendKeepsOrdered(s.log, WithdrawalRead(id, WithdrawalStatus(found)));
    if found.Some? && found.value.status != 1 {
      var record := found.value;
      var s2 := s1.Log(SellRateRead);
      AppendKeepsOrdered(s1.log, SellRateRead);
      if o.sellRate.Quoted? {
        var s3 := UpdateWithdrawal(s2, id, record.amount, o.now, o.update);
        AppendKeepsOrdered(s2.log, WithdrawalUpdateCalled(id, o.update.Accepted?));
        if o.update.Accepted? {
          var entry := WithdrawalEntry(record, o.sellRate.rate, o);
          var s4 := PostLedger(s3, entry, o.ledger);
          AppendKeepsOrdered(s3.log, LedgerPostCalled(entry.transactionId, Cr, o.ledger.Accepted?));
          AppendKeepsOrdered(s4.log, UserInfoRead(record.walletId));
        }
      }
    }
  }

  /** Every ledger entry, old or new, was posted by an accepted ledger call. */
  lemma SagasKeepLedgerPosted(s: Store, op: Operation)
    requires Allowed(op) && LedgerPosted(s)
    ensures LedgerPosted(Apply(s, op))
  {
  }

  /** No orchestration stores a request under an id already in use. */
  lemma SagasKeepIdsFresh(s: Store, op: Operation)
    requires Allowed(op) && IdsFresh(s)
    ensures IdsFresh(Apply(s, op))
  {
  }

  // ---------------------------------------------------------------------------
  // Runs of orchestrations

  /** One orchestration call, with the environment's answers to it. */
  datatype Operation =
    | Deposit(depositArgs: DepositArgs, depositOracle: DepositOracle)
    | Withdrawal(withdrawalArgs: WithdrawalArgs, withdrawalOracle: WithdrawalOracle)
    | DepositCallback(depositId: nat, callbackOracle: CompleteDepositOracle)
    | WithdrawalCallback(withdrawalId: nat, completionOracle: CompleteWithdrawalOracle)

  predicate Allowed(op: Operation) {
    op.Deposit? ==> RatePositive(op.depositOracle)
  }

  function Apply(s: Store, op: Operation): Store
    requires Allowed(op)
  {
    match op
    case Deposit(a, o) => DepositSaga(s, a, o).store
    case Withdrawal(a, o) => WithdrawalSaga(s, a, o).store
    case DepositCallback(id, o) => CompleteDepositSaga(s, id, o).store
    case WithdrawalCallback(id, o) => CompleteWithdrawalSaga(s, id, o).store
  }

  /** The store after the operations, one after the other. */
  function Run(s: Store, ops: seq<Operation>): Store
    requires forall op <- ops :: Allowed(op)
    decreases |ops|
  {
    if ops == [] then s else Run(Apply(s, ops[0]), ops[1..])
  }

  lemma ApplyKeepsConsistent(s: Store, op: Operation)
    requires Allowed(op) && Consistent(s)
    ensures Consistent(Apply(s, op))
  {
    SagasKeepLedgerPosted(s, op);
    SagasKeepIdsFresh(s, op);
    match op
    case Deposit(a, o) => DepositSagaKeepsOrdered(s, a, o);
    case Withdrawal(a, o) => WithdrawalSagaKeepsOrdered(s, a, o);
    case DepositCallback(id, o) => CompleteDepositSagaKeepsOrdered(s, id, o);
    case WithdrawalCallback(id, o) => CompleteWithdrawalSagaKeepsOrdered(s, id, o);
  }

  /** Any sequence of orchestrations, each run to its end before the next
      starts, with any answers from the environment, keeps the store
      consistent. */
  lemma {:induction false} RunKeepsConsistent(s: Store, ops: seq<Operation>)
    requires forall op <- ops :: Allowed(op)
    requires Consistent(s)
    ensures Consistent(Run(s, ops))
    decreases |ops|
  {
    if ops != [] {
      ApplyKeepsConsistent(s, ops[0]);
      RunKeepsConsistent(Apply(s, ops[0]), ops[1..]);
    }
  }

  /** In a consistent store, every debit entry of the ledger was posted right
      after an accepted update of its transaction's deposit request, which
      came right after a successful provider transfer, which came right
      after a Pending deposit record was established. */
  lemma DebitEntriesAreBacked(s: Store, k: int)
    requires Consistent(s) && 0 <= k < |s.ledger| && s.ledger[k].direction == Dr
    ensures exists i :: 3 <= i < |s.log| && s.log[i] == LedgerPostCalled(s.ledger[k].transactionId, Dr, true)
                        && s.log[i - 1] == DepositUpdateCalled(s.ledger[k].transactionId, true)
                        && s.log[i - 2].TransferCalled? && s.log[i - 2].success
                        && PendingEstablished(s.log[i - 3])
  {
    var tx := s.ledger[k].transactionId;
    assert LedgerPostCalled(tx, Dr, true) in s.log;
    var i :| 0 <= i < |s.log| && s.log[i] == LedgerPostCalled(tx, Dr, true);
    assert Justified(s.log, i);
    assert Justified(s.log, i - 1);
    assert Justified(s.log, i - 2);
  }

  /** Every credit entry was posted right after an accepted update of a
      withdrawal request, which came right after the sell rate was read for
      a request found unprocessed. */
  lemma CreditEntriesAreBacked(s: Store, k: int)
    requires Consistent(s) && 0 <= k < |s.ledger| && s.ledger[k].direction == Cr
    ensures exists i :: 3 <= i < |s.log| && s.log[i] == LedgerPostCalled(s.ledger[k].transactionId, Cr, true)
                        && s.log[i - 1].WithdrawalUpdateCalled? && s.log[i - 1].accepted
                        && s.log[i - 2] == SellRateRead
                        && s.log[i - 3].WithdrawalRead? && s.log[i - 3].requestId == s.log[i - 1].requestId
                        && s.log[i - 3].status.Some? && s.log[i - 3].status.value != 1
  {
    var tx := s.ledger[k].transactionId;
    assert LedgerPostCalled(tx, Cr, true) in s.log;
    var i :| 0 <= i < |s.log| && s.log[i] == LedgerPostCalled(tx, Cr, true);
    assert Justified(s.log, i);
    assert Justified(s.log, i - 1);
  }
}
