/**
 * The queued job `ProcessDerivDeposit`: one local deposit record moves from
 * its current status to `processing`, then to `completed` (with one row
 * inserted into each of the ledger system's `deriv_deposit_request` and
 * `customer_ledger` tables) or to `failed`. `HandleSpec` describes one run of
 * `handle` as a function of the database before it and of the answers of the
 * transfer, the database transaction and the SMS service; the class
 * `ProcessDerivDeposit` performs the same steps on a `Backend` object and is
 * proved to match it.
 */
module DepositJob {
  import opened Wrappers
  import opened DerivTransfer
  import opened Bridge

  /** The local record's `status` column. */
  datatype Status = Pending | Processing | Completed | Failed

  /** A row of the local `deriv_deposit_requests` table. */
  datatype Deposit = Deposit(
    transactionId: string,
    walletId: string,
    crNumber: string,
    amountUsd: real,
    status: Status,
    errorMessage: Option<string>,
    completedAt: Option<Timestamp>,
    derivResponse: Option<ProviderData>)

  /** A row inserted into the ledger system's `deriv_deposit_request` table. */
  datatype DepositRow = DepositRow(
    transactionId: string, walletId: string, crNumber: string, amount: real,
    status: int, deposited: real, processedAt: Timestamp, createdAt: Timestamp)

  /** A row inserted into the ledger system's `customer_ledger` table. */
  datatype LedgerRow = LedgerRow(
    transactionId: string, walletId: string, description: string, amount: real,
    currency: string, direction: Direction, deriv: int, status: int, createdAt: Timestamp)

  /** What the job did, in order. */
  datatype JobEvent =
    | StatusWritten(depositId: nat, status: Status)
    | TransferAttempted(crNumber: string, amount: real)
    | RowsInserted(transactionId: string)
    | SuccessSmsSent(depositId: nat)

  /** The local table, the two tables of the ledger system, and the job's log. */
  datatype Db = Db(
    deposits: map<nat, Deposit>,
    depositRows: seq<DepositRow>,
    ledgerRows: seq<LedgerRow>,
    log: seq<JobEvent>)

  /** The transfer call returns a result array or throws. */
  datatype TransferCall = Returned(result: TransferResult) | Raised(message: string)

  /** The `DB::transaction` block commits, or an exception inside it rolls it back. */
  datatype Commit = Committed | Aborted(message: string)

  /** `sendDerivDepositSuccess` returns, or throws. */
  datatype SmsCall = Delivered | SmsRaised(message: string)

  datatype JobOracle = JobOracle(transfer: TransferCall, commit: Commit, sms: SmsCall, now: Timestamp)

  /** `handle` returns normally, or rethrows the exception it caught. */
  datatype Outcome = Done | Rethrown(message: string)

  datatype JobStep = JobStep(outcome: Outcome, db: Db)

  /** The row `updateCodeIgniterDatabase` inserts into `deriv_deposit_request`. */
  function DepositRowFor(d: Deposit, now: Timestamp): (r: DepositRow)
    ensures r.status == 1 && r.deposited == d.amountUsd && r.amount == d.amountUsd
    ensures r.transactionId == d.transactionId
  {
    DepositRow(d.transactionId, d.walletId, d.crNumber, d.amountUsd, 1, d.amountUsd, now, now)
  }

  /** The row `updateCodeIgniterDatabase` inserts into `customer_ledger`. */
  function LedgerRowFor(d: Deposit, now: Timestamp): (r: LedgerRow)
    ensures r.direction == Dr && r.amount == d.amountUsd && r.currency == "USD"
    ensures r.transactionId == d.transactionId
  {
    LedgerRow(d.transactionId, d.walletId, "Deposit to Deriv", d.amountUsd, "USD", Dr, 1, 1, now)
  }

  /** `$deposit->update(['status' => ...])` on a record known to exist. */
  function SetStatus(db: Db, id: nat, status: Status): (t: Db)
    requires id in db.deposits
    ensures t.deposits == db.deposits[id := db.deposits[id].(status := status)]
    ensures t.depositRows == db.depositRows && t.ledgerRows == db.ledgerRows
    ensures t.log == db.log + [StatusWritten(id, status)]
  {
    db.(deposits := db.deposits[id := db.deposits[id].(status := status)], log := db.log + [StatusWritten(id, status)])
  }

  /** The catch block, and the failed-transfer branch: status `failed` and the message. */
  function MarkFailed(db: Db, id: nat, message: string): (t: Db)
    requires id in db.deposits
    ensures id in t.deposits && t.deposits[id].status == Failed && t.deposits[id].errorMessage == Some(message)
    // the record's other fields and every other record are kept
    ensures t.deposits == db.deposits[id := db.deposits[id].(status := Failed, errorMessage := Some(message))]
    ensures t.depositRows == db.depositRows && t.ledgerRows == db.ledgerRows
    ensures t.log == db.log + [StatusWritten(id, Failed)]
  {
    var d := db.deposits[id];
    db.(deposits := db.deposits[id := d.(status := Failed, errorMessage := Some(message))],
        log := db.log + [StatusWritten(id, Failed)])
  }

  /** The committed transaction: the record completed and both rows inserted. */
  function Complete(db: Db, id: nat, data: ProviderData, now: Timestamp): (t: Db)
    requires id in db.deposits
    ensures id in t.deposits && t.deposits[id].status == Completed && t.deposits[id].completedAt == Some(now)
    // the provider's data is kept as `deriv_response`; every other record is kept
    ensures t.deposits == db.deposits[id := db.deposits[id].(status := Completed, completedAt := Some(now),
                                                             derivResponse := Some(data))]
    ensures t.depositRows == db.depositRows + [DepositRowFor(db.deposits[id], now)]
    ensures t.ledgerRows == db.ledgerRows + [LedgerRowFor(db.deposits[id], now)]
    ensures t.log == db.log + [StatusWritten(id, Completed), RowsInserted(db.deposits[id].transactionId)]
  {
    var d := db.deposits[id];
    var completed := d.(status := Completed, completedAt := Some(now), derivResponse := Some(data));
    db.(deposits := db.deposits[id := completed],
        depositRows := db.depositRows + [DepositRowFor(d, now)],
        ledgerRows := db.ledgerRows + [LedgerRowFor(d, now)],
        log := db.log + [StatusWritten(id, Completed), RowsInserted(d.transactionId)])
  }

  /** One run of `handle` for deposit `id`. An exception inside the database
      transaction rolls back everything the transaction wrote; the catch
      block then writes the failure on top of the record as it was before. */
  function HandleSpec(db: Db, id: nat, o: JobOracle): (r: JobStep)
    ensures id !in db.deposits ==> r.db == db
    ensures db.log <= r.db.log
  {
    if id !in db.deposits then JobStep(Done, db)
    else
      var d := db.deposits[id];
      var db1 := SetStatus(db, id, Processing);
      var db2 := db1.(log := db1.log + [TransferAttempted(d.crNumber, d.amountUsd)]);
      match o.transfer
      case Raised(m) => JobStep(Rethrown(m), MarkFailed(db2, id, m))
      case Returned(t) =>
        if !t.success then JobStep(Done, MarkFailed(db2, id, t.message))
        else
          match o.commit
          case Aborted(m) => JobStep(Rethrown(m), MarkFailed(db2, id, m))
          case Committed =>
            var db3 := Complete(db2, id, t.data, o.now);
            match o.sms
            case Delivered => JobStep(Done, db3.(log := db3.log + [SuccessSmsSent(id)]))
            case SmsRaised(m) => JobStep(Rethrown(m), MarkFailed(db3, id, m))
  }

  // ---------------------------------------------------------------------------
  // Properties of one run

  /** A deposit that cannot be found is left alone: nothing is written and
      no transfer is attempted. */
  lemma NotFoundIsNoOp(db: Db, id: nat, o: JobOracle)
    requires id !in db.deposits
    ensures HandleSpec(db, id, o) == JobStep(Done, db)
  {
  }

  /** The status is set to `processing` before the transfer is attempted,
      whatever the record's status was. */
  lemma ProcessingBeforeTransfer(db: Db, id: nat, o: JobOracle)
    requires id in db.deposits
    ensures var log := HandleSpec(db, id, o).db.log;
            && |log| >= |db.log| + 2
            && log[|db.log|] == StatusWritten(id, Processing)
            && log[|db.log| + 1] == TransferAttempted(db.deposits[id].crNumber, db.deposits[id].amountUsd)
  {
  }

  /** A successful transfer completes the record, inserts exactly one row
      into each ledger-system table, then sends the success SMS. */
  lemma SuccessCompletesAndInsertsOnce(db: Db, id: nat, o: JobOracle)
    requires id in db.deposits && o.transfer.Returned? && o.transfer.result.success
    requires o.commit.Committed? && o.sms.Delivered?
    ensures var r := HandleSpec(db, id, o);
            var d := db.deposits[id];
            && r.outcome == Done
            && r.db.deposits == db.deposits[id := d.(status := Completed, completedAt := Some(o.now),
                                                     derivResponse := Some(o.transfer.result.data))]
            && r.db.depositRows == db.depositRows + [DepositRowFor(d, o.now)]
            && r.db.ledgerRows == db.ledgerRows + [LedgerRowFor(d, o.now)]
            && r.db.log[|r.db.log| - 1] == SuccessSmsSent(id)
  {
  }

  /** A transfer that reports failure marks the record failed with the
      transfer's message, inserts nothing, sends nothing and returns. */
  lemma FailedTransferMarksFailed(db: Db, id: nat, o: JobOracle)
    requires id in db.deposits && o.transfer.Returned? && !o.transfer.result.success
    ensures var r := HandleSpec(db, id, o);
            && r.outcome == Done
            && r.db.deposits == db.deposits[id := db.deposits[id].(status := Failed, errorMessage := Some(o.transfer.result.message))]
            && r.db.depositRows == db.depositRows && r.db.ledgerRows == db.ledgerRows
            && SuccessSmsSent(id) !in r.db.log[|db.log|..]
  {
  }

  /** An exception from the transfer or inside the database transaction marks
      the record failed with the exception's message and is rethrown; the
      transaction, taken as all-or-nothing, is rolled back, so no row is inserted. */
  lemma ExceptionMarksFailedAndRethrows(db: Db, id: nat, o: JobOracle, m: string)
    requires id in db.deposits
    requires o.transfer == Raised(m) || (o.transfer.Returned? && o.transfer.result.success && o.commit == Aborted(m))
    ensures var r := HandleSpec(db, id, o);
            && r.outcome == Rethrown(m)
            && r.db.deposits == db.deposits[id := db.deposits[id].(status := Failed, errorMessage := Some(m))]
            && r.db.depositRows == db.depositRows && r.db.ledgerRows == db.ledgerRows
  {
  }

  /** An exception from the SMS service comes after the commit: the rows stay
      inserted, yet the record ends up `failed` and the exception is rethrown. */
  lemma SmsFailureAfterCommit(db: Db, id: nat, o: JobOracle)
    requires id in db.deposits && o.transfer.Returned? && o.transfer.result.success
    requires o.commit.Committed? && o.sms.SmsRaised?
    ensures var r := HandleSpec(db, id, o);
            && r.outcome == Rethrown(o.sms.message)
            && r.db.deposits == db.deposits[id := db.deposits[id].(status := Failed, completedAt := Some(o.now),
                                                     derivResponse := Some(o.transfer.result.data),
                                                     errorMessage := Some(o.sms.message))]
            && |r.db.depositRows| == |db.depositRows| + 1 && |r.db.ledgerRows| == |db.ledgerRows| + 1
  {
  }

  /** `handle` does not look at the current status: handling a completed
      deposit again transfers again and inserts a second pair of rows. */
  lemma RehandlingTransfersAgain(db: Db, id: nat, o: JobOracle)
    requires id in db.deposits && o.transfer.Returned? && o.transfer.result.success
    requires o.commit.Committed? && o.sms.Delivered?
    ensures var once := HandleSpec(db, id, o).db;
            var twice := HandleSpec(once, id, o).db;
            && once.deposits[id].status == Completed
            && TransferAttempted(db.deposits[id].crNumber, db.deposits[id].amountUsd) in once.log[|db.log|..]
            && TransferAttempted(db.deposits[id].crNumber, db.deposits[id].amountUsd) in twice.log[|once.log|..]
            && twice.ledgerRows == db.ledgerRows + [LedgerRowFor(db.deposits[id], o.now), LedgerRowFor(db.deposits[id], o.now)]
  {
    var once := HandleSpec(db, id, o).db;
    assert once.log[|db.log|..][1] == once.log[|db.log| + 1];
    ProcessingBeforeTransfer(once, id, o);
    var twice := HandleSpec(once, id, o).db;
    assert twice.log[|once.log|..][1] == twice.log[|once.log| + 1];
  }

  // ---------------------------------------------------------------------------
  // An invariant across runs

  /** The two ledger-system tables were written together: row k of each
      belongs to the same deposit and carries the same dollar amount, as a
      deposited `deriv_deposit_request` row and a debit `customer_ledger` row. */
  predicate RowsPaired(db: Db) {
    && |db.depositRows| == |db.ledgerRows|
    && forall k | 0 <= k < |db.depositRows| ::
         && db.depositRows[k].transactionId == db.ledgerRows[k].transactionId
         && db.depositRows[k].amount == db.ledgerRows[k].amount
         && db.depositRows[k].status == 1 && db.depositRows[k].deposited == db.depositRows[k].amount
         && db.ledgerRows[k].direction == Dr
  }

  lemma {:induction false} AppendKeepsPaired(db: Db, d: Deposit, now: Timestamp)
    requires RowsPaired(db)
    ensures RowsPaired(db.(depositRows := db.depositRows + [DepositRowFor(d, now)],
                           ledgerRows := db.ledgerRows + [LedgerRowFor(d, now)]))
  {
    var t := db.(depositRows := db.depositRows + [DepositRowFor(d, now)],
                 ledgerRows := db.ledgerRows + [LedgerRowFor(d, now)]);
    forall k | 0 <= k < |t.depositRows|
      ensures t.depositRows[k].transactionId == t.ledgerRows[k].transactionId
      ensures t.depositRows[k].amount == t.ledgerRows[k].amount
      ensures t.depositRows[k].status == 1 && t.depositRows[k].deposited == t.depositRows[k].amount
      ensures t.ledgerRows[k].direction == Dr
    {
      if k < |db.depositRows| {
        assert t.depositRows[k] == db.depositRows[k] && t.ledgerRows[k] == db.ledgerRows[k];
      }
    }
  }

  lemma HandleKeepsPaired(db: Db, id: nat, o: JobOracle)
    requires RowsPaired(db)
    ensures RowsPaired(HandleSpec(db, id, o).db)
  {
    if id in db.deposits && o.transfer.Returned? && o.transfer.result.success && o.commit.Committed? {
      var db1 := SetStatus(db, id, Processing);
      var db2 := db1.(log := db1.log + [TransferAttempted(db.deposits[id].crNumber, db.deposits[id].amountUsd)]);
      AppendKeepsPaired(db2, db2.deposits[id], o.now);
    }
  }

  /** The job run for a sequence of deposits, with the answers each run gets. */
  function RunJobs(db: Db, jobs: seq<(nat, JobOracle)>): Db
    decreases |jobs|
  {
    if jobs == [] then db else RunJobs(HandleSpec(db, jobs[0].0, jobs[0].1).db, jobs[1..])
  }

  /** With the database transaction taken as all-or-nothing, however the
      runs go, with retries, failures and rollbacks, the two tables never
      fall out of step. */
  lemma {:induction false} RunJobsKeepsPaired(db: Db, jobs: seq<(nat, JobOracle)>)
    requires RowsPaired(db)
    ensures RowsPaired(RunJobs(db, jobs))
    decreases |jobs|
  {
    if jobs != [] {
      HandleKeepsPaired(db, jobs[0].0, jobs[0].1);
      RunJobsKeepsPaired(HandleSpec(db, jobs[0].0, jobs[0].1).db, jobs[1..]);
    }
  }

  // ---------------------------------------------------------------------------
  // The job as an object

  /** The local table and the ledger system's two tables, changed in place. */
  class Backend {
    var deposits: map<nat, Deposit>
    var depositRows: seq<DepositRow>
    var ledgerRows: seq<LedgerRow>
    ghost var log: seq<JobEvent>

    ghost function Snapshot(): Db
      reads this
    {
      Db(deposits, depositRows, ledgerRows, log)
    }

    constructor (db: Db)
      ensures Snapshot() == db
    {
      deposits, depositRows, ledgerRows, log := db.deposits, db.depositRows, db.ledgerRows, db.log;
    }

    /** `DerivDepositRequest::find`. */
    method Find(id: nat) returns (d: Option<Deposit>)
      ensures d.Some? <==> id in deposits
      ensures d.Some? ==> d.value == deposits[id]
    {
      d := if id in deposits then Some(deposits[id]) else None;
    }

    /** `$deposit->update([...])`: the record's new column values. */
    method Save(id: nat, d: Deposit)
      modifies this
      ensures deposits == old(deposits)[id := d]
      ensures depositRows == old(depositRows) && ledgerRows == old(ledgerRows)
      ensures log == old(log) + [StatusWritten(id, d.status)]
    {
      deposits := deposits[id := d];
      log := log + [StatusWritten(id, d.status)];
    }

    method InsertDepositRow(row: DepositRow)
      modifies this
      ensures depositRows == old(depositRows) + [row]
      ensures deposits == old(deposits) && ledgerRows == old(ledgerRows) && log == old(log)
    {
      depositRows := depositRows + [row];
    }

    method InsertLedgerRow(row: LedgerRow)
      modifies this
      ensures ledgerRows == old(ledgerRows) + [row]
      ensures deposits == old(deposits) && depositRows == old(depositRows) && log == old(log)
    {
      ledgerRows := ledgerRows + [row];
    }

    /** The rollback of the database transaction: every table, and the job's
        log, is put back as it was saved. */
    method Restore(deposits: map<nat, Deposit>, depositRows: seq<DepositRow>, ledgerRows: seq<LedgerRow>, ghost log: seq<JobEvent>)
      modifies this
      ensures Snapshot() == Db(deposits, depositRows, ledgerRows, log)
    {
      this.deposits, this.depositRows, this.ledgerRows := deposits, depositRows, ledgerRows;
      this.log := log;
    }

    /** Appends to the job's log an event that happened outside the tables. */
    method Record(ghost e: JobEvent)
      modifies this
      ensures Snapshot() == old(Snapshot()).(log := old(log) + [e])
    {
      log := log + [e];
    }
  }

  class ProcessDerivDeposit {
    const depositId: nat

    constructor (depositId: nat)
      ensures this.depositId == depositId
    {
      this.depositId := depositId;
    }

    /** `updateCodeIgniterDatabase`: one row into each ledger-system table. */
    method UpdateCodeIgniterDatabase(backend: Backend, d: Deposit, now: Timestamp)
      modifies backend
      ensures backend.depositRows == old(backend.depositRows) + [DepositRowFor(d, now)]
      ensures backend.ledgerRows == old(backend.ledgerRows) + [LedgerRowFor(d, now)]
      ensures backend.deposits == old(backend.deposits) && backend.log == old(backend.log)
    {
      backend.InsertDepositRow(DepositRow(d.transactionId, d.walletId, d.crNumber, d.amountUsd, 1, d.amountUsd, now, now));
      backend.InsertLedgerRow(LedgerRow(d.transactionId, d.walletId, "Deposit to Deriv", d.amountUsd, "USD", Dr, 1, 1, now));
    }

    /** `handle`: the transfer, the transaction, the SMS and the catch block. */
    method Handle(backend: Backend, o: JobOracle) returns (outcome: Outcome)
      modifies backend
      ensures outcome == HandleSpec(old(backend.Snapshot()), depositId, o).outcome
      ensures backend.Snapshot() == HandleSpec(old(backend.Snapshot()), depositId, o).db
    {
      var found := backend.Find(depositId);
      if found.None? {
        return Done;
      }
      var deposit := found.value;
      deposit := deposit.(status := Processing);
      backend.Save(depositId, deposit);
      backend.Record(TransferAttempted(deposit.crNumber, deposit.amountUsd));
      var failure: Option<string> := None;
      match o.transfer {
        case Raised(m) =>
          failure := Some(m);
        case Returned(result) =>
          if result.success {
            var before := deposit;
            var savedDeposits, savedDepositRows, savedLedgerRows := backend.deposits, backend.depositRows, backend.ledgerRows;
            ghost var savedLog := backend.log;
            deposit := deposit.(status := Completed, completedAt := Some(o.now), derivResponse := Some(result.data));
            backend.Save(depositId, deposit);
            UpdateCodeIgniterDatabase(backend, deposit, o.now);
            backend.Record(RowsInserted(deposit.transactionId));
            if o.commit.Aborted? {
              // the rollback restores the tables; the local object keeps its
              // attributes, but only the columns the catch block sets are written
              backend.Restore(savedDeposits, savedDepositRows, savedLedgerRows, savedLog);
              deposit := before;
              failure := Some(o.commit.message);
            } else {
              match o.sms {
                case Delivered =>
                  backend.Record(SuccessSmsSent(depositId));
                case SmsRaised(m) =>
                  failure := Some(m);
              }
            }
          } else {
            deposit := deposit.(status := Failed, errorMessage := Some(result.message));
            backend.Save(depositId, deposit);
          }
      }
      if failure.Some? {
        deposit := deposit.(status := Failed, errorMessage := Some(failure.value));
        backend.Save(depositId, deposit);
        return Rethrown(failure.value);
      }
      return Done;
    }
  }
}
