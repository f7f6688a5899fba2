/**
 * The legacy ledger system as the orchestrations see it through
 * `CodeIgniterBridgeService`: its records, the raw replies its endpoints can
 * give, the bridge's normalisation of failed replies, and the store of
 * deposit requests, withdrawal requests, ledger entries and outgoing SMS
 * that its writes change. Every bridge call is also recorded in the store's
 * call log, so that contracts can speak about which calls happened in which
 * order.
 */
module Bridge {
  import opened Wrappers
  import opened Money
  import opened DerivTransfer

  type Timestamp = nat

  /** A row of the deposit-request table. `amount` is in dollars; `status` is 0
      (Pending) or 1 (processed). */
  datatype DepositRequest = DepositRequest(
    transactionId: string,
    transactionNumber: string,
    walletId: string,
    crNumber: string,
    amount: real,
    rate: real,
    status: int,
    requestDate: Timestamp,
    deposited: Option<real>,
    processedAt: Option<Timestamp>)

  /** A row of the withdrawal-request table. The orchestration creates it
      without transaction id or number; the ledger system may hold them. */
  datatype WithdrawalRequest = WithdrawalRequest(
    walletId: string,
    crNumber: string,
    amount: real,
    rate: real,
    status: int,
    requestDate: Timestamp,
    withdrawn: Option<real>,
    processedAt: Option<Timestamp>,
    transactionId: Option<string>,
    transactionNumber: Option<string>)

  /** `cr_dr`: a debit of the wallet (money leaves it for the trading
      account) or a credit. */
  datatype Direction = Dr | Cr

  /** An accounting entry. A deposit entry carries the dollar amount
      (`amount_usd`), a withdrawal entry the shilling amount (`amount_kes`). */
  datatype LedgerEntry = LedgerEntry(
    transactionId: string,
    transactionNumber: string,
    walletId: string,
    amount: real,
    amountUsd: Option<real>,
    amountKes: Option<real>,
    rate: real,
    charge: real,
    description: string,
    direction: Direction)

  /** Who an SMS goes to: the customer's phone, or the fixed operations phone. */
  datatype Recipient = Customer(phone: string) | Operations

  /** What an SMS announces; its wording is not modelled. */
  datatype Notice =
    | DepositCompleted(transactionNumber: string, amountUsd: real, crNumber: string)
    | DepositCompletedForOperations(amountUsd: real, crNumber: string)
    | WithdrawalRequested(amount: real)
    | WithdrawalRequestedForOperations(amount: real, crNumber: string)
    | DepositCallbackCompleted(transactionNumber: string, amount: real, crNumber: string)
    | WithdrawalCompleted(transactionNumber: string, amount: real, crNumber: string)

  datatype Sms = Sms(to: Recipient, notice: Notice)

  /** One entry of the call log: a bridge call or a provider transfer, with
      what the orchestration learnt from it. */
  datatype Event =
    | UserDataRead(walletId: string)
    | DuplicateChecked(transactionId: string)
    | DepositCreateCalled(transactionId: string, accepted: bool)
    | TransferCalled(crNumber: string, amount: real, sent: Option<PaymentRequest>, success: bool)
    | DepositUpdateCalled(transactionId: string, accepted: bool)
    | LedgerPostCalled(transactionId: string, direction: Direction, accepted: bool)
    | UserInfoRead(walletId: string)
    | SellRateRead
    | PendingWithdrawalsChecked(walletId: string)
    | WithdrawalCreateCalled(accepted: bool)
    | DepositRead(requestId: nat, status: Option<int>)
    | WithdrawalRead(requestId: nat, status: Option<int>)
    | WithdrawalUpdateCalled(requestId: nat, accepted: bool)

  /** The ledger system's state as the orchestrations change it, and the call
      log. Deposit and withdrawal requests are stored under request ids that
      the ledger system assigns; `nextDepositId` and `nextWithdrawalId` are
      the ids it assigns next. */
  datatype Store = Store(
    deposits: map<nat, DepositRequest>,
    nextDepositId: nat,
    withdrawals: map<nat, WithdrawalRequest>,
    nextWithdrawalId: nat,
    ledger: seq<LedgerEntry>,
    outbox: seq<Sms>,
    log: seq<Event>)
  {
    function Log(e: Event): (s: Store)
      ensures s.log == log + [e]
    {
      this.(log := log + [e])
    }

    function Send(messages: seq<Sms>): Store {
      this.(outbox := outbox + messages)
    }
  }

  // ---------------------------------------------------------------------------
  // Raw replies and the bridge's normalisation of them

  /** The reply to a write endpoint: `success` true, `success` false with an
      optional message, or no usable reply at all (transport error). */
  datatype WriteReply = Accepted | Refused(message: Option<string>) | Unreachable

  /** The message a failed write reports: the endpoint's own, its default
      when it gave none, or the "service unavailable" text on a transport error. */
  function WriteFailure(reply: WriteReply, refusedDefault: string, unavailable: string): (m: string)
    requires !reply.Accepted?
    ensures reply.Refused? && reply.message.Some? ==> m == reply.message.value
    ensures reply.Refused? && reply.message.None? ==> m == refusedDefault
    ensures reply.Unreachable? ==> m == unavailable
  {
    match reply
    case Refused(Some(message)) => message
    case Refused(None) => refusedDefault
    case Unreachable => unavailable
  }

  /** Balance summary and buy rate returned by the user-data endpoint. */
  datatype UserData = UserData(totalCredit: real, totalDebit: real, buyRate: Rate)

  datatype UserDataReply = UserDataServed(data: UserData) | UserDataRefused(message: Option<string>) | UserDataUnreachable

  /** getUserData: the data, or `{success: false, message}` with the
      endpoint's message, its default, or the "service unavailable" text. */
  function UserDataResult(reply: UserDataReply): (r: Result<UserData, string>)
    ensures r.Ok? <==> reply.UserDataServed?
    ensures r.Ok? ==> r.value == reply.data
    ensures reply.UserDataRefused? && reply.message.Some? ==> r == Err(reply.message.value)
    ensures reply.UserDataRefused? && reply.message.None? ==> r == Err("Failed to get user data")
    ensures reply.UserDataUnreachable? ==> r == Err("User data service unavailable")
  {
    match reply
    case UserDataServed(data) => Ok(data)
    case UserDataRefused(Some(message)) => Err(message)
    case UserDataRefused(None) => Err("Failed to get user data")
    case UserDataUnreachable => Err("User data service unavailable")
  }

  /** The reply of the duplicate-check endpoint: an `is_duplicate` answer, or none. */
  datatype DuplicateReply = Answered(isDuplicate: bool) | Unanswered

  /** checkDuplicateTransaction fails open: with no answer the transaction
      counts as new. */
  function IsDuplicate(reply: DuplicateReply): (duplicate: bool)
    ensures duplicate <==> reply == Answered(true)
  {
    match reply
    case Answered(b) => b
    case Unanswered => false
  }

  /** The reply of the pending-withdrawals endpoint. */
  datatype PendingReply = Listed(pending: seq<nat>) | PendingUnanswered

  /** checkPendingWithdrawals: the listed requests, or none at all on error. */
  function PendingWithdrawals(reply: PendingReply): (pending: seq<nat>)
    ensures reply.Listed? ==> pending == reply.pending
    ensures reply.PendingUnanswered? ==> pending == []
  {
    match reply
    case Listed(p) => p
    case PendingUnanswered => []
  }

  /** The reply of the sell-rate endpoint: a rate, or nothing usable. */
  datatype RateReply = Quoted(rate: Rate) | RateUnanswered

  /** getSellRate: the rate, or an empty array on any error. */
  function SellRate(reply: RateReply): (r: Option<Rate>)
    ensures r.Some? <==> reply.Quoted?
    ensures r.Some? ==> r.value == reply.rate
  {
    match reply
    case Quoted(rate) => Some(rate)
    case RateUnanswered => None
  }

  /** The reply of the user-info endpoint, with the `phone` field if present. */
  datatype InfoReply = Info(phone: Option<string>) | InfoUnanswered

  /** `$userInfo['phone'] ?? null`: the phone field, or nothing on error. */
  function PhoneField(reply: InfoReply): (phone: Option<string>)
    ensures phone.Some? <==> reply.Info? && reply.phone.Some?
    ensures phone.Some? ==> phone.value == reply.phone.value
  {
    match reply
    case Info(p) => p
    case InfoUnanswered => None
  }

  /** PHP's truth test on a string: false for "" and "0". */
  predicate Truthy(text: string) {
    text != "" && text != "0"
  }

  /** The phone an orchestration notifies: present and truthy, or none. */
  function NotifiablePhone(reply: InfoReply): (phone: Option<string>)
    ensures phone.Some? <==> reply.Info? && reply.phone.Some? && reply.phone.value != "" && reply.phone.value != "0"
    ensures phone.Some? ==> phone.value == reply.phone.value
  {
    var p := PhoneField(reply);
    if p.Some? && Truthy(p.value) then p else None
  }

  // ---------------------------------------------------------------------------
  // The store transitions of the bridge's write and read calls

  /** Every stored request's id is below the id the store assigns next, so
      a create never overwrites a stored request. */
  predicate IdsFresh(s: Store) {
    && (forall k <- s.deposits.Keys :: k < s.nextDepositId)
    && (forall k <- s.withdrawals.Keys :: k < s.nextWithdrawalId)
  }

  /** A request id as the decimal text it travels as in a request body. */
  function IdText(n: nat): string {
    var digit := [(48 + n % 10) as char];
    if n < 10 then digit else IdText(n / 10) + digit
  }

  /** createDepositRequest: on acceptance the record is added under a fresh
      request id; no stored record is replaced. */
  function CreateDeposit(s: Store, request: DepositRequest, reply: WriteReply): (t: Store)
    ensures t.deposits == if reply.Accepted? then s.deposits[s.nextDepositId := request] else s.deposits
    ensures t.nextDepositId == if reply.Accepted? then s.nextDepositId + 1 else s.nextDepositId
    ensures IdsFresh(s) ==> IdsFresh(t) && s.deposits.Keys <= t.deposits.Keys
    ensures IdsFresh(s) ==> forall k <- s.deposits.Keys :: t.deposits[k] == s.deposits[k]
    ensures t.withdrawals == s.withdrawals && t.nextWithdrawalId == s.nextWithdrawalId
    ensures t.ledger == s.ledger && t.outbox == s.outbox
    ensures t.log == s.log + [DepositCreateCalled(request.transactionId, reply.Accepted?)]
  {
    if reply.Accepted? then
      s.(deposits := s.deposits[s.nextDepositId := request], nextDepositId := s.nextDepositId + 1)
       .Log(DepositCreateCalled(request.transactionId, true))
    else
      s.Log(DepositCreateCalled(request.transactionId, false))
  }

  /** The fields a deposit update sets: status 1, `deposited`, `processed_at`;
      every other field is kept. */
  function MarkDeposited(r: DepositRequest, amount: real, now: Timestamp): (u: DepositRequest)
    ensures u.status == 1 && u.deposited == Some(amount) && u.processedAt == Some(now)
    ensures u.(status := r.status, deposited := r.deposited, processedAt := r.processedAt) == r
  {
    r.(status := 1, deposited := Some(amount), processedAt := Some(now))
  }

  /** The deposit table after an accepted update for `transactionId`. */
  function MarkTransaction(deposits: map<nat, DepositRequest>, transactionId: string, amount: real, now: Timestamp): map<nat, DepositRequest> {
    map k <- deposits.Keys :: if deposits[k].transactionId == transactionId then MarkDeposited(deposits[k], amount, now) else deposits[k]
  }

  /** updateDepositRequest: on acceptance every record whose transaction id
      is the one given is marked deposited; the others are kept. */
  function UpdateDeposit(s: Store, transactionId: string, amount: real, now: Timestamp, reply: WriteReply): (t: Store)
    ensures t.withdrawals == s.withdrawals && t.nextWithdrawalId == s.nextWithdrawalId
    ensures t.ledger == s.ledger && t.outbox == s.outbox
    ensures t.deposits.Keys == s.deposits.Keys && t.nextDepositId == s.nextDepositId
    ensures forall k <- s.deposits.Keys ::
              t.deposits[k] == if reply.Accepted? && s.deposits[k].transactionId == transactionId
                               then MarkDeposited(s.deposits[k], amount, now) else s.deposits[k]
    ensures t.log == s.log + [DepositUpdateCalled(transactionId, reply.Accepted?)]
  {
    var d := if reply.Accepted? then MarkTransaction(s.deposits, transactionId, amount, now) else s.deposits;
    s.(deposits := d).Log(DepositUpdateCalled(transactionId, reply.Accepted?))
  }

  /** createWithdrawalRequest: on acceptance the record is stored under a
      fresh id, which is returned. */
  function CreateWithdrawal(s: Store, request: WithdrawalRequest, reply: WriteReply): (t: Store)
    ensures t.withdrawals == if reply.Accepted? then s.withdrawals[s.nextWithdrawalId := request] else s.withdrawals
    ensures t.nextWithdrawalId == if reply.Accepted? then s.nextWithdrawalId + 1 else s.nextWithdrawalId
    ensures IdsFresh(s) ==> IdsFresh(t)
    ensures t.deposits == s.deposits && t.nextDepositId == s.nextDepositId && t.ledger == s.ledger && t.outbox == s.outbox
    ensures t.log == s.log + [WithdrawalCreateCalled(reply.Accepted?)]
  {
    if reply.Accepted? then
      s.(withdrawals := s.withdrawals[s.nextWithdrawalId := request], nextWithdrawalId := s.nextWithdrawalId + 1)
       .Log(WithdrawalCreateCalled(true))
    else
      s.Log(WithdrawalCreateCalled(false))
  }

  /** The fields a withdrawal update sets: status 1, `withdraw`,
      `processed_at`; every other field is kept. */
  function MarkWithdrawn(r: WithdrawalRequest, amount: real, now: Timestamp): (u: WithdrawalRequest)
    ensures u.status == 1 && u.withdrawn == Some(amount) && u.processedAt == Some(now)
    ensures u.(status := r.status, withdrawn := r.withdrawn, processedAt := r.processedAt) == r
  {
    r.(status := 1, withdrawn := Some(amount), processedAt := Some(now))
  }

  /** updateWithdrawalRequest: on acceptance the record under `id`, if any, is marked withdrawn. */
  function UpdateWithdrawal(s: Store, id: nat, amount: real, now: Timestamp, reply: WriteReply): (t: Store)
    ensures t.deposits == s.deposits && t.nextDepositId == s.nextDepositId && t.ledger == s.ledger && t.outbox == s.outbox
    ensures t.nextWithdrawalId == s.nextWithdrawalId && t.withdrawals.Keys == s.withdrawals.Keys
    ensures forall k :: k in s.withdrawals && k != id ==> t.withdrawals[k] == s.withdrawals[k]
    ensures id in s.withdrawals ==>
              t.withdrawals[id] == if reply.Accepted? then MarkWithdrawn(s.withdrawals[id], amount, now) else s.withdrawals[id]
    ensures t.log == s.log + [WithdrawalUpdateCalled(id, reply.Accepted?)]
  {
    var w := if reply.Accepted? && id in s.withdrawals then s.withdrawals[id := MarkWithdrawn(s.withdrawals[id], amount, now)] else s.withdrawals;
    s.(withdrawals := w).Log(WithdrawalUpdateCalled(id, reply.Accepted?))
  }

  /** createLedgerEntries: on acceptance the entry is appended. */
  function PostLedger(s: Store, entry: LedgerEntry, reply: WriteReply): (t: Store)
    ensures t.ledger == if reply.Accepted? then s.ledger + [entry] else s.ledger
    ensures t.deposits == s.deposits && t.withdrawals == s.withdrawals && t.outbox == s.outbox
    ensures t.nextDepositId == s.nextDepositId && t.nextWithdrawalId == s.nextWithdrawalId
    ensures t.log == s.log + [LedgerPostCalled(entry.transactionId, entry.direction, reply.Accepted?)]
  {
    var l := if reply.Accepted? then s.ledger + [entry] else s.ledger;
    s.(ledger := l).Log(LedgerPostCalled(entry.transactionId, entry.direction, reply.Accepted?))
  }

  /** getDepositRequest: the stored record, or nothing when the call fails or
      there is no such record. */
  function ReadDeposit(s: Store, id: nat, served: bool): (r: Option<DepositRequest>)
    ensures r.Some? <==> served && id in s.deposits
    ensures r.Some? ==> r.value == s.deposits[id]
  {
    if served && id in s.deposits then Some(s.deposits[id]) else None
  }

  /** The status a read saw, recorded in the call log. */
  function DepositStatus(r: Option<DepositRequest>): Option<int> {
    if r.Some? then Some(r.value.status) else None
  }

  /** getWithdrawalRequest: the stored record, or nothing. */
  function ReadWithdrawal(s: Store, id: nat, served: bool): (r: Option<WithdrawalRequest>)
    ensures r.Some? <==> served && id in s.withdrawals
    ensures r.Some? ==> r.value == s.withdrawals[id]
  {
    if served && id in s.withdrawals then Some(s.withdrawals[id]) else None
  }

  /** The status a read saw, recorded in the call log. */
  function WithdrawalStatus(r: Option<WithdrawalRequest>): Option<int> {
    if r.Some? then Some(r.value.status) else None
  }
}
