// The tables behind the internal wallet and the transaction body of every handler that touches them.
//
// A transaction body is split in two, as in the source: it reads a few values (`ReadRow`, `ReadA`, `ReadB`),
// and from those values alone decides either to roll back or to issue a list of writes (`Plan`). Running a body
// without interruption is `Step`. WalletTx.dfy runs the same bodies as interleaved transactions.

module WalletStore {
  import opened Common
  import opened Integers

  // A user is named by the rank of its id in the database's order of users.id.
  type UserId = nat
  type RowId = nat
  type VideoId = nat

  const MIN_DEPOSIT_CENTS := 1_000
  const MIN_WITHDRAWAL_CENTS := 5_000
  const MIN_TRANSFER_CENTS := 100

  // CREATOR_SPLIT_BP is clamped to 10 000 when the configuration is read.
  type BasisPoints = x: int | 0 <= x <= 10_000
  // affiliate_settings carries CHECK (commission_pct >= 0 AND commission_pct <= 90).
  type Percent = x: int | 0 <= x <= 90

  datatype Kind = Deposit | Withdrawal | TransferIn | TransferOut | Payment
  datatype Status = Pending | Approved | Completed | Rejected
  datatype Note = UserNote | VideoPurchase(bought: VideoId) | VideoSale(sold: VideoId)
                | CommissionPaid(paidFor: VideoId) | CommissionEarned(earnedFor: VideoId)

  /** One line of wallet_transactions. */
  datatype Row = Row(user: UserId, kind: Kind, amount: int, balanceAfter: int, status: Status,
                     counterparty: Option<UserId>, note: Note)

  /** One line of affiliate_commissions. `invoice` is the paid invoice, if the sale had one. */
  datatype CommissionRow = CommissionRow(video: VideoId, affiliate: UserId, buyer: UserId, owner: UserId,
                                         price: int, cents: int, invoice: Option<nat>)

  datatype Store = Store(
    balances: map<UserId, int>,
    rows: map<RowId, Row>,
    purchases: set<(UserId, VideoId)>,
    allowlist: set<(VideoId, string)>,
    commissions: seq<CommissionRow>)

  /** A call of one handler, with the ids its inserts receive and the values it looked up before its transaction. */
  datatype Op =
    | DepositOp(user: UserId, amount: I64, id: RowId, seen: I64)
    | WithdrawOp(user: UserId, amount: I64, id: RowId)
    | TransferOp(user: UserId, to: UserId, amount: I64, id: RowId, id2: RowId)
    | PayOp(user: UserId, owner: UserId, video: VideoId, price: I64, split: BasisPoints,
            blocked: bool, username: string, id: RowId, id2: RowId)
    | CommissionOp(video: VideoId, user: UserId, owner: UserId, affiliate: UserId, price: I64,
                   enabled: bool, pct: Percent, invoice: Option<nat>, id: RowId, id2: RowId)
    | ApproveOp(id: RowId)
    | CompleteOp(id: RowId)
    | RejectOp(id: RowId)

  datatype Write =
    | SetBalance(who: UserId, cents: int)
    | PutRow(at: RowId, row: Row)
    | AddPurchase(buyer: UserId, item: VideoId)
    | AddAllow(video: VideoId, username: string)
    | AddCommission(commission: CommissionRow)

  function Do(s: Store, w: Write): Store {
    match w
    case SetBalance(who, cents) => if who in s.balances then s.(balances := s.balances[who := cents]) else s
    case PutRow(at, row) => s.(rows := s.rows[at := row])
    case AddPurchase(buyer, item) => s.(purchases := s.purchases + {(buyer, item)})
    case AddAllow(video, username) =>
      if username == "" then s else s.(allowlist := s.allowlist + {(video, username)})
    case AddCommission(c) => s.(commissions := s.commissions + [c])
  }

  function DoAll(s: Store, ws: seq<Write>): Store
    decreases |ws|
  {
    if ws == [] then s else DoAll(Do(s, ws[0]), ws[1..])
  }

  predicate IsAdmin(op: Op) {
    op.ApproveOp? || op.CompleteOp? || op.RejectOp?
  }

  /** The ledger row a body looks up, the user whose balance it reads first, and the user it reads second. */
  function RowRead(op: Op): Option<RowId> {
    if IsAdmin(op) then Some(op.id) else None
  }

  function UserA(op: Op, row: Option<Row>): Option<UserId> {
    match op
    case CommissionOp(_, _, owner, _, _, _, _, _, _, _) => Some(owner)
    case ApproveOp(_) => if row.Some? then Some(row.value.user) else None
    case RejectOp(_) => if row.Some? && row.value.kind.Withdrawal? then Some(row.value.user) else None
    case CompleteOp(_) => None
    case _ => Some(op.user)
  }

  function UserB(op: Op): Option<UserId> {
    match op
    case TransferOp(_, to, _, _, _) => Some(to)
    case PayOp(_, owner, _, _, _, _, _, _, _) => Some(owner)
    case CommissionOp(_, _, _, affiliate, _, _, _, _, _, _) => Some(affiliate)
    case _ => None
  }

  function NewRows(op: Op): seq<RowId> {
    match op
    case DepositOp(_, _, id, _) => [id]
    case WithdrawOp(_, _, id) => [id]
    case TransferOp(_, _, _, id, id2) => [id, id2]
    case PayOp(_, _, _, _, _, _, _, id, id2) => [id, id2]
    case CommissionOp(_, _, _, _, _, _, _, _, id, id2) => [id, id2]
    case _ => []
  }

  predicate FreshRows(op: Op, rows: map<RowId, Row>) {
    && (forall id :: id in NewRows(op) ==> id !in rows)
    && (|NewRows(op)| == 2 ==> NewRows(op)[0] != NewRows(op)[1])
  }

  function CreatorCut(price: int, split: BasisPoints): int {
    price * split / 10_000
  }

  /** A negative price truncates to a non-positive quotient, which `max(0)` turns into no commission. */
  function CommissionCents(price: int, pct: Percent): int {
    if price <= 0 then 0 else price * pct / 100
  }

  lemma DoAllFirst(s: Store, w: Write, ws: seq<Write>)
    ensures DoAll(s, [w] + ws) == DoAll(Do(s, w), ws)
  {
    assert ([w] + ws)[1..] == ws;
  }

  /** Checks made before any row is locked. */
  predicate Admissible(op: Op) {
    match op
    case DepositOp(_, amount, _, _) => amount >= MIN_DEPOSIT_CENTS
    case WithdrawOp(_, amount, _) => amount >= MIN_WITHDRAWAL_CENTS
    case TransferOp(user, to, amount, _, _) => amount >= MIN_TRANSFER_CENTS && to != user
    case PayOp(user, owner, _, price, _, _, _, _, _) => owner != user && price > 0
    case CommissionOp(_, user, owner, affiliate, price, enabled, pct, _, _, _) =>
      enabled && pct > 0 && affiliate != user && affiliate != owner && CommissionCents(price, pct) != 0
    case _ => true
  }

  /** The writes of a body, or None when it rolls back. A user that does not exist reads as balance 0. */
  function Plan(op: Op, row: Option<Row>, a: Option<int>, b: Option<int>): Option<seq<Write>> {
    if !Admissible(op) then None else
    match op
    case DepositOp(user, amount, id, seen) =>
      if a.None? then None  // foreign key
      else Some([PutRow(id, Row(user, Deposit, amount, seen, Pending, None, UserNote))])
    case WithdrawOp(user, amount, id) =>
      if a.None? || a.value < amount then None else
      var left := a.value - amount;
      Some([SetBalance(user, left), PutRow(id, Row(user, Withdrawal, amount, left, Pending, None, UserNote))])
    case TransferOp(user, to, amount, id, id2) =>
      if a.GetOr(0) < amount || b.None? then None else
      var left, gained := a.GetOr(0) - amount, Wrap64(b.value + amount);
      Some([SetBalance(user, left), SetBalance(to, gained),
            PutRow(id, Row(user, TransferOut, amount, left, Completed, Some(to), UserNote)),
            PutRow(id2, Row(to, TransferIn, amount, gained, Completed, Some(user), UserNote))])
    case PayOp(user, owner, video, price, split, blocked, username, id, id2) =>
      var cut := CreatorCut(price, split);
      // A zero share breaks CHECK (amount_cents > 0); a blocked buyer trips the purchase trigger.
      if a.GetOr(0) < price || b.None? || cut == 0 || blocked then None else
      var left, gained := a.GetOr(0) - price, Wrap64(b.value + cut);
      Some([SetBalance(user, left), SetBalance(owner, gained),
            PutRow(id, Row(user, Payment, price, left, Completed, Some(owner), VideoPurchase(video))),
            PutRow(id2, Row(owner, TransferIn, cut, gained, Completed, Some(user), VideoSale(video))),
            AddPurchase(user, video), AddAllow(video, username)])
    case CommissionOp(video, user, owner, affiliate, price, _, pct, invoice, id, id2) =>
      var cents := CommissionCents(price, pct);
      if a.GetOr(0) < cents || b.None? then None else
      var left, gained := a.GetOr(0) - cents, Wrap64(b.value + cents);
      Some([SetBalance(owner, left), SetBalance(affiliate, gained),
            PutRow(id, Row(owner, TransferOut, cents, left, Completed, Some(affiliate), CommissionPaid(video))),
            PutRow(id2, Row(affiliate, TransferIn, cents, gained, Completed, Some(owner), CommissionEarned(video))),
            AddCommission(CommissionRow(video, affiliate, user, owner, price, cents, invoice))])
    case ApproveOp(id) =>
      // The database adds: an overflow is an error, not a wrapped value.
      if row.None? || !row.value.status.Pending? || !row.value.kind.Deposit? || a.None?
         || a.value + row.value.amount > MAX_I64 then None else
      var total := a.value + row.value.amount;
      Some([SetBalance(row.value.user, total), PutRow(id, row.value.(status := Approved, balanceAfter := total))])
    case CompleteOp(id) =>
      if row.None? || !row.value.status.Pending? || !row.value.kind.Withdrawal? then None else
      Some([PutRow(id, row.value.(status := Completed))])
    case RejectOp(id) =>
      if row.None? || !row.value.status.Pending? then None else
      var mark := PutRow(id, row.value.(status := Rejected));
      if !row.value.kind.Withdrawal? || a.None? then Some([mark])
      else if a.value + row.value.amount > MAX_I64 then None
      else Some([SetBalance(row.value.user, a.value + row.value.amount), mark])
  }

  function ReadRow(s: Store, op: Op): Option<Row> {
    if RowRead(op).Some? then Lookup(s.rows, RowRead(op).value) else None
  }

  function ReadA(s: Store, op: Op): Option<int> {
    var who := UserA(op, ReadRow(s, op));
    if who.Some? then Lookup(s.balances, who.value) else None
  }

  function ReadB(s: Store, op: Op): Option<int> {
    if UserB(op).Some? then Lookup(s.balances, UserB(op).value) else None
  }

  function Writes(s: Store, op: Op): Option<seq<Write>> {
    if FreshRows(op, s.rows) then Plan(op, ReadRow(s, op), ReadA(s, op), ReadB(s, op)) else None
  }

  /** The whole body in one step: all its writes, or none of them. */
  function Step(s: Store, op: Op): Store {
    if Writes(s, op).Some? then DoAll(s, Writes(s, op).value) else s
  }

  function Run(s: Store, ops: seq<Op>): Store
    decreases |ops|
  {
    if ops == [] then s else Step(Run(s, ops[..|ops|-1]), ops[|ops|-1])
  }
}
