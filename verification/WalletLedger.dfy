// What the ledger rows say about the balances.

module WalletLedger {

  // Every balance is explained by its rows, money is conserved, and a row leaves `pending` at most once, over every run
  // of handler bodies.

  import opened Integers
  import opened Sums
  import opened WalletStore

  /** The sums over ledger rows that the theorems speak of. */
  datatype Measure =
    | OfUser(u: UserId)       // signed effect on one user's balance
    | ApprovedDeposits
    | HeldWithdrawals         // taken from a balance, payout not yet made
    | PaidWithdrawals
    | SpentOnVideos           // paid by buyers
    | EarnedOnVideos          // passed on to creators

  /** What a row does to the balance of its user. */
  function Effect(r: Row): int {
    match r.kind
    case Deposit => if r.status.Approved? then r.amount else 0
    case Withdrawal => if r.status.Rejected? then 0 else -r.amount
    case TransferIn => r.amount
    case TransferOut => -r.amount
    case Payment => -r.amount
  }

  function Value(me: Measure, r: Row): int {
    match me
    case OfUser(u) => if r.user == u then Effect(r) else 0
    case ApprovedDeposits => if r.kind.Deposit? && r.status.Approved? then r.amount else 0
    case HeldWithdrawals => if r.kind.Withdrawal? && r.status.Pending? then r.amount else 0
    case PaidWithdrawals => if r.kind.Withdrawal? && r.status.Completed? then r.amount else 0
    case SpentOnVideos => if r.kind.Payment? then r.amount else 0
    case EarnedOnVideos => if r.note.VideoSale? then r.amount else 0
  }

  ghost function Values(me: Measure, rows: map<RowId, Row>): map<nat, int> {
    map id | id in rows :: Value(me, rows[id])
  }

  ghost function Total(me: Measure, rows: map<RowId, Row>): int {
    Sum(Values(me, rows))
  }

  /** What the platform keeps of all sales; it is credited to no balance. */
  ghost function Retained(rows: map<RowId, Row>): int {
    Total(SpentOnVideos, rows) - Total(EarnedOnVideos, rows)
  }

  /** Money paid in: what the balances started with plus every approved deposit. */
  ghost function PaidIn(init: map<UserId, int>, rows: map<RowId, Row>): int {
    Sum(init) + Total(ApprovedDeposits, rows)
  }

  lemma PutRowTotal(me: Measure, rows: map<RowId, Row>, id: RowId, r: Row)
    ensures Total(me, rows[id := r])
            == Total(me, rows) - Was(me, rows, id) + Value(me, r)
  {
    assert Values(me, rows[id := r]) == Values(me, rows)[id := Value(me, r)];
    SumUpdate(Values(me, rows), id, Value(me, r));
  }

  predicate WellFormedRow(r: Row, users: set<UserId>) {
    && r.user in users
    && 0 < r.amount <= MAX_I64
    && match r.kind
       case Deposit => !r.status.Completed? && r.note.UserNote?
       case Withdrawal => !r.status.Approved? && r.note.UserNote?
       case TransferIn => r.status.Completed?
       case _ => r.status.Completed? && !r.note.VideoSale?
  }

  ghost predicate Explained(s: Store, init: map<UserId, int>) {
    && s.balances.Keys == init.Keys
    && forall u :: u in s.balances ==> s.balances[u] == init[u] + Total(OfUser(u), s.rows)
  }

  ghost predicate Conserved(s: Store, init: map<UserId, int>) {
    Sum(s.balances) + Total(HeldWithdrawals, s.rows) + Total(PaidWithdrawals, s.rows) + Retained(s.rows)
    == PaidIn(init, s.rows)
  }

  ghost predicate Sound(s: Store, init: map<UserId, int>) {
    && (forall u :: u in s.balances ==> 0 <= s.balances[u])
    && (forall id :: id in s.rows ==> WellFormedRow(s.rows[id], s.balances.Keys))
    && Explained(s, init)
    && Conserved(s, init)
    && 0 <= Retained(s.rows)
  }

  lemma TotalNonNegative(me: Measure, rows: map<RowId, Row>)
    requires !me.OfUser?
    requires forall id :: id in rows ==> 0 < rows[id].amount
    ensures 0 <= Total(me, rows)
  {
    SumNonNegative(Values(me, rows));
  }

  /** No balance, and no two balances together, exceed the money paid in. */
  lemma BalancesBounded(s: Store, init: map<UserId, int>)
    requires Sound(s, init)
    ensures Sum(s.balances) <= PaidIn(init, s.rows)
    ensures forall u :: u in s.balances ==> s.balances[u] <= PaidIn(init, s.rows)
    ensures forall u, v :: u in s.balances && v in s.balances && u != v
                           ==> s.balances[u] + s.balances[v] <= PaidIn(init, s.rows)
  {
    TotalNonNegative(HeldWithdrawals, s.rows);
    TotalNonNegative(PaidWithdrawals, s.rows);
    forall u | u in s.balances ensures s.balances[u] <= Sum(s.balances) { SumBound(s.balances, u); }
    forall u, v | u in s.balances && v in s.balances && u != v
      ensures s.balances[u] + s.balances[v] <= Sum(s.balances)
    {
      SumBounds(s.balances, u, v);
    }
  }

  // ---- one body ----

  /** Both balances of a two-sided movement, and the two rows that record it. */
  ghost predicate Moved(s: Store, t: Store, from: UserId, paid: int, to: UserId, got: int, id: RowId, id2: RowId,
                        out: Row, in_: Row) {
    && from in s.balances && to in s.balances && from != to && id != id2 && id !in s.rows && id2 !in s.rows
    && t.balances == s.balances[from := s.balances[from] - paid][to := s.balances[to] + got]
    && t.rows == s.rows[id := out][id2 := in_]
    && out.user == from && out.amount == paid && in_.user == to && in_.amount == got
    && in_.kind.TransferIn?
    && (if in_.note.VideoSale? then out.kind.Payment? else out.kind.TransferOut? && paid == got)
  }

  lemma MovedKeepsSound(s: Store, t: Store, init: map<UserId, int>, from: UserId, paid: int, to: UserId, got: int,
                        id: RowId, id2: RowId, out: Row, in_: Row)
    requires Sound(s, init) && Moved(s, t, from, paid, to, got, id, id2, out, in_)
    requires WellFormedRow(out, s.balances.Keys) && WellFormedRow(in_, s.balances.Keys)
    requires got <= paid <= s.balances[from]
    ensures Sound(t, init)
  {
    hide Total, Explained, Conserved;
    assert t.balances.Keys == s.balances.Keys;
    MovedExplained(s, t, init, from, paid, to, got, id, id2, out, in_);
    MovedConserved(s, t, init, from, paid, to, got, id, id2, out, in_);
  }

  lemma MovedExplained(s: Store, t: Store, init: map<UserId, int>, from: UserId, paid: int, to: UserId, got: int,
                       id: RowId, id2: RowId, out: Row, in_: Row)
    requires Explained(s, init) && Moved(s, t, from, paid, to, got, id, id2, out, in_)
    ensures Explained(t, init)
  {
    hide Total;
    assert t.balances.Keys == s.balances.Keys;
    forall u | u in t.balances ensures t.balances[u] == init[u] + Total(OfUser(u), t.rows) {
      PutRowTotal(OfUser(u), s.rows, id, out);
      PutRowTotal(OfUser(u), s.rows[id := out], id2, in_);
    }
  }

  lemma MovedConserved(s: Store, t: Store, init: map<UserId, int>, from: UserId, paid: int, to: UserId, got: int,
                       id: RowId, id2: RowId, out: Row, in_: Row)
    requires Conserved(s, init) && Moved(s, t, from, paid, to, got, id, id2, out, in_)
    requires !out.note.VideoSale?
    ensures Conserved(t, init)
    ensures Retained(t.rows) == Retained(s.rows) + paid - got
  {
    hide Total, Sum;
    SumUpdate(s.balances, from, s.balances[from] - paid);
    SumUpdate(s.balances[from := s.balances[from] - paid], to, s.balances[to] + got);
    PlatformTotals(s.rows, id, out);
    PlatformTotals(s.rows[id := out], id2, in_);
  }

  lemma MovedRetains(s: Store, t: Store, from: UserId, paid: int, to: UserId, got: int,
                     id: RowId, id2: RowId, out: Row, in_: Row)
    requires Moved(s, t, from, paid, to, got, id, id2, out, in_) && !out.note.VideoSale?
    ensures Retained(t.rows) == Retained(s.rows) + paid - got
  {
    hide Total, Sum;
    PlatformTotals(s.rows, id, out);
    PlatformTotals(s.rows[id := out], id2, in_);
  }

  ghost function Was(me: Measure, rows: map<RowId, Row>, id: RowId): int {
    if id in rows then Value(me, rows[id]) else 0
  }

  /** How one inserted or updated row changes the sums that are not about a single user. */
  lemma PlatformTotals(rows: map<RowId, Row>, id: RowId, r: Row)
    ensures Total(ApprovedDeposits, rows[id := r])
            == Total(ApprovedDeposits, rows) - Was(ApprovedDeposits, rows, id) + Value(ApprovedDeposits, r)
    ensures Total(HeldWithdrawals, rows[id := r])
            == Total(HeldWithdrawals, rows) - Was(HeldWithdrawals, rows, id) + Value(HeldWithdrawals, r)
    ensures Total(PaidWithdrawals, rows[id := r])
            == Total(PaidWithdrawals, rows) - Was(PaidWithdrawals, rows, id) + Value(PaidWithdrawals, r)
    ensures Total(SpentOnVideos, rows[id := r])
            == Total(SpentOnVideos, rows) - Was(SpentOnVideos, rows, id) + Value(SpentOnVideos, r)
    ensures Total(EarnedOnVideos, rows[id := r])
            == Total(EarnedOnVideos, rows) - Was(EarnedOnVideos, rows, id) + Value(EarnedOnVideos, r)
  {
    PutRowTotal(ApprovedDeposits, rows, id, r);
    PutRowTotal(HeldWithdrawals, rows, id, r);
    PutRowTotal(PaidWithdrawals, rows, id, r);
    PutRowTotal(SpentOnVideos, rows, id, r);
    PutRowTotal(EarnedOnVideos, rows, id, r);
  }

  /** One balance changes by what one new or updated row says. */
  ghost predicate Booked(s: Store, t: Store, who: UserId, change: int, id: RowId, r: Row) {
    && who in s.balances && r.user == who
    && t.balances == s.balances[who := s.balances[who] + change] && t.rows == s.rows[id := r]
    && (id in s.rows ==> s.rows[id].user == who && s.rows[id].amount == r.amount
                         && s.rows[id].kind == r.kind && s.rows[id].note == r.note)
    && change == Effect(r) - (if id in s.rows then Effect(s.rows[id]) else 0)
    && (r.kind.Deposit? || r.kind.Withdrawal?)
  }

  lemma BookedKeepsSound(s: Store, t: Store, init: map<UserId, int>, who: UserId, change: int, id: RowId, r: Row)
    requires Sound(s, init) && Booked(s, t, who, change, id, r)
    requires WellFormedRow(r, s.balances.Keys) && 0 <= s.balances[who] + change
    ensures Sound(t, init)
  {
    hide Total, Explained, Conserved;
    assert t.balances.Keys == s.balances.Keys;
    BookedExplained(s, t, init, who, change, id, r);
    BookedConserved(s, t, init, who, change, id, r);
  }

  lemma BookedExplained(s: Store, t: Store, init: map<UserId, int>, who: UserId, change: int, id: RowId, r: Row)
    requires Explained(s, init) && Booked(s, t, who, change, id, r)
    ensures Explained(t, init)
  {
    hide Total;
    assert t.balances.Keys == s.balances.Keys;
    forall u | u in t.balances ensures t.balances[u] == init[u] + Total(OfUser(u), t.rows) {
      PutRowTotal(OfUser(u), s.rows, id, r);
    }
  }

  lemma BookedConserved(s: Store, t: Store, init: map<UserId, int>, who: UserId, change: int, id: RowId, r: Row)
    requires Conserved(s, init) && Booked(s, t, who, change, id, r)
    requires WellFormedRow(r, s.balances.Keys) && (id in s.rows ==> WellFormedRow(s.rows[id], s.balances.Keys))
    ensures Conserved(t, init)
    ensures Retained(t.rows) == Retained(s.rows)
  {
    hide Total, Sum;
    SumUpdate(s.balances, who, s.balances[who] + change);
    PlatformTotals(s.rows, id, r);
  }

  lemma DoTwo(s: Store, w0: Write, w1: Write)
    ensures DoAll(s, [w0, w1]) == Do(Do(s, w0), w1)
  {
    DoAllFirst(s, w0, [w1]);
    assert [w0] + [w1] == [w0, w1];
    DoAllFirst(Do(s, w0), w1, []);
    assert [w1] + [] == [w1];
  }

  lemma DoOne(s: Store, w: Write)
    ensures DoAll(s, [w]) == Do(s, w)
  {
    assert [w][1..] == [];
  }

  lemma BookingStep(s: Store, init: map<UserId, int>, op: Op)
    requires Sound(s, init)
    requires op.DepositOp? || op.WithdrawOp? || IsAdmin(op)
    ensures Sound(Step(s, op), init)
  {
    hide Total, Sum, Explained, Conserved;
    if Writes(s, op).Some? {
      var ws := Writes(s, op).value;
      var t := Step(s, op);
      if |ws| == 1 {
        DoOne(s, ws[0]);
        assert ws == [ws[0]];
        var w := ws[0];
        assert Booked(s, t, w.row.user, 0, w.at, w.row) by {
          assert s.balances[w.row.user := s.balances[w.row.user] + 0] == s.balances;
        }
        BookedKeepsSound(s, t, init, w.row.user, 0, w.at, w.row);
      } else {
        DoTwo(s, ws[0], ws[1]);
        assert ws == [ws[0], ws[1]];
        var who, w := ws[0].who, ws[1];
        var change := ws[0].cents - s.balances[who];
        assert Booked(s, t, who, change, w.at, w.row);
        BookedKeepsSound(s, t, init, who, change, w.at, w.row);
      }
    }
  }

  lemma CutBounds(price: int, split: BasisPoints, pct: Percent)
    ensures 0 < price ==> 0 <= CreatorCut(price, split) <= price
    ensures 0 < price ==> 0 <= CommissionCents(price, pct) <= price
  {
    if 0 < price {
      assert 0 <= price * split <= price * 10_000;
      assert 0 <= price * pct <= price * 90;
    }
  }

  lemma {:induction false} TailKeepsMoney(s: Store, ws: seq<Write>)
    requires forall w :: w in ws ==> !w.SetBalance? && !w.PutRow?
    ensures DoAll(s, ws).balances == s.balances && DoAll(s, ws).rows == s.rows
    decreases |ws|
  {
    if ws != [] { TailKeepsMoney(Do(s, ws[0]), ws[1..]); }
  }

  /** The balances and rows left by the writes of a two-sided movement. */
  lemma DoMove(s: Store, ws: seq<Write>)
    requires 4 <= |ws| && ws[0].SetBalance? && ws[1].SetBalance? && ws[2].PutRow? && ws[3].PutRow?
    requires ws[0].who in s.balances && ws[1].who in s.balances
    requires forall w :: w in ws[4..] ==> !w.SetBalance? && !w.PutRow?
    ensures DoAll(s, ws).balances == s.balances[ws[0].who := ws[0].cents][ws[1].who := ws[1].cents]
    ensures DoAll(s, ws).rows == s.rows[ws[2].at := ws[2].row][ws[3].at := ws[3].row]
    ensures DoAll(s, ws) == DoAll(Do(Do(Do(Do(s, ws[0]), ws[1]), ws[2]), ws[3]), ws[4..])
  {
    assert ws[1..][1..][1..][1..] == ws[4..];
    var s1 := Do(s, ws[0]);
    var s2 := Do(s1, ws[1]);
    var s3 := Do(s2, ws[2]);
    assert DoAll(s, ws) == DoAll(s1, ws[1..]);
    assert DoAll(s1, ws[1..]) == DoAll(s2, ws[1..][1..]);
    assert DoAll(s2, ws[1..][1..]) == DoAll(s3, ws[1..][1..][1..]);
    TailKeepsMoney(Do(s3, ws[3]), ws[4..]);
  }

  ghost predicate NoOverflow(s: Store) {
    forall u, v :: u in s.balances && v in s.balances && u != v ==>
      0 <= s.balances[u] && s.balances[u] + s.balances[v] <= MAX_I64
  }

  /** Writes that take an amount from one balance, give no more than that to another, and record both sides. */
  ghost predicate MovesMoney(s: Store, ws: seq<Write>) {
    && |ws| >= 4 && ws[0].SetBalance? && ws[1].SetBalance? && ws[2].PutRow? && ws[3].PutRow?
    && (forall w :: w in ws[4..] ==> !w.SetBalance? && !w.PutRow?)
    && var from, to, out, in_ := ws[0].who, ws[1].who, ws[2].row, ws[3].row;
    && from in s.balances && to in s.balances && from != to
    && ws[2].at != ws[3].at && ws[2].at !in s.rows && ws[3].at !in s.rows
    && ws[0].cents == s.balances[from] - out.amount && ws[1].cents == s.balances[to] + in_.amount
    && out.user == from && in_.user == to && in_.kind.TransferIn? && in_.amount <= out.amount <= s.balances[from]
    && (if in_.note.VideoSale? then out.kind.Payment? else out.kind.TransferOut? && out.amount == in_.amount)
    && WellFormedRow(out, s.balances.Keys) && WellFormedRow(in_, s.balances.Keys)
  }

  lemma TransferMoves(s: Store, op: Op)
    requires op.TransferOp? && Writes(s, op).Some? && NoOverflow(s)
    ensures MovesMoney(s, Writes(s, op).value)
  {
  }

  lemma PayMoves(s: Store, op: Op)
    requires op.PayOp? && Writes(s, op).Some? && NoOverflow(s)
    ensures MovesMoney(s, Writes(s, op).value)
  {
    CutBounds(op.price, op.split, 0);
  }

  lemma CommissionMoves(s: Store, op: Op)
    requires op.CommissionOp? && Writes(s, op).Some? && NoOverflow(s)
    ensures MovesMoney(s, Writes(s, op).value)
  {
    CutBounds(op.price, 0, op.pct);
  }

  lemma MovingWritesKeepSound(s: Store, init: map<UserId, int>, ws: seq<Write>)
    requires Sound(s, init) && MovesMoney(s, ws)
    ensures Sound(DoAll(s, ws), init)
  {
    hide Total, Sum, Explained, Conserved;
    DoMove(s, ws);
    MovedKeepsSound(s, DoAll(s, ws), init, ws[0].who, ws[2].row.amount, ws[1].who, ws[3].row.amount,
                    ws[2].at, ws[3].at, ws[2].row, ws[3].row);
  }

  lemma StepKeepsSound(s: Store, init: map<UserId, int>, op: Op)
    requires Sound(s, init) && PaidIn(init, s.rows) <= MAX_I64
    ensures Sound(Step(s, op), init)
  {
    BalancesBounded(s, init);
    assert NoOverflow(s);
    hide Sound, Plan, PaidIn;
    if op.DepositOp? || op.WithdrawOp? || IsAdmin(op) {
      BookingStep(s, init, op);
    } else if Writes(s, op).Some? {
      if op.TransferOp? { TransferMoves(s, op); } else if op.PayOp? { PayMoves(s, op); }
          else { CommissionMoves(s, op); }
      MovingWritesKeepSound(s, init, Writes(s, op).value);
    }
  }

  // ---- whole runs ----

  /** Rows are only added, or moved out of `pending` with user, kind and amount kept. */
  ghost predicate CarefulPuts(rows: map<RowId, Row>, ws: seq<Write>) {
    && (forall i :: 0 <= i < |ws| && ws[i].PutRow? ==> 0 < ws[i].row.amount && Settles(rows, ws[i].at, ws[i].row))
    && (forall i, j :: 0 <= i < j < |ws| && ws[i].PutRow? && ws[j].PutRow? ==> ws[i].at != ws[j].at)
  }

  ghost predicate Settles(rows: map<RowId, Row>, id: RowId, r: Row) {
    id in rows ==>
      && rows[id].status.Pending? && !r.status.Pending?
      && rows[id].user == r.user && rows[id].kind == r.kind && rows[id].amount == r.amount
  }

  ghost predicate PositiveRows(rows: map<RowId, Row>) {
    forall id :: id in rows ==> 0 < rows[id].amount
  }

  /** Every row of `before` is still there, and is unchanged once it has left `pending`. */
  ghost predicate History(before: map<RowId, Row>, after: map<RowId, Row>) {
    forall id :: id in before ==>
      && id in after
      && (after[id] == before[id] || Settles(before, id, after[id]))
  }

  lemma WritesAreCareful(s: Store, op: Op)
    requires PositiveRows(s.rows) && Writes(s, op).Some?
    ensures CarefulPuts(s.rows, Writes(s, op).value)
  {
    if op.PayOp? { CutBounds(op.price, op.split, 0); }
    if op.CommissionOp? { CutBounds(op.price, 0, op.pct); }
  }

  lemma FirstPutGrows(s: Store, ws: seq<Write>)
    requires CarefulPuts(s.rows, ws) && PositiveRows(s.rows) && ws != []
    ensures var mid := Do(s, ws[0]);
      && History(s.rows, mid.rows) && PositiveRows(mid.rows) && CarefulPuts(mid.rows, ws[1..])
      && Total(ApprovedDeposits, s.rows) <= Total(ApprovedDeposits, mid.rows)
      && forall id :: id in s.rows && mid.rows[id] != s.rows[id] ==> forall i :: 0 < i < |ws| && ws[i].PutRow? ==>
          ws[i].at != id
  {
    hide Total;
    var w := ws[0];
    if w.PutRow? { PutRowTotal(ApprovedDeposits, s.rows, w.at, w.row); }
    assert forall i :: 0 <= i < |ws[1..]| ==> ws[1..][i] == ws[i + 1];
  }

  lemma {:induction false} CarefulPutsGrow(s: Store, ws: seq<Write>)
    requires CarefulPuts(s.rows, ws) && PositiveRows(s.rows)
    ensures History(s.rows, DoAll(s, ws).rows) && PositiveRows(DoAll(s, ws).rows)
    ensures Total(ApprovedDeposits, s.rows) <= Total(ApprovedDeposits, DoAll(s, ws).rows)
    decreases |ws|
  {
    if ws != [] {
      assert forall i :: 0 <= i < |ws[1..]| ==> ws[1..][i] == ws[i + 1];
      FirstPutGrows(s, ws);
      CarefulPutsGrow(Do(s, ws[0]), ws[1..]);
    }
  }

  lemma StepGrows(s: Store, op: Op)
    requires PositiveRows(s.rows)
    ensures History(s.rows, Step(s, op).rows) && PositiveRows(Step(s, op).rows)
    ensures Total(ApprovedDeposits, s.rows) <= Total(ApprovedDeposits, Step(s, op).rows)
  {
    if Writes(s, op).Some? {
      WritesAreCareful(s, op);
      CarefulPutsGrow(s, Writes(s, op).value);
    }
  }

  lemma {:induction false} RunGrows(s: Store, ops: seq<Op>)
    requires PositiveRows(s.rows)
    ensures History(s.rows, Run(s, ops).rows) && PositiveRows(Run(s, ops).rows)
    decreases |ops|
  {
    if ops != [] {
      var prior := ops[..|ops| - 1];
      RunGrows(s, prior);
      StepGrows(Run(s, prior), ops[|ops| - 1]);
    }
  }

  /** The state a wallet starts in: balances, and no rows yet. */
  ghost predicate Opening(s: Store) {
    s.rows == map[] && forall u :: u in s.balances ==> 0 <= s.balances[u]
  }

  /** As long as all money ever paid in fits in 64 bits, every run keeps the books sound. */
  lemma {:induction false} RunIsSound(s: Store, ops: seq<Op>)
    requires Opening(s)
    requires PaidIn(s.balances, Run(s, ops).rows) <= MAX_I64
    ensures Sound(Run(s, ops), s.balances)
    decreases |ops|
  {
    if ops == [] {
      assert forall me :: Values(me, s.rows) == map[];
    } else {
      var prior := ops[..|ops| - 1];
      RunGrows(s, prior);
      StepGrows(Run(s, prior), ops[|ops| - 1]);
      RunIsSound(s, prior);
      StepKeepsSound(Run(s, prior), s.balances, ops[|ops| - 1]);
    }
  }

  /** Each balance is its opening value plus the signed sum of that user's rows. */
  lemma LedgerExplainsBalance(s: Store, ops: seq<Op>, u: UserId)
    requires Opening(s) && u in s.balances
    requires PaidIn(s.balances, Run(s, ops).rows) <= MAX_I64
    ensures u in Run(s, ops).balances
    ensures Run(s, ops).balances[u] == s.balances[u] + Total(OfUser(u), Run(s, ops).rows)
  {
    RunIsSound(s, ops);
  }

  /** No money appears or vanishes, so every balance lies between zero and what was paid in. */
  lemma MoneyIsConserved(s: Store, ops: seq<Op>)
    requires Opening(s)
    requires PaidIn(s.balances, Run(s, ops).rows) <= MAX_I64
    ensures var t := Run(s, ops);
      && Sum(t.balances) + Total(HeldWithdrawals, t.rows) + Total(PaidWithdrawals, t.rows) + Retained(t.rows)
         == Sum(s.balances) + Total(ApprovedDeposits, t.rows)
      && 0 <= Retained(t.rows)
      && forall u :: u in t.balances ==> 0 <= t.balances[u] <= PaidIn(s.balances, t.rows)
  {
    RunIsSound(s, ops);
    BalancesBounded(Run(s, ops), s.balances);
  }

  /** A row leaves `pending` at most once: whatever runs later, a settled row stays as it is. */
  lemma SettledRowStays(s: Store, first: seq<Op>, later: seq<Op>, id: RowId)
    requires s.rows == map[]
    requires id in Run(s, first).rows && !Run(s, first).rows[id].status.Pending?
    ensures id in Run(Run(s, first), later).rows
    ensures Run(Run(s, first), later).rows[id] == Run(s, first).rows[id]
  {
    RunGrows(s, first);
    RunGrows(Run(s, first), later);
  }

  // ---- completing a payout ----

  /** The UPDATE of `admin_wallet_complete`, which does not look at the status again. */
  function BlindComplete(s: Store, id: RowId): Store {
    if id in s.rows then s.(rows := s.rows[id := s.rows[id].(status := Completed)]) else s
  }

  /**
   * That UPDATE runs some time after the status was read, without a lock. It keeps every balance explained exactly
   * when the withdrawal has not been rejected in between; otherwise it is both refunded and marked as paid out.
   */
  lemma LateCompletion(s: Store, init: map<UserId, int>, id: RowId)
    requires Sound(s, init) && id in s.rows && s.rows[id].kind.Withdrawal?
    ensures Explained(BlindComplete(s, id), init) <==> !s.rows[id].status.Rejected?
  {
    hide Total, Sum, Conserved;
    var r, t := s.rows[id].(status := Completed), BlindComplete(s, id);
    assert t.balances == s.balances && t.rows == s.rows[id := r];
    forall u | u in s.balances
      ensures Total(OfUser(u), t.rows) == Total(OfUser(u), s.rows) - Was(OfUser(u), s.rows, id) + Value(OfUser(u), r)
    {
      PutRowTotal(OfUser(u), s.rows, id, r);
    }
    assert r.user in t.balances && t.balances[r.user] == init[r.user] + Total(OfUser(r.user), s.rows);
  }

  // ---- buying a video ----

  /**
   * A committed purchase takes the price from the buyer and gives the creator the share rounded down, so the platform
   * keeps its own share rounded up; nobody else's balance changes, and the buyer gets purchase and allowlist entry.
   */
  lemma SaleSplit(s: Store, op: Op)
    requires op.PayOp? && Writes(s, op).Some? && NoOverflow(s)
    ensures var t := Step(s, op);
      && op.user in s.balances && op.owner in s.balances && t.balances.Keys == s.balances.Keys
      && t.balances[op.user] == s.balances[op.user] - op.price
      && var got := t.balances[op.owner] - s.balances[op.owner];
      && 0 < got && got * 10_000 <= op.price * op.split < (got + 1) * 10_000
      && (forall u :: u in s.balances && u != op.user && u != op.owner ==> t.balances[u] == s.balances[u])
      && t.purchases == s.purchases + {(op.user, op.video)}
      && (op.username != "" ==> t.allowlist == s.allowlist + {(op.video, op.username)})
  {
    var ws, t := Writes(s, op).value, Step(s, op);
    PayMoves(s, op);
    hide Writes, CreatorCut, Total, Sum, NoOverflow, Plan;
    DoMove(s, ws);
    hide DoAll;
    SaleGrants(Do(Do(Do(Do(s, ws[0]), ws[1]), ws[2]), ws[3]), ws[4..], op);
  }

  lemma SaleRetains(s: Store, op: Op)
    requires op.PayOp? && Writes(s, op).Some? && NoOverflow(s)
    ensures Retained(Step(s, op).rows) == Retained(s.rows) + op.price - CreatorCut(op.price, op.split)
  {
    var ws := Writes(s, op).value;
    PayMoves(s, op);
    hide Writes, CreatorCut, Total, Sum, NoOverflow, Plan;
    DoMove(s, ws);
    hide DoAll, Do;
    MovedRetains(s, DoAll(s, ws), ws[0].who, ws[2].row.amount, ws[1].who, ws[3].row.amount,
                 ws[2].at, ws[3].at, ws[2].row, ws[3].row);
  }

  lemma SaleGrants(s: Store, ws: seq<Write>, op: Op)
    requires op.PayOp? && ws == [AddPurchase(op.user, op.video), AddAllow(op.video, op.username)]
    ensures DoAll(s, ws).purchases == s.purchases + {(op.user, op.video)}
    ensures op.username != "" ==> DoAll(s, ws).allowlist == s.allowlist + {(op.video, op.username)}
  {
    DoTwo(s, ws[0], ws[1]);
  }

  /** Entitlements are never withdrawn, and only the writes that name them add any. */
  lemma {:induction false} GrantsGrow(s: Store, ws: seq<Write>)
    ensures var t := DoAll(s, ws);
      && s.purchases <= t.purchases && s.allowlist <= t.allowlist && s.commissions <= t.commissions
      && ((forall w :: w in ws ==> !w.AddPurchase? && !w.AddAllow?) ==>
            t.purchases == s.purchases && t.allowlist == s.allowlist)
      && ((forall w :: w in ws ==> !w.AddCommission?) ==> t.commissions == s.commissions)
    decreases |ws|
  {
    if ws != [] {
      assert forall w :: w in ws[1..] ==> w in ws;
      GrantsGrow(Do(s, ws[0]), ws[1..]);
    }
  }
}
