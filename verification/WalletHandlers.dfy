// The wallet handlers as methods over the tables they change.

module WalletHandlers {

  // Each runs one transaction: it works on its own copies and either stores all of them or, when a check fails or the
  // database refuses, none.

  import opened Common
  import opened Integers
  import opened WalletStore
  import opened WalletLedger

  /** A handler call: buying checks for an earlier purchase before it opens its transaction. */
  function Handle(s: Store, op: Op): Store {
    if op.PayOp? && (op.user, op.video) in s.purchases then s else Step(s, op)
  }

  function HandleAll(s: Store, ops: seq<Op>): Store
    decreases |ops|
  {
    if ops == [] then s else Handle(HandleAll(s, ops[..|ops| - 1]), ops[|ops| - 1])
  }

  predicate Handled(s: Store, op: Op) {
    !(op.PayOp? && (op.user, op.video) in s.purchases) && Writes(s, op).Some?
  }

  /** The writes of a purchase, carried out. */
  lemma PayWrites(s: Store, op: Op)
    requires op.PayOp? && Writes(s, op).Some?
    ensures var ws := Writes(s, op).value;
      |ws| == 6 && Step(s, op) == Do(Do(Do(Do(Do(Do(s, ws[0]), ws[1]), ws[2]), ws[3]), ws[4]), ws[5])
  {
    CutBounds(op.price, op.split, 0);
    var ws := Writes(s, op).value;
    DoMove(s, ws);
    assert ws[4..] == [ws[4], ws[5]];
    DoTwo(Do(Do(Do(Do(s, ws[0]), ws[1]), ws[2]), ws[3]), ws[4], ws[5]);
  }

  /** The writes of a commission, carried out. */
  lemma CommissionWrites(s: Store, op: Op)
    requires op.CommissionOp? && Writes(s, op).Some?
    ensures var ws := Writes(s, op).value;
      |ws| == 5 && Step(s, op) == Do(Do(Do(Do(Do(s, ws[0]), ws[1]), ws[2]), ws[3]), ws[4])
  {
    CutBounds(op.price, 0, op.pct);
    var ws := Writes(s, op).value;
    DoMove(s, ws);
    assert ws[4..] == [ws[4]];
    DoOne(Do(Do(Do(Do(s, ws[0]), ws[1]), ws[2]), ws[3]), ws[4]);
  }

  /** Exactly when a purchase that was not made before goes through. */
  lemma PayGoes(s: Store, op: Op)
    requires op.PayOp? && FreshRows(op, s.rows)
    ensures Writes(s, op).Some? <==>
      && op.owner != op.user && op.price > 0 && !op.blocked && op.user in s.balances
      && s.balances[op.user] >= op.price && op.owner in s.balances && op.price * op.split / 10_000 != 0
  {
  }

  lemma PayStores(s: Store, op: Op)
    requires op.PayOp? && Writes(s, op).Some?
    ensures op.user in s.balances && op.owner in s.balances
    ensures var cut := op.price * op.split / 10_000;
      var (left, gained) := (s.balances[op.user] - op.price, Wrap64(s.balances[op.owner] + cut));
      Step(s, op) == s.(
        balances := s.balances[op.user := left][op.owner := gained],
        rows := s.rows[op.id := Row(op.user, Payment, op.price, left, Completed, Some(op.owner),
                                    VideoPurchase(op.video))]
                      [op.id2 := Row(op.owner, TransferIn, cut, gained, Completed, Some(op.user), VideoSale(op.video))],
        purchases := s.purchases + {(op.user, op.video)},
        allowlist := s.allowlist + if op.username == "" then {} else {(op.video, op.username)})
  {
    PayWrites(s, op);
    hide Step, DoAll;
  }

  lemma CommissionGoes(s: Store, op: Op)
    requires op.CommissionOp? && FreshRows(op, s.rows)
    ensures Writes(s, op).Some? <==>
      && op.enabled && op.affiliate != op.user && op.affiliate != op.owner && op.affiliate in s.balances
      && op.price > 0 && op.price * op.pct / 100 != 0
      && op.owner in s.balances && s.balances[op.owner] >= op.price * op.pct / 100
  {
    if op.price > 0 { CutBounds(op.price, 0, op.pct); }
  }

  lemma CommissionStores(s: Store, op: Op)
    requires op.CommissionOp? && Writes(s, op).Some?
    ensures op.owner in s.balances && op.affiliate in s.balances
    ensures var cents := CommissionCents(op.price, op.pct);
      var (left, gained) := (s.balances[op.owner] - cents, Wrap64(s.balances[op.affiliate] + cents));
      Step(s, op) == s.(
        balances := s.balances[op.owner := left][op.affiliate := gained],
        rows := s.rows[op.id := Row(op.owner, TransferOut, cents, left, Completed, Some(op.affiliate),
                                    CommissionPaid(op.video))]
                      [op.id2 := Row(op.affiliate, TransferIn, cents, gained, Completed, Some(op.owner),
                                     CommissionEarned(op.video))],
        commissions := s.commissions + [CommissionRow(op.video, op.affiliate, op.user, op.owner, op.price, cents,
                                                      op.invoice)])
  {
    CommissionWrites(s, op);
    hide Step, DoAll;
  }

  class Wallet {
    var balances: map<UserId, int>
    var rows: map<RowId, Row>
    var purchases: set<(UserId, VideoId)>
    var allowlist: set<(VideoId, string)>
    var commissions: seq<CommissionRow>

    function State(): Store
      reads this
    {
      Store(balances, rows, purchases, allowlist, commissions)
    }

    constructor (opening: map<UserId, int>)
      ensures State() == Store(opening, map[], {}, {}, [])
    {
      balances, rows, purchases, allowlist, commissions := opening, map[], {}, {}, [];
    }

    /** `id` is the next value of the row sequence; `seen` is the balance read just before the insert. */
    method Deposit(user: UserId, amount: I64, seen: I64, id: RowId, dbOk: bool) returns (ok: bool)
      requires id !in rows
      modifies this
      ensures State() == if dbOk then Handle(old(State()), DepositOp(user, amount, id, seen)) else old(State())
      ensures ok == (dbOk && Handled(old(State()), DepositOp(user, amount, id, seen)))
      ensures ok <==> dbOk && amount >= 1_000 && user in old(balances)
      ensures !ok ==> State() == old(State())
      ensures ok ==> State() == old(State()).(
                rows := old(rows)[id := Row(user, Kind.Deposit, amount, seen, Pending, None, UserNote)])
    {
      if amount < MIN_DEPOSIT_CENTS || user !in balances || !dbOk { return false; }
      ghost var op := DepositOp(user, amount, id, seen);
      DoOne(State(), Writes(State(), op).value[0]);
      assert Writes(State(), op).value == [Writes(State(), op).value[0]];
      rows := rows[id := Row(user, Kind.Deposit, amount, seen, Pending, None, UserNote)];
      ok := true;
    }

    /** The result of the commit is discarded: the answer is a success once the statements before it have succeeded. */
    method Withdraw(user: UserId, amount: I64, id: RowId, dbOk: bool, committed: bool) returns (ok: bool)
      requires id !in rows
      modifies this
      ensures State() == if dbOk && committed then Handle(old(State()), WithdrawOp(user, amount, id)) else old(State())
      ensures ok == (dbOk && Handled(old(State()), WithdrawOp(user, amount, id)))
      ensures ok <==> dbOk && amount >= 5_000 && user in old(balances) && old(balances)[user] >= amount
      ensures !(ok && committed) ==> State() == old(State())
      ensures ok && committed ==>
                var left := old(balances)[user] - amount;
                State() == old(State()).(
                  balances := old(balances)[user := left],
                  rows := old(rows)[id := Row(user, Withdrawal, amount, left, Pending, None, UserNote)])
    {
      if amount < MIN_WITHDRAWAL_CENTS || user !in balances { return false; }
      var balance := balances[user];
      if balance < amount || !dbOk { return false; }
      var left := balance - amount;
      ghost var ws := Writes(State(), WithdrawOp(user, amount, id)).value;
      DoTwo(State(), ws[0], ws[1]);
      if committed {
        balances := balances[user := left];
        rows := rows[id := Row(user, Withdrawal, amount, left, Pending, None, UserNote)];
      }
      ok := true;
    }

    method Transfer(user: UserId, to: UserId, amount: I64, id: RowId, id2: RowId, dbOk: bool) returns (ok: bool)
      requires id !in rows && id2 !in rows && id != id2
      modifies this
      ensures State() == if dbOk then Handle(old(State()), TransferOp(user, to, amount, id, id2)) else old(State())
      ensures ok == (dbOk && Handled(old(State()), TransferOp(user, to, amount, id, id2)))
      ensures ok <==> dbOk && amount >= 100 && to != user && to in old(balances)
                      && user in old(balances) && old(balances)[user] >= amount
      ensures !ok ==> State() == old(State())
      ensures ok ==>
                var (left, gained) := (old(balances)[user] - amount, Wrap64(old(balances)[to] + amount));
                State() == old(State()).(
                  balances := old(balances)[user := left][to := gained],
                  rows := old(rows)[id := Row(user, TransferOut, amount, left, Completed, Some(to), UserNote)]
                                   [id2 := Row(to, TransferIn, amount, gained, Completed, Some(user), UserNote)])
    {
      if amount < MIN_TRANSFER_CENTS || to == user { return false; }
      var senderBalance := if user in balances then balances[user] else 0;
      if senderBalance < amount { return false; }
      if to !in balances || !dbOk { return false; }
      var left, gained := senderBalance - amount, Wrap64(balances[to] + amount);
      ghost var op := TransferOp(user, to, amount, id, id2);
      DoMove(State(), Writes(State(), op).value);
      assert Writes(State(), op).value[4..] == [];
      balances := balances[user := left][to := gained];
      rows := rows[id := Row(user, TransferOut, amount, left, Completed, Some(to), UserNote)]
                  [id2 := Row(to, TransferIn, amount, gained, Completed, Some(user), UserNote)];
      ok := true;
    }

    method PayVideo(user: UserId, owner: UserId, video: VideoId, price: I64, split: BasisPoints, blocked: bool,
                    username: string, id: RowId, id2: RowId, dbOk: bool) returns (ok: bool)
      requires id !in rows && id2 !in rows && id != id2
      modifies this
      ensures var op := PayOp(user, owner, video, price, split, blocked, username, id, id2);
        && State() == (if dbOk then Handle(old(State()), op) else old(State()))
        && ok == (dbOk && Handled(old(State()), op))
      ensures ok <==> dbOk && owner != user && price > 0 && (user, video) !in old(purchases) && !blocked
                      && user in old(balances) && old(balances)[user] >= price && owner in old(balances)
                      && price * split / 10_000 != 0
      ensures !ok ==> State() == old(State())
      ensures ok ==>
                var cut := price * split / 10_000;
                var (left, gained) := (old(balances)[user] - price, Wrap64(old(balances)[owner] + cut));
                State() == old(State()).(
                  balances := old(balances)[user := left][owner := gained],
                  rows := old(rows)[id := Row(user, Payment, price, left, Completed, Some(owner), VideoPurchase(video))]
                                   [id2 := Row(owner, TransferIn, cut, gained, Completed, Some(user),
                                               VideoSale(video))],
                  purchases := old(purchases) + {(user, video)},
                  allowlist := old(allowlist) + if username == "" then {} else {(video, username)})
    {
      ghost var s, op := State(), PayOp(user, owner, video, price, split, blocked, username, id, id2);
      PayGoes(s, op);
      if Writes(s, op).Some? { PayStores(s, op); }
      hide Writes, Step;
      if owner == user || price <= 0 || (user, video) in purchases { return false; }
      var cut := price * split / 10_000;
      var buyerBalance := if user in balances then balances[user] else 0;
      if buyerBalance < price { return false; }
      if owner !in balances || cut == 0 || blocked || !dbOk { return false; }
      var left, gained := buyerBalance - price, Wrap64(balances[owner] + cut);
      balances := balances[user := left][owner := gained];
      rows := rows[id := Row(user, Payment, price, left, Completed, Some(owner), VideoPurchase(video))]
                  [id2 := Row(owner, TransferIn, cut, gained, Completed, Some(user), VideoSale(video))];
      purchases := purchases + {(user, video)};
      if username != "" { allowlist := allowlist + {(video, username)}; }
      ok := true;
    }

    /** Best effort: a commission that cannot be paid is skipped. */
    method PayCommission(video: VideoId, buyer: UserId, owner: UserId, affiliate: UserId, price: I64, enabled: bool,
                         pct: Percent, invoice: Option<nat>, id: RowId, id2: RowId, dbOk: bool) returns (paid: int)
      requires id !in rows && id2 !in rows && id != id2
      modifies this
      ensures var op := CommissionOp(video, buyer, owner, affiliate, price, enabled, pct, invoice, id, id2);
        && State() == (if dbOk then Handle(old(State()), op) else old(State()))
        && paid == if dbOk && Handled(old(State()), op) then CommissionCents(price, pct) else 0
      ensures paid != 0 <==> dbOk && enabled && affiliate != buyer && affiliate != owner && affiliate in old(balances)
                             && price > 0 && price * pct / 100 != 0
                             && owner in old(balances) && old(balances)[owner] >= price * pct / 100
      ensures paid == 0 ==> State() == old(State())
      ensures paid != 0 ==>
                var (left, gained) := (old(balances)[owner] - paid, Wrap64(old(balances)[affiliate] + paid));
                && paid == price * pct / 100
                && State() == old(State()).(
                  balances := old(balances)[owner := left][affiliate := gained],
                  rows := old(rows)
                    [id := Row(owner, TransferOut, paid, left, Completed, Some(affiliate), CommissionPaid(video))]
                    [id2 := Row(affiliate, TransferIn, paid, gained, Completed, Some(owner), CommissionEarned(video))],
                  commissions := old(commissions)
                                 + [CommissionRow(video, affiliate, buyer, owner, price, paid, invoice)])
    {
      ghost var s, op := State(), CommissionOp(video, buyer, owner, affiliate, price, enabled, pct, invoice, id, id2);
      CommissionGoes(s, op);
      if Writes(s, op).Some? { CommissionStores(s, op); }
      hide Writes, Step;
      paid := 0;
      if !enabled || pct <= 0 || affiliate == buyer || affiliate == owner { return; }
      var cents := CommissionCents(price, pct);
      if cents == 0 { return; }
      var ownerBalance := if owner in balances then balances[owner] else 0;
      if ownerBalance < cents || affiliate !in balances || !dbOk { return; }
      var left, gained := ownerBalance - cents, Wrap64(balances[affiliate] + cents);
      balances := balances[owner := left][affiliate := gained];
      rows := rows[id := Row(owner, TransferOut, cents, left, Completed, Some(affiliate), CommissionPaid(video))]
                  [id2 := Row(affiliate, TransferIn, cents, gained, Completed, Some(owner), CommissionEarned(video))];
      commissions := commissions + [CommissionRow(video, affiliate, buyer, owner, price, cents, invoice)];
      paid := cents;
    }

    method Approve(id: RowId, dbOk: bool) returns (ok: bool)
      modifies this
      ensures State() == if dbOk then Handle(old(State()), ApproveOp(id)) else old(State())
      ensures ok == (dbOk && Handled(old(State()), ApproveOp(id)))
      ensures ok <==> dbOk && id in old(rows) && old(rows)[id].status.Pending? && old(rows)[id].kind.Deposit?
                      && old(rows)[id].user in old(balances)
                      && old(balances)[old(rows)[id].user] + old(rows)[id].amount <= MAX_I64
      ensures !ok ==> State() == old(State())
      ensures ok ==>
                var row := old(rows)[id];
                var total := old(balances)[row.user] + row.amount;
                State() == old(State()).(
                  balances := old(balances)[row.user := total],
                  rows := old(rows)[id := row.(status := Approved, balanceAfter := total)])
    {
      if id !in rows { return false; }
      var row := rows[id];
      if !row.status.Pending? || !row.kind.Deposit? || row.user !in balances { return false; }
      var total := balances[row.user] + row.amount;
      if total > MAX_I64 || !dbOk { return false; }
      ghost var ws := Writes(State(), ApproveOp(id)).value;
      DoTwo(State(), ws[0], ws[1]);
      balances := balances[row.user := total];
      rows := rows[id := row.(status := Approved, balanceAfter := total)];
      ok := true;
    }

    /**
     * What admin_wallet_complete reads, without a lock: whether completing would succeed at this moment. If so, its
     * update would, at this moment, be that completion.
     */
    method MayComplete(id: RowId) returns (pending: bool)
      ensures pending <==> Handled(State(), CompleteOp(id))
      ensures pending ==> id in rows && BlindComplete(State(), id) == Step(State(), CompleteOp(id))
      ensures pending <==> id in rows && rows[id].status.Pending? && rows[id].kind.Withdrawal?
    {
      pending := id in rows && rows[id].status.Pending? && rows[id].kind.Withdrawal?;
      if pending { DoOne(State(), PutRow(id, rows[id].(status := Completed))); }
    }

    /** What it writes some time later, whatever the status has become. */
    method MarkCompleted(id: RowId, dbOk: bool) returns (ok: bool)
      modifies this
      ensures State() == if dbOk then BlindComplete(old(State()), id) else old(State())
      ensures ok == dbOk
      ensures State() == if dbOk && id in old(rows)
                         then old(State()).(rows := old(rows)[id := old(rows)[id].(status := Completed)])
                         else old(State())
    {
      if dbOk && id in rows { rows := rows[id := rows[id].(status := Completed)]; }
      ok := dbOk;
    }

    /** Both, with nothing in between. */
    method Complete(id: RowId, dbOk: bool) returns (ok: bool)
      modifies this
      ensures State() == if dbOk then Handle(old(State()), CompleteOp(id)) else old(State())
      ensures ok == (dbOk && Handled(old(State()), CompleteOp(id)))
      ensures ok <==> dbOk && id in old(rows) && old(rows)[id].status.Pending? && old(rows)[id].kind.Withdrawal?
      ensures !ok ==> State() == old(State())
      ensures ok ==> State() == old(State()).(rows := old(rows)[id := old(rows)[id].(status := Completed)])
    {
      var pending := MayComplete(id);
      if !pending { return false; }
      ok := MarkCompleted(id, dbOk);
    }

    method Reject(id: RowId, dbOk: bool) returns (ok: bool)
      modifies this
      ensures State() == if dbOk then Handle(old(State()), RejectOp(id)) else old(State())
      ensures ok == (dbOk && Handled(old(State()), RejectOp(id)))
      ensures ok <==> dbOk && id in old(rows) && old(rows)[id].status.Pending?
                      && (old(rows)[id].kind.Withdrawal? && old(rows)[id].user in old(balances) ==>
                            old(balances)[old(rows)[id].user] + old(rows)[id].amount <= MAX_I64)
      ensures !ok ==> State() == old(State())
      ensures ok ==>
                var row := old(rows)[id];
                State() == old(State()).(
                  balances := if row.kind.Withdrawal? && row.user in old(balances)
                              then old(balances)[row.user := old(balances)[row.user] + row.amount] else old(balances),
                  rows := old(rows)[id := row.(status := Rejected)])
    {
      if id !in rows { return false; }
      var row := rows[id];
      if !row.status.Pending? || !dbOk { return false; }
      var mark := row.(status := Rejected);
      DoOne(State(), PutRow(id, mark));
      if row.kind.Withdrawal? && row.user in balances {
        var total := balances[row.user] + row.amount;
        if total > MAX_I64 { return false; }
        DoTwo(State(), SetBalance(row.user, total), PutRow(id, mark));
        balances := balances[row.user := total];
      }
      rows := rows[id := mark];
      ok := true;
    }
  }

  // ---- one charge per buyer and video ----

  ghost predicate IsCharge(r: Row, user: UserId, video: VideoId) {
    r.note == VideoPurchase(video) && r.user == user
  }

  ghost predicate ChargesBought(s: Store) {
    forall id, user: UserId, video: VideoId ::
      id in s.rows && IsCharge(s.rows[id], user, video) ==> (user, video) in s.purchases
  }

  ghost predicate ChargesUnique(s: Store) {
    forall i, j, user: UserId, video: VideoId ::
      i in s.rows && j in s.rows && IsCharge(s.rows[i], user, video) && IsCharge(s.rows[j], user, video) ==> i == j
  }

  ghost predicate ChargedOnce(s: Store) {
    ChargesBought(s) && ChargesUnique(s)
  }

  ghost predicate HasCharge(s: Store, user: UserId, video: VideoId) {
    exists id :: id in s.rows && IsCharge(s.rows[id], user, video)
  }

  /** Only a purchase writes a charge; every other body adds rows with other notes, or keeps the note of a row. */
  lemma StepKeepsCharges(s: Store, op: Op)
    requires !op.PayOp? && Writes(s, op).Some? && ChargedOnce(s)
    ensures ChargedOnce(Step(s, op))
  {
    var ws := Writes(s, op).value;
    if op.TransferOp? || op.CommissionOp? {
      MoveKeepsCharges(s, op);
    } else if |ws| == 1 {
      DoOne(s, ws[0]);
      assert ws == [ws[0]];
    } else {
      DoTwo(s, ws[0], ws[1]);
      assert ws == [ws[0], ws[1]];
    }
  }

  lemma MoveKeepsCharges(s: Store, op: Op)
    requires (op.TransferOp? || op.CommissionOp?) && Writes(s, op).Some? && ChargedOnce(s)
    ensures ChargedOnce(Step(s, op))
  {
    var ws := Writes(s, op).value;
    if op.CommissionOp? { CutBounds(op.price, 0, op.pct); }
    DoMove(s, ws);
    GrantsGrow(s, ws);
  }

  lemma SaleKeepsCharges(s: Store, op: Op)
    requires op.PayOp? && Writes(s, op).Some? && ChargedOnce(s) && (op.user, op.video) !in s.purchases
    ensures ChargedOnce(Step(s, op))
  {
    var ws := Writes(s, op).value;
    DoMove(s, ws);
    assert ws[4..] == [ws[4], ws[5]];
    DoTwo(Do(Do(Do(Do(s, ws[0]), ws[1]), ws[2]), ws[3]), ws[4], ws[5]);
  }

  /** In every run of whole handlers a buyer is charged for a video at most once. */
  lemma {:induction false} OneChargePerVideo(s: Store, ops: seq<Op>)
    requires s.rows == map[]
    ensures ChargedOnce(HandleAll(s, ops))
    decreases |ops|
  {
    if ops != [] {
      var prior, op := HandleAll(s, ops[..|ops| - 1]), ops[|ops| - 1];
      OneChargePerVideo(s, ops[..|ops| - 1]);
      if Handled(prior, op) {
        if op.PayOp? { SaleKeepsCharges(prior, op); } else { StepKeepsCharges(prior, op); }
      }
    }
  }

  /**
   * The check for an earlier purchase runs before the transaction. A body that got past it, however long ago, keeps
   * one charge per buyer and video exactly when this buyer has not been charged for the video by the time the body
   * commits.
   */
  lemma LatePurchaseCheck(s: Store, op: Op)
    requires op.PayOp? && Writes(s, op).Some? && ChargesUnique(s)
    ensures ChargesUnique(Step(s, op)) <==> !HasCharge(s, op.user, op.video)
    ensures HasCharge(Step(s, op), op.user, op.video)
  {
    SaleRows(s, op);
    hide Step, Writes;
    var t := Step(s, op);
    assert IsCharge(t.rows[op.id], op.user, op.video);
    if HasCharge(s, op.user, op.video) {
      var i :| i in s.rows && IsCharge(s.rows[i], op.user, op.video);
      assert i in t.rows && IsCharge(t.rows[i], op.user, op.video) && i != op.id;
    }
  }

  /** The two rows a purchase adds: one charge to the buyer, and one that is no charge. */
  lemma SaleRows(s: Store, op: Op)
    requires op.PayOp? && Writes(s, op).Some?
    ensures var t := Step(s, op);
      && op.id !in s.rows && op.id2 !in s.rows && op.id != op.id2
      && t.rows.Keys == s.rows.Keys + {op.id, op.id2} && (forall id :: id in s.rows ==> t.rows[id] == s.rows[id])
      && t.rows[op.id].note == VideoPurchase(op.video) && t.rows[op.id].user == op.user
          && !t.rows[op.id2].note.VideoPurchase?
      && (op.user, op.video) in t.purchases && s.purchases <= t.purchases
  {
    PayWrites(s, op);
  }
}
