// What each committed wallet operation does to whom, when it commits at all, and what undoes it.

module WalletEffects {
  import opened Common
  import opened Integers
  import opened WalletStore
  import opened WalletLedger

  /** Money moves from one balance to another; everybody else keeps theirs, and old rows stay. */
  ghost predicate Shifted(s: Store, t: Store, from: UserId, to: UserId, cents: int) {
    && from in s.balances && to in s.balances && t.balances.Keys == s.balances.Keys
    && t.balances[from] == s.balances[from] - cents && t.balances[to] == s.balances[to] + cents
    && (forall u :: u in s.balances && u != from && u != to ==> t.balances[u] == s.balances[u])
    && (forall id :: id in s.rows ==> id in t.rows && t.rows[id] == s.rows[id])
    && t.purchases == s.purchases && t.allowlist == s.allowlist
  }

  /** The two balances together fit in 64 bits, as they do in every state with sound books. */
  predicate PairFits(s: Store, a: UserId, b: UserId) {
    a in s.balances && b in s.balances ==>
        0 <= s.balances[a] && 0 <= s.balances[b] && s.balances[a] + s.balances[b] <= MAX_I64
  }

  /** A transfer commits exactly for a sufficient balance, another existing user and at least $1; then that much
      moves. */
  lemma TransferEffect(s: Store, op: Op)
    requires op.TransferOp? && FreshRows(op, s.rows) && PairFits(s, op.user, op.to)
    ensures Writes(s, op).Some? <==>
      && op.amount >= MIN_TRANSFER_CENTS && op.to != op.user && op.to in s.balances
      && op.user in s.balances && s.balances[op.user] >= op.amount
    ensures Writes(s, op).Some? ==> Shifted(s, Step(s, op), op.user, op.to, op.amount)
    ensures Writes(s, op).Some? ==> Step(s, op).rows.Keys == s.rows.Keys + {op.id, op.id2}
    ensures Writes(s, op).Some? ==> Step(s, op).commissions == s.commissions
  {
    if Writes(s, op).Some? {
      var ws := Writes(s, op).value;
      DoMove(s, ws);
      assert ws[4..] == [];
    }
  }

  /** A commission commits exactly for an enabled program, an existing third party as affiliate, and an owner who
      can pay. */
  lemma CommissionCommitsExactlyWhen(s: Store, op: Op)
    requires op.CommissionOp? && FreshRows(op, s.rows)
    ensures Writes(s, op).Some? <==>
      && op.enabled && op.price * op.pct >= 100 && op.affiliate != op.user && op.affiliate != op.owner
      && op.affiliate in s.balances && CommissionCents(op.price, op.pct) <= Lookup(s.balances, op.owner).GetOr(0)
  {
    if op.price > 0 { CutBounds(op.price, 0, op.pct); } else { assert op.price * op.pct <= 0; }
  }

  /** A commission moves the percentage, rounded down, from owner to affiliate and adds one audit row that says so. */
  lemma CommissionEffect(s: Store, op: Op)
    requires op.CommissionOp? && Writes(s, op).Some? && PairFits(s, op.owner, op.affiliate)
    ensures var (t, n) := (Step(s, op), |s.commissions|);
      && |t.commissions| == n + 1 && t.commissions[..n] == s.commissions
      && t.rows.Keys == s.rows.Keys + {op.id, op.id2}
      && var c := t.commissions[n];
      && Shifted(s, t, op.owner, op.affiliate, c.cents)
      && 0 < c.cents && c.cents * 100 <= op.price * op.pct < (c.cents + 1) * 100
      && c.affiliate == op.affiliate && c.owner == op.owner && c.buyer == op.user
      && c.video == op.video && c.invoice == op.invoice
      && op.affiliate != op.user && op.affiliate != op.owner
  {
    var ws := Writes(s, op).value;
    CutBounds(op.price, 0, op.pct);
    DoMove(s, ws);
    var mid := Do(Do(Do(Do(s, ws[0]), ws[1]), ws[2]), ws[3]);
    assert ws[4..] == [ws[4]];
    DoOne(mid, ws[4]);
  }

  /** A purchase commits exactly for a buyer who can pay and is not blocked, and another existing creator whose
      share is a cent or more. */
  lemma SaleCommitsExactlyWhen(s: Store, op: Op)
    requires op.PayOp? && FreshRows(op, s.rows)
    ensures Writes(s, op).Some? <==>
      && op.price > 0 && op.owner != op.user && op.owner in s.balances && !op.blocked
      && op.price <= Lookup(s.balances, op.user).GetOr(0) && op.price * op.split >= 10_000
  {
    if op.price > 0 { CutBounds(op.price, op.split, 0); }
    hide CreatorCut;
  }

  /** A withdrawal commits exactly within the balance and from $50 on; the money leaves the balance at once. */
  lemma WithdrawalEffect(s: Store, op: Op)
    requires op.WithdrawOp? && FreshRows(op, s.rows)
    ensures Writes(s, op).Some? <==>
      op.amount >= MIN_WITHDRAWAL_CENTS && op.user in s.balances && s.balances[op.user] >= op.amount
    ensures Writes(s, op).Some? ==>
      var t := Step(s, op);
      && t.balances == s.balances[op.user := s.balances[op.user] - op.amount]
      && op.id in t.rows && t.rows[op.id].status.Pending? && t.rows[op.id].kind.Withdrawal?
      && t.rows[op.id].user == op.user && t.rows[op.id].amount == op.amount
      && t.rows - {op.id} == s.rows
  {
    if Writes(s, op).Some? {
      var ws := Writes(s, op).value;
      DoTwo(s, ws[0], ws[1]);
      assert ws == [ws[0], ws[1]];
    }
  }

  /** Rejecting a withdrawal undoes it: every balance is what it was before the request. */
  lemma RejectUndoesWithdrawal(s: Store, op: Op)
    requires op.WithdrawOp? && Writes(s, op).Some? && s.balances[op.user] <= MAX_I64
    ensures var t := Step(Step(s, op), RejectOp(op.id));
      t.balances == s.balances && op.id in t.rows && t.rows[op.id].status.Rejected? && t.rows - {op.id} == s.rows
  {
    WithdrawalEffect(s, op);
    var mid, reject := Step(s, op), RejectOp(op.id);
    assert Writes(mid, reject).Some?;
    var ws := Writes(mid, reject).value;
    assert ws == [ws[0], ws[1]];
    hide Step, Writes, Plan;
    SettledByTwo(mid, reject, ws);
  }

  lemma SettledByTwo(s: Store, op: Op, ws: seq<Write>)
    requires Writes(s, op) == Some(ws) && |ws| == 2
    ensures Step(s, op) == Do(Do(s, ws[0]), ws[1])
  {
    DoTwo(s, ws[0], ws[1]);
    assert ws == [ws[0], ws[1]];
  }

  /** A deposit request moves no money; its approval credits exactly the requested amount to the one who asked. */
  lemma ApprovalCreditsDeposit(s: Store, op: Op)
    requires op.DepositOp? && Writes(s, op).Some?
    ensures op.amount >= MIN_DEPOSIT_CENTS && Step(s, op).balances == s.balances
    ensures var (mid, t) := (Step(s, op), Step(Step(s, op), ApproveOp(op.id)));
      if s.balances[op.user] + op.amount <= MAX_I64
      then t.balances == s.balances[op.user := s.balances[op.user] + op.amount]
           && op.id in t.rows && t.rows[op.id].status.Approved?
      else t == mid
  {
    var ws := Writes(s, op).value;
    DoOne(s, ws[0]);
    assert ws == [ws[0]];
    var mid, approve := Step(s, op), ApproveOp(op.id);
    if Writes(mid, approve).Some? { SettledByTwo(mid, approve, Writes(mid, approve).value); }
  }

  /** Sending the same amount back restores every balance. */
  lemma TransferBack(s: Store, op: Op, back: Op)
    requires op.TransferOp? && Writes(s, op).Some? && PairFits(s, op.user, op.to)
    requires back.TransferOp? && back.user == op.to && back.to == op.user && back.amount == op.amount
    requires FreshRows(back, Step(s, op).rows)
    ensures Writes(Step(s, op), back).Some? && Step(Step(s, op), back).balances == s.balances
  {
    TransferEffect(s, op);
    TransferEffect(Step(s, op), back);
  }

  lemma SoundPairsFit(s: Store, init: map<UserId, int>, a: UserId, b: UserId)
    requires Sound(s, init) && PaidIn(init, s.rows) <= MAX_I64 && a != b
    ensures PairFits(s, a, b)
  {
    BalancesBounded(s, init);
  }

  /** So in every reachable state a committed transfer moves exactly its amount, and sending it back restores every
      balance. */
  lemma TransferInEveryRun(s: Store, ops: seq<Op>, op: Op, back: Op)
    requires Opening(s) && PaidIn(s.balances, Run(s, ops).rows) <= MAX_I64
    requires op.TransferOp? && Writes(Run(s, ops), op).Some?
    requires back.TransferOp? && back.user == op.to && back.to == op.user && back.amount == op.amount
    requires FreshRows(back, Step(Run(s, ops), op).rows)
    ensures var (t, u) := (Run(s, ops), Step(Run(s, ops), op));
      Shifted(t, u, op.user, op.to, op.amount) && Writes(u, back).Some? && Step(u, back).balances == t.balances
  {
    RunIsSound(s, ops);
    var t := Run(s, ops);
    assert op.to != op.user;
    SoundPairsFit(t, s.balances, op.user, op.to);
    hide Step, Shifted, Sound, PaidIn, PairFits;
    TransferEffect(t, op);
    TransferBack(t, op, back);
  }
}
