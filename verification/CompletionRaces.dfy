// Whole runs of the events of LateCompletions.

module CompletionRaces {

  // When the rows explain every balance, and a run after which they do not.

  import opened Integers
  import opened Sums
  import opened WalletStore
  import opened WalletLedger
  import opened LateCompletions
  import Effects = WalletEffects

  function Run(o: Office, es: seq<Event>): Office
    decreases |es|
  {
    if es == [] then o else Apply(Run(o, es[..|es| - 1]), es[|es| - 1])
  }

  predicate NeverSlips(o: Office, es: seq<Event>)
    decreases |es|
  {
    es == [] || (NeverSlips(o, es[..|es| - 1]) && !Slips(Run(o, es[..|es| - 1]), es[|es| - 1]))
  }

  function Credited(o: Office, es: seq<Event>): map<UserId, int>
    decreases |es|
  {
    if es == [] then o.store.balances else Credit(Credited(o, es[..|es| - 1]), Run(o, es[..|es| - 1]), es[|es| - 1])
  }

  lemma {:induction false} RunGrows(o: Office, es: seq<Event>)
    requires Opening(o.store) && o.read == multiset{}
    ensures ReadsRows(Run(o, es)) && PositiveRows(Run(o, es).store.rows)
    decreases |es|
  {
    if es != [] {
      RunGrows(o, es[..|es| - 1]);
      ApplyGrows(Run(o, es[..|es| - 1]), es[|es| - 1]);
    }
  }

  /** Every run keeps the books sound once the slips are credited, while all that money fits in 64 bits. */
  lemma {:induction false} RunIsSound(o: Office, es: seq<Event>)
    requires Opening(o.store) && o.read == multiset{}
    requires PaidIn(Credited(o, es), Run(o, es).store.rows) <= MAX_I64
    ensures Sound(Run(o, es).store, Credited(o, es))
    decreases |es|
  {
    if es == [] {
      WalletLedger.RunIsSound(o.store, []);
    } else {
      var prior, e := es[..|es| - 1], es[|es| - 1];
      var q, m := Run(o, prior), Credited(o, prior);
      RunGrows(o, prior);
      ApplyGrows(q, e);
      CreditGrows(m, q, e);
      hide Sound, Apply, Credit, ReadsRows, PositiveRows, Total, Opening, Sum;
      RunIsSound(o, prior);
      ApplyKeepsSound(q, m, e);
    }
  }

  /** The credits are zero exactly without a slip. */
  lemma {:induction false} CreditedExactly(o: Office, es: seq<Event>)
    requires Opening(o.store) && o.read == multiset{} && PaidIn(Credited(o, es), Run(o, es).store.rows) <= MAX_I64
    ensures Credited(o, es).Keys == o.store.balances.Keys && Sum(o.store.balances) <= Sum(Credited(o, es))
    ensures Credited(o, es) == o.store.balances <==> NeverSlips(o, es)
    ensures Sum(Credited(o, es)) == Sum(o.store.balances) <==> NeverSlips(o, es)
    decreases |es|
  {
    if es != [] {
      var prior, e := es[..|es| - 1], es[|es| - 1];
      var q, m := Run(o, prior), Credited(o, prior);
      RunGrows(o, prior);
      ApplyGrows(q, e);
      CreditGrows(m, q, e);
      assert PaidIn(m, q.store.rows) <= PaidIn(Credited(o, es), Run(o, es).store.rows);
      CreditedExactly(o, prior);
      RunIsSound(o, prior);
      assert Slips(q, e) ==> q.store.rows[e.id].user in m by { SlipHasUser(q, m, e); }
      hide Sound, Apply, ReadsRows, PositiveRows, Total, Opening, Sum, Slips;
    }
  }

  /**
   * Over every run, the rows explain every balance exactly when no completion updates a withdrawal that has been
   * rejected since its status was read.
   */
  lemma ExplainedExactlyWhen(o: Office, es: seq<Event>)
    requires Opening(o.store) && o.read == multiset{} && PaidIn(Credited(o, es), Run(o, es).store.rows) <= MAX_I64
    ensures Explained(Run(o, es).store, o.store.balances) <==> NeverSlips(o, es)
  {
    hide Apply, Run, Credited, NeverSlips, Opening, PaidIn, Sum;
    RunIsSound(o, es);
    CreditedExactly(o, es);
    SoundIsExplained(Run(o, es).store, Credited(o, es));
    hide Sound, Explained;
    ExplainedTwice(Run(o, es).store, Credited(o, es), o.store.balances);
  }

  lemma SoundIsExplained(s: Store, init: map<UserId, int>)
    requires Sound(s, init)
    ensures Explained(s, init)
  {
  }

  lemma ExplainedTwice(s: Store, m: map<UserId, int>, init: map<UserId, int>)
    requires Explained(s, m) && m.Keys == init.Keys
    ensures Explained(s, init) <==> m == init
  {
    hide Total;
    if Explained(s, init) {
      forall u | u in m ensures m[u] == init[u] {
        assert s.balances[u] == m[u] + Total(OfUser(u), s.rows);
      }
    }
  }

  /** A deposit, its approval, a withdrawal of it, the status read, the rejection with its refund, and the late
      update. */
  function SlippedPayout(u: UserId, amount: I64, a: RowId, b: RowId): seq<Event> {
    [Work(DepositOp(u, amount, a, 0)), Work(ApproveOp(a)), Work(WithdrawOp(u, amount, b)), ReadStatus(b),
     Work(RejectOp(b)),
     LateUpdate(b)]
  }

  lemma OneMore(o: Office, es: seq<Event>, n: nat)
    requires n < |es|
    ensures Run(o, es[..n + 1]) == Apply(Run(o, es[..n]), es[n])
    ensures NeverSlips(o, es[..n + 1]) <==> NeverSlips(o, es[..n]) && !Slips(Run(o, es[..n]), es[n])
    ensures Credited(o, es[..n + 1]) == Credit(Credited(o, es[..n]), Run(o, es[..n]), es[n])
  {
    assert es[..n + 1][..n] == es[..n];
  }

  /** A deposit and its approval: the balance, and the one row they leave. */
  lemma DepositIsCredited(s: Store, op: Op)
    requires op.DepositOp? && FreshRows(op, s.rows) && op.amount >= MIN_DEPOSIT_CENTS && op.user in s.balances
    requires s.balances[op.user] + op.amount <= MAX_I64
    ensures var t := Step(Step(s, op), ApproveOp(op.id));
      && t.balances == s.balances[op.user := s.balances[op.user] + op.amount]
      && op.id in t.rows && t.rows == s.rows[op.id := t.rows[op.id]]
      && t.rows[op.id].kind.Deposit? && t.rows[op.id].status.Approved? && t.rows[op.id].amount == op.amount
  {
    var ws := Writes(s, op).value;
    DoOne(s, ws[0]);
    assert ws == [ws[0]];
    var mid := Step(s, op);
    var more := Writes(mid, ApproveOp(op.id)).value;
    DoTwo(mid, more[0], more[1]);
    assert more == [more[0], more[1]];
  }

  /** A withdrawal and its rejection: the balance as before, and the one row they leave. */
  lemma RejectMarks(s: Store, id: RowId)
    requires id in s.rows && s.rows[id].status.Pending? && s.rows[id].kind.Withdrawal?
    requires s.rows[id].user in s.balances && s.balances[s.rows[id].user] + s.rows[id].amount <= MAX_I64
    ensures var t := Step(s, RejectOp(id));
      t.rows == s.rows[id := s.rows[id].(status := Rejected)]
  {
    var ws := Writes(s, RejectOp(id)).value;
    DoTwo(s, ws[0], ws[1]);
    assert ws == [ws[0], ws[1]];
  }

  /** The state after the deposit, its approval, the withdrawal, the status read and the rejection. */
  lemma PayoutIsRejected(s: Store, u: UserId, amount: I64, a: RowId, b: RowId) returns (t: Store)
    requires u in s.balances && a != b && s.rows == map[]
    requires MIN_WITHDRAWAL_CENTS <= amount && 0 <= s.balances[u] <= MAX_I64 - amount
    ensures var es := SlippedPayout(u, amount, a, b); Run(Office(s, multiset{}), es[..5]) == Office(t, multiset{b})
    ensures a in t.rows && b in t.rows && t.rows == map[a := t.rows[a], b := t.rows[b]]
    ensures t.rows[a].kind.Deposit? && t.rows[a].status.Approved? && t.rows[a].amount == amount
    ensures t.rows[b].kind.Withdrawal? && t.rows[b].status.Rejected? && t.rows[b].user == u
            && t.rows[b].amount == amount
  {
    var es, start := SlippedPayout(u, amount, a, b), Office(s, multiset{});
    var deposit, withdraw := DepositOp(u, amount, a, 0), WithdrawOp(u, amount, b);
    DepositIsCredited(s, deposit);
    var credited := Step(Step(s, deposit), ApproveOp(a));
    assert FreshRows(withdraw, credited.rows);
    Effects.WithdrawalEffect(credited, withdraw);
    var held := Step(credited, withdraw);
    RejectMarks(held, b);
    t := Step(held, RejectOp(b));
    hide Step, Writes, FreshRows;
    assert held.rows == credited.rows[b := held.rows[b]];
    RunFive(start, es);
    hide Run, Credited;
    assert multiset{} + multiset{b} == multiset{b};
  }

  lemma RunOne(o: Office, es: seq<Event>, n: nat, q: Office)
    requires n < |es| && Run(o, es[..n]) == q
    ensures Run(o, es[..n + 1]) == Apply(q, es[n])
  {
    assert es[..n + 1][..n] == es[..n];
  }

  lemma RunFive(o: Office, es: seq<Event>)
    requires |es| >= 5
    ensures Run(o, es[..5]) == Apply(Apply(Apply(Apply(Apply(o, es[0]), es[1]), es[2]), es[3]), es[4])
  {
    assert Run(o, es[..0]) == o;
    hide Run, Apply;
    var q1 := Apply(o, es[0]);
    RunOne(o, es, 0, o);
    var q2 := Apply(q1, es[1]);
    RunOne(o, es, 1, q1);
    var q3 := Apply(q2, es[2]);
    RunOne(o, es, 2, q2);
    var q4 := Apply(q3, es[3]);
    RunOne(o, es, 3, q3);
    RunOne(o, es, 4, q4);
  }

  lemma NoSlipsBefore(o: Office, es: seq<Event>)
    requires forall e :: e in es ==> !e.LateUpdate?
    ensures Credited(o, es) == o.store.balances
    decreases |es|
  {
  }

  lemma LastSlips(o: Office, es: seq<Event>, t: Store, b: RowId)
    requires |es| == 6 && Run(o, es[..5]) == Office(t, multiset{b}) && es[5] == LateUpdate(b)
    requires Credited(o, es[..5]) == o.store.balances
    requires b in t.rows && t.rows[b].status.Rejected? && t.rows[b].user in o.store.balances
    ensures var (u, cents) := (t.rows[b].user, t.rows[b].amount);
      && Credited(o, es) == o.store.balances[u := o.store.balances[u] + cents] && !NeverSlips(o, es)
      && Run(o, es).store.rows == t.rows[b := t.rows[b].(status := Completed)]
  {
    assert es[..6] == es;
    hide Run, Credited, NeverSlips;
    OneMore(o, es, 5);
  }

  /** It ends refunded and marked as paid out: the rows no longer explain the balance. */
  lemma SlippedPayoutHappens(s: Store, u: UserId, amount: I64, a: RowId, b: RowId)
    requires Opening(s) && u in s.balances && a != b && MIN_WITHDRAWAL_CENTS <= amount
    requires Sum(s.balances) + 2 * amount <= MAX_I64
    ensures !Explained(Run(Office(s, multiset{}), SlippedPayout(u, amount, a, b)).store, s.balances)
  {
    var start, es := Office(s, multiset{}), SlippedPayout(u, amount, a, b);
    SumBound(s.balances, u);
    var t := PayoutIsRejected(s, u, amount, a, b);
    NoSlipsBefore(start, es[..5]);
    assert es[5] == LateUpdate(b);
    LastSlips(start, es, t, b);
    hide Run, Credited, Explained, NeverSlips, Opening, Total, Sum, SlippedPayout;
    SumUpdate(s.balances, u, s.balances[u] + amount);
    var paid := t.rows[b].(status := Completed);
    DepositsOf(t.rows[a], paid, a, b);
    assert t.rows[b := paid] == map[a := t.rows[a]][b := paid];
    ExplainedExactlyWhen(start, es);
  }

  lemma DepositsOf(x: Row, y: Row, a: RowId, b: RowId)
    requires a != b && x.kind.Deposit? && x.status.Approved? && y.kind.Withdrawal?
    ensures Total(ApprovedDeposits, map[a := x][b := y]) == x.amount
  {
    var none: map<RowId, Row> := map[];
    assert Values(ApprovedDeposits, none) == map[];
    PutRowTotal(ApprovedDeposits, none, a, x);
    PutRowTotal(ApprovedDeposits, none[a := x], b, y);
    assert none[a := x] == map[a := x];
  }
}
