// How interleaved transactions end.

module WalletOutcomes {

  // A transaction that is not interrupted ends, and it ends committed exactly when its body, executed alone at that
  // moment, goes through.

  import opened Common
  import opened Integers
  import opened Sums
  import opened WalletStore
  import opened WalletTx

  // ---- the last statement ----

  /** What a transaction has read when it gives up is what makes its body roll back. */
  lemma RejectedRowRollsBack(s: Store, op: Op)
    requires IsAdmin(op) && (op.id !in s.rows || !RowAccepted(op, s.rows[op.id]))
    ensures Writes(s, op).None?
  {
  }

  lemma LockingEnds(y: Sys, t: Tid)
    requires Unfinished(y, t) && y.txs[t].pc.Locking? && Next(y, t).Some?
    requires TxOk(y.store, y.locks, t, y.txs[t])
    ensures t in Next(y, t).value.txs
    ensures Next(y, t).value.txs[t].pc.Done? ==>
              !Next(y, t).value.txs[t].pc.committed && Writes(y.store, y.txs[t].op).None?
  {
    var tx := y.txs[t];
    if tx.pc.k < |Locks(tx.op, tx.row)| && Locks(tx.op, tx.row)[tx.pc.k].RowLock? {
      assert IsAdmin(tx.op) && Locks(tx.op, tx.row)[tx.pc.k] == RowLock(tx.op.id);
      if tx.op.id !in y.store.rows || !RowAccepted(tx.op, y.store.rows[tx.op.id]) {
        RejectedRowRollsBack(y.store, tx.op);
      }
    }
    hide Plan, Writes, TxOk, RowAccepted, Locks;
  }

  lemma ReadingEnds(y: Sys, t: Tid)
    requires Unfinished(y, t) && (y.txs[t].pc.ReadingA? || y.txs[t].pc.ReadingB?)
    requires TxOk(y.store, y.locks, t, y.txs[t])
    ensures Next(y, t).Some? && t in Next(y, t).value.txs
    ensures Next(y, t).value.txs[t].pc.Done? ==>
              !Next(y, t).value.txs[t].pc.committed && Writes(y.store, y.txs[t].op).None?
  {
    hide Plan, Locks, Held;
  }

  lemma WritingEnds(y: Sys, t: Tid)
    requires Unfinished(y, t) && y.txs[t].pc.Writing? && Next(y, t).Some?
    requires TxOk(y.store, y.locks, t, y.txs[t])
    ensures t in Next(y, t).value.txs
    ensures Next(y, t).value.txs[t].pc.Done? ==>
              Next(y, t).value.txs[t].pc.committed && Writes(y.store, y.txs[t].op).Some?
  {
    hide Plan, Locks, Held, DoAll;
  }

  /**
   * A transaction that ends by a statement of its own ends committed exactly when its body goes through at that moment.
   * Then its writes and its entry in the log are there at once; otherwise nothing has changed.
   */
  lemma EndsExactlyWhen(y: Sys, s: Store, t: Tid)
    requires Inv(y, s) && Unfinished(y, t) && Next(y, t).Some?
    ensures var y' := Next(y, t).value;
      && t in y'.txs && y'.txs[t].op == y.txs[t].op
      && (!y'.txs[t].pc.Done? ==> y'.store == y.store && y'.log == y.log)
      && (y'.txs[t].pc.Done? ==>
            && (y'.txs[t].pc.committed <==> Writes(y.store, y.txs[t].op).Some?)
            && y'.store == Step(y.store, y.txs[t].op)
            && y'.log == y.log + if Writes(y.store, y.txs[t].op).Some? then [y.txs[t].op] else [])
  {
    var tx := y.txs[t];
    assert TxOk(y.store, y.locks, t, tx);
    AdvanceShape(y, t);
    if tx.pc.Locking? { LockingEnds(y, t); }
    if tx.pc.ReadingA? || tx.pc.ReadingB? { ReadingEnds(y, t); }
    if tx.pc.Writing? {
      WritingEnds(y, t);
      CommitIsStep(y.store, y.locks, t, tx);
    }
    hide Inv, Next, TxOk, Writes, DoAll, PlanOf;
    assert y.log + [] == y.log;
  }

  /** A deposit request and the completion of a payout are single statements that take effect at once. */
  lemma AutoTakesEffect(y: Sys, op: Op)
    requires (op.DepositOp? || op.CompleteOp?) && NewIdsFree(y, op)
    requires op.CompleteOp? ==> RowLock(op.id) !in y.locks
    ensures Apply(y, Auto(op)) ==
            y.(store := Step(y.store, op), log := y.log + if Writes(y.store, op).Some? then [op] else [])
  {
    hide Plan, DoAll, FreshRows;
    assert y.log + [] == y.log;
  }

  /** A failing statement rolls the transaction back: nothing is written, and its locks are free. */
  lemma FailRollsBack(y: Sys, t: Tid)
    requires Unfinished(y, t)
    ensures var y' := Apply(y, Fail(t));
      && y'.store == y.store && y'.log == y.log && y'.txs == y.txs[t := y.txs[t].(pc := Done(false))]
      && forall l :: l in y'.locks <==> l in y.locks && y.locks[l] != t
  {
  }

  // ---- every transaction ends ----

  /** A bound on the statements left. */
  function Left(tx: Tx): nat {
    match tx.pc
    case Locking(k) => if k < 3 then 15 - k else 12
    case ReadingA => 11
    case ReadingB => 10
    case Writing(n) => if PlanOf(tx).Some? && n <= |PlanOf(tx).value| then 1 + |PlanOf(tx).value| - n else 1
    case Done(_) => 0
  }

  lemma PlanIsShort(tx: Tx)
    ensures PlanOf(tx).Some? ==> |PlanOf(tx).value| <= 6
  {
  }

  lemma LocksAreFew(op: Op, row: Option<Row>)
    ensures |Locks(op, row)| <= 2
  {
  }

  lemma LockingLowersLeft(y: Sys, t: Tid)
    requires Unfinished(y, t) && y.txs[t].pc.Locking? && Next(y, t).Some?
    ensures t in Next(y, t).value.txs && Left(Next(y, t).value.txs[t]) < Left(y.txs[t])
  {
    var tx := y.txs[t];
    LocksAreFew(tx.op, tx.row);
    hide Plan, Locks, RowAccepted;
  }

  lemma LaterLowersLeft(y: Sys, t: Tid)
    requires Unfinished(y, t) && !y.txs[t].pc.Locking? && Next(y, t).Some?
    ensures t in Next(y, t).value.txs && Left(Next(y, t).value.txs[t]) < Left(y.txs[t])
  {
    PlanIsShort(y.txs[t]);
    PlanIsShort(y.txs[t].(b := ReadB(y.store, y.txs[t].op)));
    hide Plan, Locks, DoAll;
  }

  ghost function LeftOf(txs: map<Tid, Tx>): map<nat, int> {
    map t | t in txs :: Left(txs[t])
  }

  ghost function TotalLeft(y: Sys): int {
    Sum(LeftOf(y.txs))
  }

  lemma TotalIsNatural(y: Sys)
    ensures 0 <= TotalLeft(y)
  {
    SumNonNegative(LeftOf(y.txs));
  }

  lemma LeftOfUpdate(txs: map<Tid, Tx>, t: Tid, tx: Tx)
    ensures LeftOf(txs[t := tx]) == LeftOf(txs)[t := Left(tx)]
  {
    hide Left;
  }

  lemma GoLowersTotal(y: Sys, t: Tid)
    requires t in y.txs && Next(y, t).Some?
    ensures t in Next(y, t).value.txs && Next(y, t).value.txs == y.txs[t := Next(y, t).value.txs[t]]
    ensures TotalLeft(Next(y, t).value) < TotalLeft(y)
  {
    AdvanceShape(y, t);
    if y.txs[t].pc.Locking? { LockingLowersLeft(y, t); } else { LaterLowersLeft(y, t); }
    assert Next(y, t).value.txs == y.txs[t := Next(y, t).value.txs[t]];
    hide Next, Left, DoAll, PlanOf, Sum;
    var tx := Next(y, t).value.txs[t];
    LeftOfUpdate(y.txs, t, tx);
    SumUpdate(LeftOf(y.txs), t, Left(tx));
  }

  lemma ExecGo(s: Store, es: seq<Event>, t: Tid)
    requires t in Exec(s, es).txs && Next(Exec(s, es), t).Some?
    ensures Exec(s, es + [Go(t)]) == Next(Exec(s, es), t).value
  {
    assert (es + [Go(t)])[..|es|] == es;
    hide Next;
  }

  ghost predicate AllGo(es: seq<Event>) {
    forall i :: 0 <= i < |es| ==> es[i].Go?
  }

  /** From every reachable state all transactions can run to their ends, with no failure and nothing new begun. */
  lemma {:induction false} EverybodyFinishes(s: Store, es: seq<Event>) returns (gos: seq<Event>)
    ensures AllGo(gos) && forall t :: !Unfinished(Exec(s, es + gos), t)
    decreases TotalLeft(Exec(s, es))
  {
    var y := Exec(s, es);
    if exists t :: Unfinished(y, t) {
      SomeoneCanStep(s, es);
      var t :| Unfinished(y, t) && Next(y, t).Some?;
      hide Exec, Next, TotalLeft;
      ExecGo(s, es, t);
      GoLowersTotal(y, t);
      TotalIsNatural(Next(y, t).value);
      var rest := EverybodyFinishes(s, es + [Go(t)]);
      gos := [Go(t)] + rest;
      assert es + gos == es + [Go(t)] + rest;
    } else {
      gos := [];
      assert es + gos == es;
    }
  }

  // ---- what became of a transaction ----

  /** At this point of the run transaction t ended by a statement of its own. */
  ghost predicate EndedAt(s: Store, es: seq<Event>, t: Tid, i: nat) {
    && i < |es| && es[i] == Go(t) && Unfinished(Exec(s, es[..i]), t)
    && t in Exec(s, es[..i + 1]).txs && Exec(s, es[..i + 1]).txs[t].pc.Done?
  }

  lemma OthersStay(y: Sys, e: Event, t: Tid)
    requires t in y.txs && e != Go(t) && e != Fail(t)
    ensures t in Apply(y, e).txs && Apply(y, e).txs[t] == y.txs[t]
  {
    if e.Go? && Enabled(y, e) { AdvanceShape(y, e.t); }
    hide Next, FreshRows, Step, Writes;
  }

  lemma NewIsUnfinished(y: Sys, e: Event, t: Tid)
    requires t !in y.txs && t in Apply(y, e).txs
    ensures Unfinished(Apply(y, e), t)
  {
    if e.Go? && Enabled(y, e) { AdvanceShape(y, e.t); }
    hide Next, FreshRows, Step, Writes;
  }

  lemma DoneStays(y: Sys, e: Event, t: Tid)
    requires t in y.txs && y.txs[t].pc.Done?
    ensures t in Apply(y, e).txs && Apply(y, e).txs[t] == y.txs[t]
  {
    if e != Go(t) && e != Fail(t) { OthersStay(y, e, t); }
    hide FreshRows, Step, Writes, Plan;
  }

  /**
   * In every run, a transaction that was not made to fail and is finished ended at some point by its own statement: it
   * committed exactly when its body went through in the state of that point, and then its body is next in the log.
   */
  lemma {:induction false} OutcomeInEveryRun(s: Store, es: seq<Event>, t: Tid) returns (i: nat)
    requires t in Exec(s, es).txs && Exec(s, es).txs[t].pc.Done? && Fail(t) !in es
    ensures EndedAt(s, es, t, i)
    ensures var (y, op) := (Exec(s, es[..i]), Exec(s, es).txs[t].op);
      && (Exec(s, es).txs[t].pc.committed <==> Writes(y.store, op).Some?)
      && Exec(s, es[..i + 1]).store == Step(y.store, op)
      && Exec(s, es[..i + 1]).log == y.log + if Writes(y.store, op).Some? then [op] else []
    decreases |es|
  {
    var n := |es| - 1;
    var prior, e := es[..n], es[n];
    var y := Exec(s, prior);
    assert Exec(s, es) == Apply(y, e);
    if t !in y.txs {
      NewIsUnfinished(y, e, t);
      assert false;
    } else if y.txs[t].pc.Done? {
      DoneStays(y, e, t);
      hide Exec, Apply, Step, Writes;
      i := OutcomeInEveryRun(s, prior, t);
      assert prior[..i] == es[..i] && prior[..i + 1] == es[..i + 1];
    } else {
      i := n;
      assert es[..n + 1] == es;
      if e != Go(t) { OthersStay(y, e, t); assert false; }
      Reachable(s, prior);
      hide Inv, Step, Writes, Next, DoAll;
      EndsExactlyWhen(y, s, t);
    }
  }

  // ---- a transaction alone ----

  function Times(n: nat, e: Event): seq<Event> {
    seq(n, i => e)
  }

  ghost predicate IsAlone(y: Sys, t: Tid) {
    Unfinished(y, t) && forall t' :: t' != t ==> !Unfinished(y, t')
  }

  lemma LoneCanStep(s: Store, es: seq<Event>, t: Tid)
    requires IsAlone(Exec(s, es), t)
    ensures t in Exec(s, es).txs && Next(Exec(s, es), t).Some?
  {
    SomeoneCanStep(s, es);
    hide Exec, Next;
  }

  lemma StaysAlone(y: Sys, t: Tid)
    requires IsAlone(y, t) && Next(y, t).Some? && t in Next(y, t).value.txs && !Next(y, t).value.txs[t].pc.Done?
    requires Next(y, t).value.txs == y.txs[t := Next(y, t).value.txs[t]]
    ensures IsAlone(Next(y, t).value, t)
  {
    hide Next;
    forall t' | t' != t ensures !Unfinished(Next(y, t).value, t') { assert !Unfinished(y, t'); }
  }

  /** With nobody else under way, the transaction runs to its end and leaves what its body leaves. */
  lemma {:induction false} RunsToItsEnd(s: Store, es: seq<Event>, t: Tid) returns (n: nat)
    requires IsAlone(Exec(s, es), t)
    ensures var (y, z) := (Exec(s, es), Exec(s, es + Times(n, Go(t))));
      var op := y.txs[t].op;
      && t in z.txs && z.txs[t].pc == Done(Writes(y.store, op).Some?)
      && z.store == Step(y.store, op) && z.log == y.log + if Writes(y.store, op).Some? then [op] else []
    decreases TotalLeft(Exec(s, es))
  {
    var y := Exec(s, es);
    LoneCanStep(s, es, t);
    Reachable(s, es);
    assert Unfinished(y, t);
    hide Exec, Next, TotalLeft, Inv, Writes, Step, Apply, IsAlone, Unfinished;
    ExecGo(s, es, t);
    GoLowersTotal(y, t);
    TotalIsNatural(Next(y, t).value);
    EndsExactlyWhen(y, s, t);
    if Next(y, t).value.txs[t].pc.Done? {
      n := 1;
      assert Times(1, Go(t)) == [Go(t)];
    } else {
      StaysAlone(y, t);
      var more := RunsToItsEnd(s, es + [Go(t)], t);
      n := more + 1;
      assert es + Times(n, Go(t)) == es + [Go(t)] + Times(more, Go(t));
    }
  }

  /** So a request that meets no other transaction does exactly what its body does, and is logged if that goes
      through. */
  lemma LoneTransaction(s: Store, es: seq<Event>, t: Tid, op: Op) returns (n: nat)
    requires t !in Exec(s, es).txs && forall t' :: !Unfinished(Exec(s, es), t')
    requires !op.DepositOp? && !op.CompleteOp? && Admissible(op) && FreshRows(op, Exec(s, es).store.rows)
    ensures var (y, z) := (Exec(s, es), Exec(s, es + [Begin(t, op)] + Times(n, Go(t))));
      && t in z.txs && z.txs[t].pc == Done(Writes(y.store, op).Some?)
      && z.store == Step(y.store, op) && z.log == y.log + if Writes(y.store, op).Some? then [op] else []
  {
    var y := Exec(s, es);
    assert (es + [Begin(t, op)])[..|es|] == es;
    var z := Exec(s, es + [Begin(t, op)]);
    assert z == Apply(y, Begin(t, op));
    hide FreshRows, Admissible, Writes, Step, Exec;
    forall t' | t' != t ensures !Unfinished(z, t') { assert !Unfinished(y, t'); }
    n := RunsToItsEnd(s, es + [Begin(t, op)], t);
  }
}
