// The handler bodies as concurrent database transactions.

module WalletTx {

  // Bodies take row locks, read, prepare their writes one statement at a time and commit, in any interleaving and with
  // any statement failing. Committed state always equals running the committed bodies one after the other in commit
  // order, and the explicit locks cannot deadlock.

  import opened Common
  import opened Integers
  import opened WalletStore
  import Ledger = WalletLedger

  type Tid = nat

  datatype Lock = RowLock(row: RowId) | UserLock(user: UserId)

  /** Ledger rows before users; each kind in ascending id. */
  predicate Before(a: Lock, b: Lock) {
    match (a, b)
    case (RowLock(_), UserLock(_)) => true
    case (RowLock(i), RowLock(j)) => i < j
    case (UserLock(u), UserLock(v)) => u < v
    case (UserLock(_), RowLock(_)) => false
  }

  datatype Pc = Locking(k: nat) | ReadingA | ReadingB | Writing(n: nat) | Done(committed: bool)

  datatype Tx = Tx(op: Op, pc: Pc, row: Option<Row>, a: Option<int>, b: Option<int>)

  /** `log` lists the bodies that committed, in commit order. */
  datatype Sys = Sys(store: Store, locks: map<Lock, Tid>, txs: map<Tid, Tx>, log: seq<Op>)

  datatype Event = Begin(t: Tid, op: Op) | Go(t: Tid) | Fail(t: Tid) | Auto(op: Op)

  /** Bodies that open a transaction. A deposit request is one insert; completing is treated as one statement. */
  predicate OpensTx(op: Op) {
    !op.DepositOp? && !op.CompleteOp?
  }

  /** SELECT … ORDER BY id FOR UPDATE takes the two user rows in ascending id. */
  function InOrder(u: UserId, v: UserId): seq<Lock> {
    if u < v then [UserLock(u), UserLock(v)] else [UserLock(v), UserLock(u)]
  }

  /** The locks a body takes, in order, given the ledger row it has read so far. */
  function Locks(op: Op, row: Option<Row>): seq<Lock> {
    match op
    case WithdrawOp(user, _, _) => [UserLock(user)]
    case TransferOp(user, to, _, _, _) => InOrder(user, to)
    case PayOp(user, owner, _, _, _, _, _, _, _) => InOrder(user, owner)
    case CommissionOp(_, _, owner, affiliate, _, _, _, _, _, _) => InOrder(owner, affiliate)
    case _ =>
      if !IsAdmin(op) then []
      else [RowLock(op.id)] + if UserA(op, row).Some? then [UserLock(UserA(op, row).value)] else []
  }

  predicate Exists(s: Store, l: Lock) {
    match l
    case RowLock(id) => id in s.rows
    case UserLock(u) => u in s.balances
  }

  predicate RowAccepted(op: Op, r: Row) {
    r.status.Pending? && (op.ApproveOp? ==> r.kind.Deposit?)
  }

  function PlanOf(tx: Tx): Option<seq<Write>> {
    Plan(tx.op, tx.row, tx.a, tx.b)
  }

  function Release(locks: map<Lock, Tid>, t: Tid): map<Lock, Tid> {
    map l | l in locks && locks[l] != t :: locks[l]
  }

  function Finish(y: Sys, t: Tid, committed: bool): Sys
    requires t in y.txs
  {
    y.(locks := Release(y.locks, t), txs := y.txs[t := y.txs[t].(pc := Done(committed))])
  }

  function At(y: Sys, t: Tid, tx: Tx): Sys {
    y.(txs := y.txs[t := tx])
  }

  function AfterLock(tx: Tx, k: nat): Tx {
    tx.(pc := if k + 1 < |Locks(tx.op, tx.row)| then Locking(k + 1) else ReadingA)
  }

  predicate BlockedOn(y: Sys, t: Tid, l: Lock) {
    && t in y.txs && y.txs[t].pc.Locking?
    && y.txs[t].pc.k < |Locks(y.txs[t].op, y.txs[t].row)|
    && l == Locks(y.txs[t].op, y.txs[t].row)[y.txs[t].pc.k]
    && Exists(y.store, l) && l in y.locks && y.locks[l] != t
  }

  /** The next statement of transaction t, or None when it waits for a lock or has finished. */
  function Next(y: Sys, t: Tid): Option<Sys>
    requires t in y.txs
  {
    var tx := y.txs[t];
    match tx.pc
    case Locking(k) =>
      if k >= |Locks(tx.op, tx.row)| then Some(At(y, t, tx.(pc := ReadingA))) else
      var l := Locks(tx.op, tx.row)[k];
      if BlockedOn(y, t, l) then None
      else if l.RowLock? then
        // SELECT … FOR UPDATE on the ledger row also reads it.
        if l.row !in y.store.rows || !RowAccepted(tx.op, y.store.rows[l.row]) then Some(Finish(y, t, false))
        else Some(At(y, t, AfterLock(tx.(row := Some(y.store.rows[l.row])), k)).(locks := y.locks[l := t]))
      else if l.user in y.store.balances then Some(At(y, t, AfterLock(tx, k)).(locks := y.locks[l := t]))
      else Some(At(y, t, AfterLock(tx, k)))
    case ReadingA =>
      var who := UserA(tx.op, tx.row);
      Some(At(y, t, tx.(pc := ReadingB, a := if who.Some? then Lookup(y.store.balances, who.value) else None)))
    case ReadingB =>
      var tx' := tx.(b := ReadB(y.store, tx.op));
      if PlanOf(tx').None? then Some(Finish(y, t, false)) else Some(At(y, t, tx'.(pc := Writing(0))))
    case Writing(n) =>
      if PlanOf(tx).None? then None
      else if n < |PlanOf(tx).value| then Some(At(y, t, tx.(pc := Writing(n + 1))))
      else Some(Finish(y, t, true).(store := DoAll(y.store, PlanOf(tx).value), log := y.log + [tx.op]))
    case Done(_) => None
  }

  predicate Unfinished(y: Sys, t: Tid) {
    t in y.txs && !y.txs[t].pc.Done?
  }

  /** The sequence that numbers new rows never hands out an id twice. */
  ghost predicate NewIdsFree(y: Sys, op: Op) {
    && FreshRows(op, y.store.rows)
    && forall t :: Unfinished(y, t) ==> Apart(NewRows(op), NewRows(y.txs[t].op))
  }

  predicate Apart(xs: seq<RowId>, ys: seq<RowId>) {
    forall x :: x in xs ==> x !in ys
  }

  ghost predicate Enabled(y: Sys, e: Event) {
    match e
    case Begin(t, op) => t !in y.txs && OpensTx(op) && Admissible(op) && NewIdsFree(y, op)
    case Go(t) => t in y.txs && Next(y, t).Some?
    case Fail(t) => Unfinished(y, t)
    case Auto(op) => !OpensTx(op) && NewIdsFree(y, op) && (op.CompleteOp? ==> RowLock(op.id) !in y.locks)
  }

  ghost function Apply(y: Sys, e: Event): Sys {
    if !Enabled(y, e) then y else
    match e
    case Begin(t, op) => At(y, t, Tx(op, Locking(0), None, None, None))
    case Go(t) => Next(y, t).value
    case Fail(t) => Finish(y, t, false)
    case Auto(op) =>
      if Writes(y.store, op).Some? then y.(store := Step(y.store, op), log := y.log + [op]) else y
  }

  ghost function Exec(s: Store, es: seq<Event>): Sys
    decreases |es|
  {
    if es == [] then Sys(s, map[], map[], []) else Apply(Exec(s, es[..|es| - 1]), es[|es| - 1])
  }

  // ---- the invariant of every reachable state ----

  function Taken(tx: Tx): nat {
    match tx.pc
    case Locking(k) => k
    case _ => |Locks(tx.op, tx.row)|
  }

  /** What transaction t has locked is its own, and what it has read is still what is committed. */
  ghost predicate TxOk(s: Store, locks: map<Lock, Tid>, t: Tid, tx: Tx) {
    && OpensTx(tx.op) && Admissible(tx.op) && FreshRows(tx.op, s.rows)
    && Held(s, locks, t, tx) && Current(s, tx)
  }

  ghost predicate Held(s: Store, locks: map<Lock, Tid>, t: Tid, tx: Tx) {
    && Taken(tx) <= |Locks(tx.op, tx.row)|
    && forall i :: 0 <= i < Taken(tx) ==> Owns(s, locks, t, Locks(tx.op, tx.row)[i])
  }

  ghost predicate Current(s: Store, tx: Tx) {
    && (if IsAdmin(tx.op) && tx.pc != Locking(0) then tx.row.Some? && tx.row == ReadRow(s, tx.op) else tx.row == None)
    && (tx.pc.ReadingB? || tx.pc.Writing? ==> tx.a == ReadA(s, tx.op))
    && (tx.pc.Writing? ==> tx.b == ReadB(s, tx.op) && PlanOf(tx).Some?)
  }

  ghost predicate Owns(s: Store, locks: map<Lock, Tid>, t: Tid, l: Lock) {
    Exists(s, l) ==> l in locks && locks[l] == t
  }

  ghost predicate LockOk(y: Sys, l: Lock)
    requires l in y.locks
  {
    var t := y.locks[l];
    Unfinished(y, t) && exists i :: TookAt(y.txs[t], i, l)
  }

  predicate TookAt(tx: Tx, i: int, l: Lock) {
    0 <= i < Taken(tx) <= |Locks(tx.op, tx.row)| && Locks(tx.op, tx.row)[i] == l
  }

  ghost predicate Inv(y: Sys, s: Store) {
    && y.store == Run(s, y.log)
    && (forall t :: Unfinished(y, t) ==> TxOk(y.store, y.locks, t, y.txs[t]))
    && (forall l :: l in y.locks ==> LockOk(y, l))
    && (forall t, t' :: Unfinished(y, t) && Unfinished(y, t') && t != t' ==>
          Apart(NewRows(y.txs[t].op), NewRows(y.txs[t'].op)))
  }

  lemma PlanTouches(op: Op, row: Option<Row>, a: Option<int>, b: Option<int>)
    requires Plan(op, row, a, b).Some?
    ensures forall w :: w in Plan(op, row, a, b).value ==>
      && (w.SetBalance? ==> UserLock(w.who) in Locks(op, row))
      && (w.PutRow? ==> w.at in NewRows(op) || (IsAdmin(op) && w.at == op.id))
  {
  }

  lemma {:induction false} DoAllFrame(s: Store, ws: seq<Write>)
    ensures DoAll(s, ws).balances.Keys == s.balances.Keys
    ensures s.rows.Keys <= DoAll(s, ws).rows.Keys
    ensures forall u :: (forall w :: w in ws && w.SetBalance? ==> w.who != u) ==>
              Lookup(DoAll(s, ws).balances, u) == Lookup(s.balances, u)
    ensures forall id :: (forall w :: w in ws && w.PutRow? ==> w.at != id) ==>
              Lookup(DoAll(s, ws).rows, id) == Lookup(s.rows, id)
    decreases |ws|
  {
    if ws != [] {
      assert forall w :: w in ws[1..] ==> w in ws;
      DoAllFrame(Do(s, ws[0]), ws[1..]);
    }
  }

  lemma UsersReadAreLocked(op: Op, row: Option<Row>)
    requires OpensTx(op)
    ensures UserA(op, row).Some? ==> UserLock(UserA(op, row).value) in Locks(op, row)
    ensures UserB(op).Some? ==> UserLock(UserB(op).value) in Locks(op, row)
  {
  }

  /** Two transactions never hold the same lock on something that exists. */
  lemma LocksDiffer(s: Store, locks: map<Lock, Tid>, t: Tid, tx: Tx, t': Tid, tx': Tx, l: Lock)
    requires t != t' && Held(s, locks, t, tx) && Held(s, locks, t', tx') && Exists(s, l)
    requires Taken(tx) == |Locks(tx.op, tx.row)|
    ensures l in Locks(tx.op, tx.row) ==> l !in Locks(tx'.op, tx'.row)[..Taken(tx')]
  {
    if l in Locks(tx.op, tx.row) {
      var i :| 0 <= i < |Locks(tx.op, tx.row)| && Locks(tx.op, tx.row)[i] == l;
      assert Owns(s, locks, t, Locks(tx.op, tx.row)[i]);
    }
  }

  /** What another transaction has read stays current when t commits: t writes only what it has locked or created. */
  lemma CommitKeepsReads(s: Store, locks: map<Lock, Tid>, t: Tid, tx: Tx, t': Tid, tx': Tx)
    requires TxOk(s, locks, t, tx) && TxOk(s, locks, t', tx') && t != t' && tx.pc.Writing?
    ensures Current(DoAll(s, PlanOf(tx).value), tx')
  {
    var ws := PlanOf(tx).value;
    var after := DoAll(s, ws);
    PlanTouches(tx.op, tx.row, tx.a, tx.b);
    DoAllFrame(s, ws);
    UsersReadAreLocked(tx'.op, tx'.row);
    hide Plan, DoAll, UserA, UserB;
    if IsAdmin(tx'.op) && tx'.pc != Locking(0) {
      assert Locks(tx'.op, tx'.row)[..Taken(tx')][0] == RowLock(tx'.op.id);
      assert IsAdmin(tx.op) ==> RowLock(tx.op.id) in Locks(tx.op, tx.row) by {
        if IsAdmin(tx.op) { assert Locks(tx.op, tx.row)[0] == RowLock(tx.op.id); }
      }
      LocksDiffer(s, locks, t, tx, t', tx', RowLock(tx'.op.id));
      assert Lookup(after.rows, tx'.op.id) == Lookup(s.rows, tx'.op.id);
    }
    forall u | UserLock(u) in Locks(tx'.op, tx'.row) && Taken(tx') == |Locks(tx'.op, tx'.row)|
      ensures Lookup(after.balances, u) == Lookup(s.balances, u)
    {
      if u in s.balances { LocksDiffer(s, locks, t, tx, t', tx', UserLock(u)); }
    }
  }

  /** The row ids another transaction will use stay free. */
  lemma CommitKeepsFresh(s: Store, tx: Tx, op: Op)
    requires PlanOf(tx).Some? && OpensTx(tx.op) && (IsAdmin(tx.op) ==> tx.op.id in s.rows)
    requires FreshRows(op, s.rows) && Apart(NewRows(op), NewRows(tx.op))
    ensures FreshRows(op, DoAll(s, PlanOf(tx).value).rows)
  {
    var ws := PlanOf(tx).value;
    PlanTouches(tx.op, tx.row, tx.a, tx.b);
    DoAllFrame(s, ws);
    hide Plan, DoAll;
    forall id | id in NewRows(op) ensures id !in DoAll(s, ws).rows {
      assert Lookup(DoAll(s, ws).rows, id) == Lookup(s.rows, id);
    }
  }

  /** And so do its locks. */
  lemma CommitKeepsHeld(s: Store, locks: map<Lock, Tid>, t: Tid, tx: Tx, t': Tid, tx': Tx)
    requires PlanOf(tx).Some? && Held(s, locks, t', tx') && t != t'
    requires forall i :: 0 <= i < Taken(tx') && Locks(tx'.op, tx'.row)[i].RowLock? ==>
               Exists(s, Locks(tx'.op, tx'.row)[i])
    ensures Held(DoAll(s, PlanOf(tx).value), Release(locks, t), t', tx')
  {
    var ws := PlanOf(tx).value;
    PlanTouches(tx.op, tx.row, tx.a, tx.b);
    DoAllFrame(s, ws);
    hide Plan, DoAll, Locks;
    forall i | 0 <= i < Taken(tx') ensures Owns(DoAll(s, ws), Release(locks, t), t', Locks(tx'.op, tx'.row)[i]) {
      assert Owns(s, locks, t', Locks(tx'.op, tx'.row)[i]);
    }
  }

  lemma CommitKeepsOthers(s: Store, locks: map<Lock, Tid>, t: Tid, tx: Tx, t': Tid, tx': Tx)
    requires TxOk(s, locks, t, tx) && TxOk(s, locks, t', tx') && t != t' && tx.pc.Writing?
    requires Apart(NewRows(tx'.op), NewRows(tx.op))
    ensures TxOk(DoAll(s, PlanOf(tx).value), Release(locks, t), t', tx')
  {
    assert IsAdmin(tx.op) ==> tx.op.id in s.rows;
    assert forall i :: 0 <= i < Taken(tx') && Locks(tx'.op, tx'.row)[i].RowLock? ==>
        Exists(s, Locks(tx'.op, tx'.row)[i]);
    assert PlanOf(tx).Some?;
    hide Plan, DoAll, Locks, Current, Held, FreshRows, Taken;
    CommitKeepsReads(s, locks, t, tx, t', tx');
    CommitKeepsFresh(s, tx, tx'.op);
    CommitKeepsHeld(s, locks, t, tx, t', tx');
  }

  lemma CommitIsStep(s: Store, locks: map<Lock, Tid>, t: Tid, tx: Tx)
    requires TxOk(s, locks, t, tx) && tx.pc.Writing?
    ensures Step(s, tx.op) == DoAll(s, PlanOf(tx).value)
  {
    hide Plan, DoAll;
  }

  lemma CommitKeepsInv(y: Sys, s: Store, t: Tid)
    requires Inv(y, s) && Unfinished(y, t) && y.txs[t].pc.Writing?
    ensures var tx := y.txs[t];
      Inv(Finish(y, t, true).(store := DoAll(y.store, PlanOf(tx).value), log := y.log + [tx.op]), s)
  {
    var tx := y.txs[t];
    var store := DoAll(y.store, PlanOf(tx).value);
    CommitIsStep(y.store, y.locks, t, tx);
    assert (y.log + [tx.op])[..|y.log|] == y.log;
    assert store == Run(s, y.log + [tx.op]);
    ReleaseKeepsLocks(y, t, true);
    hide Plan, PlanOf, DoAll, Locks, Current, Held, FreshRows, Step, Run, LockOk;
    forall t' | Unfinished(y, t') && t' != t ensures TxOk(store, Release(y.locks, t), t', y.txs[t']) {
      CommitKeepsOthers(y.store, y.locks, t, tx, t', y.txs[t']);
    }
    var y' := Finish(y, t, true).(store := store, log := y.log + [tx.op]);
    LocksIgnoreStore(Finish(y, t, true), y');
  }

  lemma LocksIgnoreStore(y: Sys, y': Sys)
    requires y'.locks == y.locks && y'.txs == y.txs
    requires forall l :: l in y.locks ==> LockOk(y, l)
    ensures forall l :: l in y'.locks ==> LockOk(y', l)
  {
    hide Locks;
    forall l | l in y'.locks ensures LockOk(y', l) { assert LockOk(y, l); }
  }

  lemma ReleaseKeepsLocks(y: Sys, t: Tid, committed: bool)
    requires t in y.txs && forall l :: l in y.locks ==> LockOk(y, l)
    ensures forall l :: l in Finish(y, t, committed).locks ==> LockOk(Finish(y, t, committed), l)
  {
    hide Locks;
    var y' := Finish(y, t, committed);
    forall l | l in y'.locks ensures LockOk(y', l) {
      assert LockOk(y, l);
      assert y'.txs[y.locks[l]] == y.txs[y.locks[l]];
    }
  }

  /** Rolling back, or giving up before any write, leaves the committed state and everyone else alone. */
  lemma FinishKeepsInv(y: Sys, s: Store, t: Tid)
    requires Inv(y, s) && Unfinished(y, t)
    ensures Inv(Finish(y, t, false), s)
  {
    hide Locks, Plan, Current;
    var y' := Finish(y, t, false);
    forall t' | Unfinished(y', t') ensures TxOk(y'.store, y'.locks, t', y'.txs[t']) {
      ReleaseKeepsTx(y.store, y.locks, t, t', y.txs[t']);
    }
    ReleaseKeepsLocks(y, t, false);
  }

  lemma ReleaseKeepsTx(s: Store, locks: map<Lock, Tid>, t: Tid, t': Tid, tx': Tx)
    requires t != t' && TxOk(s, locks, t', tx')
    ensures TxOk(s, Release(locks, t), t', tx')
  {
    hide Locks, Plan, Current;
    forall i | 0 <= i < Taken(tx') ensures Owns(s, Release(locks, t), t', Locks(tx'.op, tx'.row)[i]) {
      assert Owns(s, locks, t', Locks(tx'.op, tx'.row)[i]);
    }
  }

  lemma AdvanceShape(y: Sys, t: Tid)
    requires t in y.txs && Next(y, t).Some?
    ensures var y' := Next(y, t).value;
      && Unfinished(y, t) && t in y'.txs && y'.txs[t].op == y.txs[t].op
      && (if y'.txs[t].pc.Done?
          then y' == if y.txs[t].pc.Writing?
                     then Finish(y, t, true).(store := DoAll(y.store, PlanOf(y.txs[t]).value),
                                              log := y.log + [y.txs[t].op])
                     else Finish(y, t, false)
          else y'.store == y.store && y'.log == y.log && y'.txs == y.txs[t := y'.txs[t]])
  {
    hide Plan, Locks;
  }

  predicate Advances(y: Sys, t: Tid) {
    t in y.txs && Next(y, t).Some? && !Next(y, t).value.txs[t].pc.Done?
  }

  /** A statement that does not end the transaction takes at most one lock, the next one, which nobody else held. */
  lemma AdvanceLocks(y: Sys, t: Tid)
    requires Advances(y, t) && TxOk(y.store, y.locks, t, y.txs[t])
    ensures var y', tx, tx' := Next(y, t).value, y.txs[t], Next(y, t).value.txs[t];
      var had, has := Locks(tx.op, tx.row), Locks(tx'.op, tx'.row);
      && Taken(tx) <= Taken(tx') <= |has| && Taken(tx) <= |had|
      && (forall i :: 0 <= i < Taken(tx) ==> has[i] == had[i])
      && if Taken(tx') == Taken(tx) then y'.locks == y.locks
         else Taken(tx') == Taken(tx) + 1
              && var l := has[Taken(tx)];
                 if Exists(y.store, l)
                 then (l in y.locks ==> y.locks[l] == t) && y'.locks == y.locks[l := t]
                 else y'.locks == y.locks
  {
    hide Plan, Current, FreshRows, DoAll, RowAccepted, ReadB, UserA;
  }

  lemma AdvanceKeepsOthers(y: Sys, t: Tid, t': Tid)
    requires Advances(y, t) && TxOk(y.store, y.locks, t, y.txs[t])
    requires t != t' && Unfinished(y, t') && TxOk(y.store, y.locks, t', y.txs[t'])
    ensures TxOk(Next(y, t).value.store, Next(y, t).value.locks, t', Next(y, t).value.txs[t'])
  {
    AdvanceShape(y, t);
    AdvanceLocks(y, t);
    hide Plan, Current, Locks, Next;
    var y', tx' := Next(y, t).value, y.txs[t'];
    forall i | 0 <= i < Taken(tx') ensures Owns(y'.store, y'.locks, t', Locks(tx'.op, tx'.row)[i]) {
      assert Owns(y.store, y.locks, t', Locks(tx'.op, tx'.row)[i]);
    }
  }

  lemma AdvanceKeepsOwn(y: Sys, t: Tid)
    requires Advances(y, t) && TxOk(y.store, y.locks, t, y.txs[t])
    ensures TxOk(Next(y, t).value.store, Next(y, t).value.locks, t, Next(y, t).value.txs[t])
  {
    AdvanceShape(y, t);
    AdvanceLocks(y, t);
    AdvanceReads(y, t);
    hide Plan, Locks, Next, Current;
    var y', tx, tx' := Next(y, t).value, y.txs[t], Next(y, t).value.txs[t];
    forall i | 0 <= i < Taken(tx') ensures Owns(y'.store, y'.locks, t, Locks(tx'.op, tx'.row)[i]) {
      if i < Taken(tx) { assert Owns(y.store, y.locks, t, Locks(tx.op, tx.row)[i]); }
    }
  }

  lemma AdvanceReads(y: Sys, t: Tid)
    requires Advances(y, t) && TxOk(y.store, y.locks, t, y.txs[t])
    ensures Current(y.store, Next(y, t).value.txs[t])
  {
    hide Plan;
  }

  lemma AdvanceKeepsLocks(y: Sys, t: Tid)
    requires Advances(y, t) && TxOk(y.store, y.locks, t, y.txs[t])
    requires forall l :: l in y.locks ==> LockOk(y, l)
    ensures forall l :: l in Next(y, t).value.locks ==> LockOk(Next(y, t).value, l)
  {
    AdvanceShape(y, t);
    AdvanceLocks(y, t);
    hide Plan, Next, Locks, TxOk;
    var y', tx, tx' := Next(y, t).value, y.txs[t], Next(y, t).value.txs[t];
    forall l | l in y'.locks ensures LockOk(y', l) {
      if l in y.locks {
        var owner := y.locks[l];
        assert LockOk(y, l) && y'.locks[l] == owner;
        var i :| TookAt(y.txs[owner], i, l);
        assert TookAt(y'.txs[owner], i, l);
      } else {
        assert TookAt(tx', Taken(tx), l);
      }
    }
  }

  lemma NextKeepsInv(y: Sys, s: Store, t: Tid)
    requires Inv(y, s) && t in y.txs && Next(y, t).Some?
    ensures Inv(Next(y, t).value, s)
  {
    AdvanceShape(y, t);
    hide Next, Run, TxOk, LockOk;
    var y' := Next(y, t).value;
    if !y'.txs[t].pc.Done? {
      AdvanceKeepsOwn(y, t);
      AdvanceKeepsLocks(y, t);
      forall t' | Unfinished(y', t') && t' != t ensures TxOk(y'.store, y'.locks, t', y'.txs[t']) {
        AdvanceKeepsOthers(y, t, t');
      }
    } else if y.txs[t].pc.Writing? {
      CommitKeepsInv(y, s, t);
    } else {
      FinishKeepsInv(y, s, t);
    }
  }

  /** A lock keeps an owner that took it when its transaction is as before. */
  lemma SameOwner(y: Sys, y': Sys, l: Lock)
    requires l in y.locks && l in y'.locks && y'.locks[l] == y.locks[l] && LockOk(y, l)
    requires y.locks[l] in y'.txs && y'.txs[y.locks[l]] == y.txs[y.locks[l]]
    ensures LockOk(y', l)
  {
    var owner := y.locks[l];
    var i :| TookAt(y.txs[owner], i, l);
    assert TookAt(y'.txs[owner], i, l);
    hide TookAt;
  }

  lemma BeginKeepsInv(y: Sys, s: Store, t: Tid, op: Op)
    requires Inv(y, s) && Enabled(y, Begin(t, op))
    ensures Inv(Apply(y, Begin(t, op)), s)
  {
    hide Plan, Locks;
    var y' := Apply(y, Begin(t, op));
    forall t' | Unfinished(y', t') ensures TxOk(y'.store, y'.locks, t', y'.txs[t']) {
      if t' != t { assert TxOk(y.store, y.locks, t', y.txs[t']); }
    }
    forall l | l in y'.locks ensures LockOk(y', l) {
      assert LockOk(y, l);
      SameOwner(y, y', l);
    }
  }

  /** A deposit request and a completed payout are single statements; neither touches a row that anyone has locked. */
  lemma AutoKeepsOthers(s: Store, locks: map<Lock, Tid>, op: Op, t': Tid, tx': Tx)
    requires TxOk(s, locks, t', tx') && !OpensTx(op) && Writes(s, op).Some?
    requires op.CompleteOp? ==> RowLock(op.id) !in locks
    requires Apart(NewRows(op), NewRows(tx'.op))
    ensures TxOk(Step(s, op), locks, t', tx')
  {
    var w := Writes(s, op).value[0];
    Ledger.DoOne(s, w);
    assert Writes(s, op).value == [w];
    assert Step(s, op) == s.(rows := s.rows[w.at := w.row]);
    if IsAdmin(tx'.op) && tx'.pc != Locking(0) {
      assert Owns(s, locks, t', Locks(tx'.op, tx'.row)[0]);
    }
    assert Current(Step(s, op), tx');
    hide Plan, Current;
    forall i | 0 <= i < Taken(tx') ensures Owns(Step(s, op), locks, t', Locks(tx'.op, tx'.row)[i]) {
      assert Owns(s, locks, t', Locks(tx'.op, tx'.row)[i]);
    }
  }

  lemma NewStoreKeepsInv(y: Sys, s: Store, store: Store, log: seq<Op>)
    requires Inv(y, s) && store == Run(s, log)
    requires forall t :: Unfinished(y, t) ==> TxOk(store, y.locks, t, y.txs[t])
    ensures Inv(y.(store := store, log := log), s)
  {
    LocksIgnoreStore(y, y.(store := store, log := log));
  }

  lemma AutoKeepsTx(y: Sys, s: Store, op: Op, t: Tid)
    requires Inv(y, s) && Enabled(y, Auto(op)) && Writes(y.store, op).Some? && Unfinished(y, t)
    ensures TxOk(Step(y.store, op), y.locks, t, y.txs[t])
  {
    assert TxOk(y.store, y.locks, t, y.txs[t]);
    assert Apart(NewRows(op), NewRows(y.txs[t].op));
    hide TxOk, Step, Writes, Apart, NewRows;
    AutoKeepsOthers(y.store, y.locks, op, t, y.txs[t]);
  }

  lemma AutoIsLogged(s: Store, log: seq<Op>, store: Store, op: Op)
    requires store == Run(s, log)
    ensures Step(store, op) == Run(s, log + [op])
  {
    assert (log + [op])[..|log|] == log;
  }

  lemma AutoKeepsInv(y: Sys, s: Store, op: Op)
    requires Inv(y, s) && Enabled(y, Auto(op))
    ensures Inv(Apply(y, Auto(op)), s)
  {
    if Writes(y.store, op).Some? {
      assert y.store == Run(s, y.log);
      assert Apply(y, Auto(op)) == y.(store := Step(y.store, op), log := y.log + [op]);
      hide *;
      AutoIsLogged(s, y.log, y.store, op);
      forall t | Unfinished(y, t) ensures TxOk(Step(y.store, op), y.locks, t, y.txs[t]) {
        AutoKeepsTx(y, s, op, t);
      }
      NewStoreKeepsInv(y, s, Step(y.store, op), y.log + [op]);
    } else {
      assert Apply(y, Auto(op)) == y;
    }
  }

  lemma {:induction false} Reachable(s: Store, es: seq<Event>)
    ensures Inv(Exec(s, es), s)
    decreases |es|
  {
    if es != [] {
      var y, e := Exec(s, es[..|es| - 1]), es[|es| - 1];
      Reachable(s, es[..|es| - 1]);
      hide Inv, Next, Plan;
      if Enabled(y, e) {
        match e
        case Begin(t, op) => BeginKeepsInv(y, s, t, op);
        case Go(t) => NextKeepsInv(y, s, t);
        case Fail(t) => FinishKeepsInv(y, s, t);
        case Auto(op) => AutoKeepsInv(y, s, op);
      }
    }
  }

  /** No update is lost: whatever interleaves, the committed state is a run of the committed bodies, one at a time. */
  lemma InterleavingIsSerial(s: Store, es: seq<Event>)
    ensures Exec(s, es).store == Run(s, Exec(s, es).log)
  {
    Reachable(s, es);
  }

  /** Hence the books stay sound under every interleaving. */
  lemma InterleavingKeepsBooks(s: Store, es: seq<Event>)
    requires Ledger.Opening(s)
    requires Ledger.PaidIn(s.balances, Exec(s, es).store.rows) <= MAX_I64
    ensures Ledger.Sound(Exec(s, es).store, s.balances)
  {
    InterleavingIsSerial(s, es);
    Ledger.RunIsSound(s, Exec(s, es).log);
  }

  // ---- deadlock freedom ----

  lemma LocksAscend(op: Op, row: Option<Row>)
    requires OpensTx(op) && Admissible(op)
    ensures forall i, j :: 0 <= i < j < |Locks(op, row)| ==> Before(Locks(op, row)[i], Locks(op, row)[j])
  {
  }

  ghost predicate Blocked(y: Sys, t: Tid) {
    exists l :: BlockedOn(y, t, l)
  }

  /** The lock a blocked transaction waits for; every lock held by its holder comes before what the holder wants. */
  ghost function Wanted(y: Sys, t: Tid): (l: Lock)
    requires Blocked(y, t)
    ensures BlockedOn(y, t, l)
  {
    Locks(y.txs[t].op, y.txs[t].row)[y.txs[t].pc.k]
  }

  ghost predicate WaitsFor(y: Sys, t: Tid, t': Tid) {
    Blocked(y, t) && y.locks[Wanted(y, t)] == t'
  }

  lemma WaitingAscends(y: Sys, s: Store, t: Tid, t': Tid)
    requires Inv(y, s) && WaitsFor(y, t, t') && Blocked(y, t')
    ensures Before(Wanted(y, t), Wanted(y, t'))
  {
    assert LockOk(y, Wanted(y, t));
    assert Unfinished(y, t');
    LocksAscend(y.txs[t'].op, y.txs[t'].row);
  }

  lemma {:induction false} ChainAscends(y: Sys, s: Store, ts: seq<Tid>, n: nat)
    requires Inv(y, s) && 0 < n < |ts|
    requires forall i :: 0 <= i < |ts| ==> Blocked(y, ts[i])
    requires forall i :: 0 <= i < |ts| - 1 ==> WaitsFor(y, ts[i], ts[i + 1])
    ensures Before(Wanted(y, ts[0]), Wanted(y, ts[n]))
  {
    hide Inv, Wanted;
    WaitingAscends(y, s, ts[n - 1], ts[n]);
    if n > 1 { ChainAscends(y, s, ts, n - 1); }
  }

  /** In no reachable state do transactions wait for one another in a circle. */
  lemma NoWaitCycle(s: Store, es: seq<Event>, ts: seq<Tid>)
    requires |ts| >= 2 && ts[0] == ts[|ts| - 1]
    ensures !forall i :: 0 <= i < |ts| - 1 ==> WaitsFor(Exec(s, es), ts[i], ts[i + 1])
  {
    var y := Exec(s, es);
    Reachable(s, es);
    hide Inv, Exec, Wanted;
    if forall i :: 0 <= i < |ts| - 1 ==> WaitsFor(y, ts[i], ts[i + 1]) {
      forall i | 0 <= i < |ts| ensures Blocked(y, ts[i]) {
        if i < |ts| - 1 { assert WaitsFor(y, ts[i], ts[i + 1]); } else { assert WaitsFor(y, ts[0], ts[1]); }
      }
      ChainAscends(y, s, ts, |ts| - 1);
    }
  }

  /** The lock order is asymmetric and negatively transitive. */
  lemma LockOrder(a: Lock, b: Lock, c: Lock)
    ensures !(Before(a, b) && Before(b, a))
    ensures !Before(a, b) && !Before(b, c) ==> !Before(a, c)
  {
  }

  lemma {:induction false} LastWanted(y: Sys, waiting: set<Tid>) returns (t: Tid)
    requires waiting != {} && forall t :: t in waiting ==> Blocked(y, t)
    ensures t in waiting && forall t' :: t' in waiting ==> !Before(Wanted(y, t), Wanted(y, t'))
    decreases |waiting|
  {
    hide Wanted, Blocked, Before;
    var first :| first in waiting;
    t := first;
    var others := waiting - {first};
    if others != {} {
      var best := LastWanted(y, others);
      if Before(Wanted(y, first), Wanted(y, best)) { t := best; }
      forall t' | t' in waiting ensures !Before(Wanted(y, t), Wanted(y, t')) {
        assert t' == first || t' in others;
        LockOrder(Wanted(y, first), Wanted(y, best), Wanted(y, t'));
        LockOrder(Wanted(y, first), Wanted(y, first), Wanted(y, t'));
      }
    } else {
      assert waiting == {first};
      LockOrder(Wanted(y, first), Wanted(y, first), Wanted(y, first));
    }
  }

  /** An unfinished transaction that cannot execute its next statement waits for a lock. */
  lemma StuckIsBlocked(y: Sys, s: Store, t: Tid)
    requires Inv(y, s) && Unfinished(y, t) && Next(y, t).None?
    ensures Blocked(y, t)
  {
    assert TxOk(y.store, y.locks, t, y.txs[t]);
    var tx := y.txs[t];
    hide Plan, Locks, Inv;
    assert BlockedOn(y, t, Locks(tx.op, tx.row)[tx.pc.k]);
  }

  lemma HolderIsUnfinished(y: Sys, s: Store, t: Tid)
    requires Inv(y, s) && Blocked(y, t)
    ensures Wanted(y, t) in y.locks && Unfinished(y, y.locks[Wanted(y, t)])
  {
    assert LockOk(y, Wanted(y, t));
    hide Locks, TookAt;
  }

  /** While any transaction is unfinished, some unfinished transaction can execute its next statement. */
  lemma SomeoneCanStep(s: Store, es: seq<Event>)
    requires exists t :: Unfinished(Exec(s, es), t)
    ensures exists t :: Unfinished(Exec(s, es), t) && Next(Exec(s, es), t).Some?
  {
    var y := Exec(s, es);
    Reachable(s, es);
    var waiting := set t | t in y.txs && Unfinished(y, t);
    var someone :| Unfinished(y, someone);
    assert someone in waiting;
    hide Inv, Exec, Next, Wanted, Blocked;
    if forall t :: t in waiting ==> Next(y, t).None? {
      forall t | t in waiting ensures Blocked(y, t) {
        StuckIsBlocked(y, s, t);
      }
      var t := LastWanted(y, waiting);
      HolderIsUnfinished(y, s, t);
      var holder := y.locks[Wanted(y, t)];
      assert holder in waiting;
      WaitingAscends(y, s, t, holder);
    }
  }
}
