// Completing a withdrawal reads its status and then updates it without looking again. Here the read and the update are
// two events, and each event keeps the books sound once the amounts refunded and paid out as well are credited.

module LateCompletions {
  import opened Integers
  import opened Sums
  import opened WalletStore
  import opened WalletLedger

  /** The tables, and the completions that have read a pending withdrawal and not yet updated it. */
  datatype Office = Office(store: Store, read: multiset<RowId>)

  datatype Event = Work(op: Op) | ReadStatus(id: RowId) | LateUpdate(id: RowId)

  function Apply(o: Office, e: Event): Office {
    match e
    case Work(op) => if op.CompleteOp? then o else o.(store := Step(o.store, op))
    case ReadStatus(id) =>
      if id in o.store.rows && o.store.rows[id].status.Pending? && o.store.rows[id].kind.Withdrawal?
      then o.(read := o.read + multiset{id}) else o
    case LateUpdate(id) => if id in o.read then Office(BlindComplete(o.store, id), o.read - multiset{id}) else o
  }

  /** An update that finds its withdrawal rejected. */
  predicate Slips(o: Office, e: Event) {
    e.LateUpdate? && e.id in o.read && e.id in o.store.rows && o.store.rows[e.id].status.Rejected?
  }

  /** A slip adds its amount, refunded and now marked as paid out, to what its user seems to have started with. */
  function Credit(m: map<UserId, int>, q: Office, e: Event): map<UserId, int> {
    if Slips(q, e) && q.store.rows[e.id].user in m
    then m[q.store.rows[e.id].user := m[q.store.rows[e.id].user] + q.store.rows[e.id].amount] else m
  }

  /** The books after a slip are those of a user who started with the refunded amount on top. */
  lemma SlipKeepsSound(s: Store, init: map<UserId, int>, id: RowId)
    requires Sound(s, init) && id in s.rows && s.rows[id].kind.Withdrawal? && s.rows[id].status.Rejected?
    ensures var r := s.rows[id];
      r.user in init && Sound(BlindComplete(s, id), init[r.user := init[r.user] + r.amount])
  {
    hide Total, Sum;
    var r, done, t := s.rows[id], s.rows[id].(status := Completed), BlindComplete(s, id);
    var more := init[r.user := init[r.user] + r.amount];
    assert t.balances == s.balances && t.rows == s.rows[id := done];
    forall u | u in s.balances ensures s.balances[u] == more[u] + Total(OfUser(u), t.rows) {
      PutRowTotal(OfUser(u), s.rows, id, done);
    }
    PutRowTotal(HeldWithdrawals, s.rows, id, done);
    PutRowTotal(PaidWithdrawals, s.rows, id, done);
    PutRowTotal(SpentOnVideos, s.rows, id, done);
    PutRowTotal(EarnedOnVideos, s.rows, id, done);
    PutRowTotal(ApprovedDeposits, s.rows, id, done);
    SumUpdate(init, r.user, init[r.user] + r.amount);
  }

  /** An update that is in time is the atomic completion. */
  lemma TimelyUpdate(s: Store, id: RowId)
    requires id in s.rows && s.rows[id].kind.Withdrawal?
    ensures s.rows[id].status.Pending? ==> BlindComplete(s, id) == Step(s, CompleteOp(id))
    ensures s.rows[id].status.Completed? ==> BlindComplete(s, id) == s
  {
    if s.rows[id].status.Pending? { DoOne(s, Writes(s, CompleteOp(id)).value[0]); }
    assert s.rows[id].status.Completed? ==> s.rows[id := s.rows[id].(status := Completed)] == s.rows;
  }

  /** With nothing in between, status read and update are the completion; every other call is one event. */
  lemma EventsAreBodies(o: Office, op: Op)
    ensures op.CompleteOp? && op.id !in o.read ==>
              Apply(Apply(o, ReadStatus(op.id)), LateUpdate(op.id)) == o.(store := Step(o.store, op))
    ensures !op.CompleteOp? ==> Apply(o, Work(op)) == o.(store := Step(o.store, op))
  {
    if op.CompleteOp? {
      var id := op.id;
      if id in o.store.rows && o.store.rows[id].kind.Withdrawal? { TimelyUpdate(o.store, id); }
      assert o.read + multiset{id} - multiset{id} == o.read;
      assert !(id in o.store.rows && o.store.rows[id].status.Pending? && o.store.rows[id].kind.Withdrawal?) ==>
          Step(o.store, op) == o.store;
      hide Step, BlindComplete;
    }
  }

  /** Completions in flight refer to withdrawals. */
  predicate ReadsRows(o: Office) {
    forall id :: id in o.read ==> id in o.store.rows && o.store.rows[id].kind.Withdrawal?
  }

  lemma WorkGrows(o: Office, op: Op)
    requires ReadsRows(o) && PositiveRows(o.store.rows)
    ensures var t := o.(store := Step(o.store, op));
      && ReadsRows(t) && PositiveRows(t.store.rows)
      && Total(ApprovedDeposits, o.store.rows) <= Total(ApprovedDeposits, t.store.rows)
  {
    StepGrows(o.store, op);
    hide Step, Total;
  }

  lemma UpdateGrows(o: Office, id: RowId)
    requires ReadsRows(o) && PositiveRows(o.store.rows) && id in o.read
    ensures var t := Office(BlindComplete(o.store, id), o.read - multiset{id});
      && ReadsRows(t) && PositiveRows(t.store.rows)
      && Total(ApprovedDeposits, o.store.rows) <= Total(ApprovedDeposits, t.store.rows)
  {
    PutRowTotal(ApprovedDeposits, o.store.rows, id, o.store.rows[id].(status := Completed));
    hide Total;
  }

  lemma ApplyGrows(o: Office, e: Event)
    requires ReadsRows(o) && PositiveRows(o.store.rows)
    ensures var t := Apply(o, e);
      && ReadsRows(t) && PositiveRows(t.store.rows)
      && Total(ApprovedDeposits, o.store.rows) <= Total(ApprovedDeposits, t.store.rows)
  {
    if e.Work? { WorkGrows(o, e.op); }
    if e.LateUpdate? && e.id in o.read { UpdateGrows(o, e.id); }
    hide Total, Step, BlindComplete, PositiveRows;
  }

  lemma UpdateKeepsSound(s: Store, init: map<UserId, int>, id: RowId)
    requires Sound(s, init) && id in s.rows && s.rows[id].kind.Withdrawal? && PaidIn(init, s.rows) <= MAX_I64
    ensures !s.rows[id].status.Rejected? ==> Sound(BlindComplete(s, id), init)
  {
    assert WellFormedRow(s.rows[id], s.balances.Keys);
    TimelyUpdate(s, id);
    StepKeepsSound(s, init, CompleteOp(id));
    hide Sound, PaidIn, BlindComplete, Step;
  }

  lemma LateUpdateKeepsSound(o: Office, init: map<UserId, int>, id: RowId)
    requires Sound(o.store, init) && ReadsRows(o) && PaidIn(init, o.store.rows) <= MAX_I64 && id in o.read
    ensures Sound(BlindComplete(o.store, id), Credit(init, o, LateUpdate(id)))
  {
    hide Sound, PaidIn, BlindComplete;
    if o.store.rows[id].status.Rejected? {
      SlipKeepsSound(o.store, init, id);
    } else {
      UpdateKeepsSound(o.store, init, id);
    }
  }

  lemma ApplyKeepsSound(o: Office, init: map<UserId, int>, e: Event)
    requires Sound(o.store, init) && ReadsRows(o) && PaidIn(init, o.store.rows) <= MAX_I64
    ensures Sound(Apply(o, e).store, Credit(init, o, e))
  {
    assert !e.LateUpdate? || e.id !in o.read ==> Credit(init, o, e) == init;
    hide Sound, PaidIn, Step, BlindComplete, Credit, ReadsRows;
    if e.Work? { StepKeepsSound(o.store, init, e.op); }
    if e.LateUpdate? && e.id in o.read { LateUpdateKeepsSound(o, init, e.id); }
  }

  lemma CreditGrows(m: map<UserId, int>, q: Office, e: Event)
    requires ReadsRows(q) && PositiveRows(q.store.rows)
    ensures Sum(m) <= Sum(Credit(m, q, e)) && Credit(m, q, e).Keys == m.Keys
    ensures forall u :: u in m ==> m[u] <= Credit(m, q, e)[u]
    ensures Slips(q, e) && q.store.rows[e.id].user in m ==> Sum(m) < Sum(Credit(m, q, e))
  {
    if Slips(q, e) && q.store.rows[e.id].user in m {
      var u := q.store.rows[e.id].user;
      SumUpdate(m, u, m[u] + q.store.rows[e.id].amount);
    }
  }

  lemma SlipHasUser(q: Office, m: map<UserId, int>, e: Event)
    requires Sound(q.store, m)
    ensures Slips(q, e) ==> q.store.rows[e.id].user in m
  {
    if Slips(q, e) { assert WellFormedRow(q.store.rows[e.id], q.store.balances.Keys); }
  }
}
