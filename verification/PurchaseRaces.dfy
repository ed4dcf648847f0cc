// Buying with the check and the transaction as two events of a run.

module PurchaseRaces {

  // A purchase looks for an earlier one before its transaction begins, without a lock in between.

  import opened WalletStore
  import opened WalletLedger
  import opened WalletHandlers
  import Effects = WalletEffects

  /** The tables, and the purchases that have passed their check and not yet executed their transaction. */
  datatype Floor = Floor(store: Store, cleared: set<Op>)

  datatype Event = Check(op: Op) | Body(op: Op) | Whole(op: Op)

  function Apply(f: Floor, e: Event): Floor {
    match e
    case Check(op) =>
      if op.PayOp? && (op.user, op.video) !in f.store.purchases then f.(cleared := f.cleared + {op}) else f
    case Body(op) => if op in f.cleared then Floor(Step(f.store, op), f.cleared - {op}) else f
    case Whole(op) => if op.PayOp? then f else f.(store := Step(f.store, op))
  }

  function Run(f: Floor, es: seq<Event>): Floor
    decreases |es|
  {
    if es == [] then f else Apply(Run(f, es[..|es| - 1]), es[|es| - 1])
  }

  /** With nothing in between, check and transaction are the handler; every other call is its handler in one event. */
  lemma EventsAreHandlers(f: Floor, op: Op)
    requires op !in f.cleared
    ensures op.PayOp? ==> Apply(Apply(f, Check(op)), Body(op)) == f.(store := Handle(f.store, op))
    ensures !op.PayOp? ==> Apply(f, Whole(op)) == f.(store := Handle(f.store, op))
  {
    hide Step;
    assert f.cleared + {op} - {op} == f.cleared;
  }

  /** A purchase commits although its buyer has been charged for the video since its check, or even before its twin. */
  ghost predicate Late(f: Floor, e: Event) {
    e.Body? && e.op in f.cleared && e.op.PayOp? && Writes(f.store, e.op).Some?
        && HasCharge(f.store, e.op.user, e.op.video)
  }

  ghost predicate NeverLate(f: Floor, es: seq<Event>)
    decreases |es|
  {
    es == [] || (NeverLate(f, es[..|es| - 1]) && !Late(Run(f, es[..|es| - 1]), es[|es| - 1]))
  }

  /** Any other body keeps user and note of every row and adds no charge. */
  lemma OtherRows(s: Store, op: Op)
    requires !op.PayOp?
    ensures var t := Step(s, op);
      && (forall id :: id in s.rows ==>
          id in t.rows && t.rows[id].note == s.rows[id].note && t.rows[id].user == s.rows[id].user)
      && (forall id :: id in t.rows && id !in s.rows ==> !t.rows[id].note.VideoPurchase?)
  {
    if Writes(s, op).Some? {
      var ws := Writes(s, op).value;
      if op.TransferOp? || op.CommissionOp? {
        MoveRows(s, op);
      } else if |ws| == 1 {
        DoOne(s, ws[0]);
        assert ws == [ws[0]];
      } else {
        DoTwo(s, ws[0], ws[1]);
        assert ws == [ws[0], ws[1]];
      }
    }
  }

  lemma MoveRows(s: Store, op: Op)
    requires (op.TransferOp? || op.CommissionOp?) && Writes(s, op).Some?
    ensures var t := Step(s, op);
      && (forall id :: id in s.rows ==> id in t.rows && t.rows[id] == s.rows[id])
      && (forall id :: id in t.rows && id !in s.rows ==> !t.rows[id].note.VideoPurchase?)
  {
    var ws := Writes(s, op).value;
    if op.CommissionOp? { CutBounds(op.price, 0, op.pct); }
    DoMove(s, ws);
  }

  lemma WholeKeepsUnique(s: Store, op: Op)
    requires !op.PayOp?
    ensures ChargesUnique(Step(s, op)) <==> ChargesUnique(s)
  {
    OtherRows(s, op);
    hide Step;
    var t := Step(s, op);
    assert forall id, user: UserId, video: VideoId :: id in s.rows ==> (IsCharge(t.rows[id], user, video) <==>
        IsCharge(s.rows[id], user, video));
    assert forall id, user: UserId, video: VideoId :: id in t.rows && IsCharge(t.rows[id], user, video) ==>
        id in s.rows;
  }

  /** Two charges for one purchase stay in the ledger. */
  lemma BodyKeepsDoubles(s: Store, op: Op)
    requires op.PayOp? && !ChargesUnique(s)
    ensures !ChargesUnique(Step(s, op))
  {
    if Writes(s, op).Some? { SaleRows(s, op); }
    hide Step, Writes;
    var i, j, user: UserId, video: VideoId :|
      i in s.rows && j in s.rows && IsCharge(s.rows[i], user, video) && IsCharge(s.rows[j], user, video) && i != j;
    var t := Step(s, op);
    assert t.rows[i] == s.rows[i] && t.rows[j] == s.rows[j] by { SaleKeepsRows(s, op); }
  }

  lemma SaleKeepsRows(s: Store, op: Op)
    requires op.PayOp?
    ensures forall id :: id in s.rows ==> id in Step(s, op).rows && Step(s, op).rows[id] == s.rows[id]
  {
    if Writes(s, op).Some? { SaleRows(s, op); }
  }

  lemma ApplyCharges(f: Floor, e: Event)
    requires forall op :: op in f.cleared ==> op.PayOp?
    ensures ChargesUnique(Apply(f, e).store) <==> ChargesUnique(f.store) && !Late(f, e)
    ensures forall op :: op in Apply(f, e).cleared ==> op.PayOp?
  {
    match e
    case Check(op) =>
    case Body(op) =>
      if op in f.cleared && Writes(f.store, op).Some? {
        if ChargesUnique(f.store) { LatePurchaseCheck(f.store, op); } else { BodyKeepsDoubles(f.store, op); }
      }
    case Whole(op) =>
      if !op.PayOp? { WholeKeepsUnique(f.store, op); }
  }

  /** Over every run, each buyer is charged for a video at most once exactly when no purchase commits after a charge
      for it. */
  lemma {:induction false} ChargedOnceExactlyWhen(s: Store, es: seq<Event>)
    requires s.rows == map[]
    ensures ChargesUnique(Run(Floor(s, {}), es).store) <==> NeverLate(Floor(s, {}), es)
    ensures forall op :: op in Run(Floor(s, {}), es).cleared ==> op.PayOp?
    decreases |es|
  {
    if es != [] {
      ChargedOnceExactlyWhen(s, es[..|es| - 1]);
      ApplyCharges(Run(Floor(s, {}), es[..|es| - 1]), es[|es| - 1]);
    }
  }

  /** Two requests for one video, both checked before either pays. */
  function Twins(a: Op, b: Op): seq<Event> {
    [Check(a), Check(b), Body(a), Body(b)]
  }

  /** The same purchase with the row ids of another request. */
  function TwinOf(a: Op, id: RowId, id2: RowId): Op
    requires a.PayOp?
  {
    PayOp(a.user, a.owner, a.video, a.price, a.split, a.blocked, a.username, id, id2)
  }

  predicate AreTwins(a: Op, b: Op) {
    && a.PayOp? && b.PayOp? && b == TwinOf(a, b.id, b.id2)
    && a.id != a.id2 && b.id != b.id2 && {a.id, a.id2} !! {b.id, b.id2}
  }

  lemma RunTwins(f: Floor, a: Op, b: Op)
    ensures Run(f, Twins(a, b)) == Apply(Apply(Apply(Apply(f, Check(a)), Check(b)), Body(a)), Body(b))
  {
    var es := Twins(a, b);
    assert es[..3][..2] == es[..2] && es[..3][..2][..1] == es[..1] && es[..1][..0] == [];
    assert Run(f, es[..1]) == Apply(Run(f, []), es[0]);
    assert Run(f, es[..2]) == Apply(Run(f, es[..2][..1]), es[1]);
    assert es[..2][..1] == es[..1];
    assert Run(f, es[..3]) == Apply(Run(f, es[..3][..2]), es[2]);
  }

  /** A buyer who can pay twice is charged twice. */
  lemma TwinsAreChargedTwice(s: Store, a: Op, b: Op)
    requires s.rows == map[] && AreTwins(a, b) && (a.user, a.video) !in s.purchases && NoOverflow(s)
    requires a.price > 0 && a.owner != a.user && a.owner in s.balances && !a.blocked && a.price * a.split >= 10_000
    requires a.user in s.balances && 2 * a.price <= s.balances[a.user]
    ensures !ChargesUnique(Run(Floor(s, {}), Twins(a, b)).store)
  {
    var f := Floor(s, {});
    RunTwins(f, a, b);
    var cleared := Apply(Apply(f, Check(a)), Check(b));
    assert a != b && cleared == Floor(s, {a, b});
    Effects.SaleCommitsExactlyWhen(s, a);
    SaleRows(s, a);
    SaleSplit(s, a);
    LatePurchaseCheck(s, a);
    var t := Step(s, a);
    hide Step, Writes, ChargesUnique, HasCharge;
    Effects.SaleCommitsExactlyWhen(t, b);
    if ChargesUnique(t) { LatePurchaseCheck(t, b); } else { BodyKeepsDoubles(t, b); }
  }
}
