// What payments grant, repeat and pay out.

module PaymentLaws {

  // Entitlements last and have a cause, replays change nothing, and when each invoice pays at most one commission and
  // is paid out at most once.

  import opened Common
  import opened Integers
  import opened WalletStore
  import opened X402Logs
  import opened Payments
  import Ledger = WalletLedger
  import Handlers = WalletHandlers
  import Effects = WalletEffects

  // ---- entitlement lasts ----

  /** What a successful payment leaves behind for its buyer. */
  ghost predicate Entitled(p: Shop, video: VideoId, user: UserId) {
    && user in p.users
    && ((video, p.users[user].name) in p.store.allowlist || (user, video) in p.store.purchases
        || HasPaidFiat(p, video, user))
  }

  lemma EntitledMaySee(p: Shop, video: VideoId, user: UserId)
    requires Entitled(p, video, user)
    ensures ViewAccess(p, video, user)
  {
  }

  ghost predicate FiatGrows(i: Fiat, j: Fiat) {
    && j.(paid := i.paid, disbursed := i.disbursed) == i
    && (i.paid ==> j.paid) && (i.disbursed ==> j.disbursed)
  }

  /** Nothing takes an allowlist entry, a purchase or a paid status away. */
  ghost predicate Grows(p: Shop, q: Shop) {
    && q.users == p.users
    && p.store.allowlist <= q.store.allowlist && p.store.purchases <= q.store.purchases
    && p.store.commissions <= q.store.commissions
    && (forall uid :: uid in p.fiat ==> uid in q.fiat && FiatGrows(p.fiat[uid], q.fiat[uid]))
    && (forall uid :: uid in p.crypto && p.crypto[uid].status.Settled? ==>
          uid in q.crypto && q.crypto[uid] == p.crypto[uid])
  }

  /** Which writes come from which bodies. */
  lemma PlanKinds(op: Op, row: Option<Row>, a: Option<int>, b: Option<int>)
    requires Plan(op, row, a, b).Some?
    ensures forall w :: w in Plan(op, row, a, b).value ==>
      && (w.AddPurchase? || w.AddAllow? ==> op.PayOp?)
      && (w.AddCommission? ==> op.CommissionOp?)
      && (w.PutRow? ==> w.at in NewRows(op) || (IsAdmin(op) && row.Some? && w.at == op.id))
  {
  }

  lemma StoreGrows(s: Store, op: Op)
    ensures var t := Step(s, op);
      && s.purchases <= t.purchases && s.allowlist <= t.allowlist && s.commissions <= t.commissions
      && (!op.PayOp? ==> t.purchases == s.purchases && t.allowlist == s.allowlist)
      && (!op.CommissionOp? ==> t.commissions == s.commissions)
  {
    hide Plan, DoAll, ReadRow, ReadA, ReadB, FreshRows;
    if Writes(s, op).Some? {
      PlanKinds(op, ReadRow(s, op), ReadA(s, op), ReadB(s, op));
      Ledger.GrantsGrow(s, Writes(s, op).value);
    }
  }

  lemma {:induction false} DoAllRowsBelow(s: Store, ws: seq<Write>, n: RowId)
    requires forall id :: id in s.rows ==> id < n
    requires forall w :: w in ws && w.PutRow? ==> w.at < n
    ensures forall id :: id in DoAll(s, ws).rows ==> id < n
    decreases |ws|
  {
    if ws != [] {
      assert forall w :: w in ws[1..] ==> w in ws;
      assert ws[0] in ws;
      DoAllRowsBelow(Do(s, ws[0]), ws[1..], n);
    }
  }

  lemma StepRowsBelow(s: Store, op: Op, n: RowId)
    requires forall id :: id in s.rows || id in NewRows(op) ==> id < n
    ensures forall id :: id in Step(s, op).rows ==> id < n
  {
    hide Plan, DoAll, ReadA, ReadB, FreshRows;
    if Writes(s, op).Some? {
      PlanKinds(op, ReadRow(s, op), ReadA(s, op), ReadB(s, op));
      DoAllRowsBelow(s, Writes(s, op).value, n);
    }
  }

  lemma AfterSaleKeeps(p: Shop, buyer: UserId, owner: UserId, video: VideoId, price: I64, referrer: Option<UserId>,
                       invoice: Option<Uid>)
    ensures var q := AfterSale(p, buyer, owner, video, price, referrer, invoice);
      && q == p.(store := q.store, nextRow := q.nextRow)
      && q.store.purchases == p.store.purchases && q.store.allowlist == p.store.allowlist
      && p.store.commissions <= q.store.commissions
  {
    if referrer.Some? && video in p.programs {
      StoreGrows(p.store, CommissionOp(video, buyer, owner, referrer.value, price, p.programs[video].enabled,
                                       p.programs[video].pct, invoice, p.nextRow, p.nextRow + 1));
    }
  }

  /** The body of a first success up to its grants. */
  function Granted(p: Shop, c: Call): Shop
    requires Payable(p, c) && !c.Disburse?
  {
    if c.Webhook? then Grant(Marked(p, c), p.fiat[c.uid].buyer, p.fiat[c.uid].video, true, c.db)
    else Grant(Marked(p, c), p.crypto[c.uid].buyer, p.crypto[c.uid].video, false, c.db)
  }

  /** After the grants a body adds at most a commission and a payout. */
  lemma PaidShape(p: Shop, c: Call)
    requires Payable(p, c)
    ensures var q := Paid(p, c);
      && q.payouts == p.payouts + (if PaysOut(p, c) then [c.uid] else [])
      && (c.Disburse? ==> q == p.(fiat := p.fiat[c.uid := p.fiat[c.uid].(disbursed := true)], payouts := q.payouts))
      && (!c.Disburse? ==>
            var g := Granted(p, c);
            && q == g.(store := q.store, nextRow := q.nextRow, fiat := q.fiat, payouts := q.payouts)
            && q.store.purchases == g.store.purchases && q.store.allowlist == g.store.allowlist
            && g.store.commissions <= q.store.commissions
            && q.fiat == if PaysOut(p, c) then g.fiat[c.uid := g.fiat[c.uid].(disbursed := true)] else g.fiat)
  {
    hide Step;
    if c.Webhook? {
      var i := p.fiat[c.uid];
      AfterSaleKeeps(Granted(p, c), i.buyer, i.creator, i.video, i.amount, ReferrerOf(i.referrer, c.db), Some(c.uid));
    } else if c.Confirm? {
      var i := p.crypto[c.uid];
      AfterSaleKeeps(Granted(p, c), i.buyer, i.creator, i.video, i.price, ReferrerOf(i.referrer, c.db), Some(c.uid));
    }
  }

  lemma GrantKeeps(p: Shop, buyer: UserId, video: VideoId, allowEmptyName: bool, db: Db)
    ensures var q := Grant(p, buyer, video, allowEmptyName, db);
      && q == p.(store := p.store.(purchases := q.store.purchases, allowlist := q.store.allowlist))
      && p.store.purchases <= q.store.purchases && p.store.allowlist <= q.store.allowlist
  {
  }

  lemma OneFiatGrows(p: Shop, uid: Uid, j: Fiat)
    requires uid in p.fiat && FiatGrows(p.fiat[uid], j)
    ensures Grows(p, p.(fiat := p.fiat[uid := j]))
  {
  }

  lemma OneCryptoGrows(p: Shop, uid: Uid, j: Crypto)
    requires uid in p.crypto && !p.crypto[uid].status.Settled?
    ensures Grows(p, p.(crypto := p.crypto[uid := j]))
  {
  }

  lemma MarkedGrows(p: Shop, c: Call)
    requires Succeeds(p, c) && !c.Disburse?
    ensures Grows(p, Marked(p, c)) && Marked(p, c) == p.(fiat := Marked(p, c).fiat, crypto := Marked(p, c).crypto)
    ensures Marked(p, c).fiat.Keys == p.fiat.Keys
  {
    if !c.db.mark {
    } else if c.Webhook? {
      OneFiatGrows(p, c.uid, p.fiat[c.uid].(paid := true));
    } else {
      OneCryptoGrows(p, c.uid, Marked(p, c).crypto[c.uid]);
    }
    hide Payable, Succeeds, PaidEventOf;
  }

  lemma GrantedGrows(p: Shop, c: Call)
    requires Succeeds(p, c) && !c.Disburse?
    ensures Grows(p, Granted(p, c)) && Granted(p, c).payouts == p.payouts
    ensures Granted(p, c).fiat.Keys == p.fiat.Keys
  {
    MarkedGrows(p, c);
    var m := Marked(p, c);
    if c.Webhook? {
      GrantKeeps(m, p.fiat[c.uid].buyer, p.fiat[c.uid].video, true, c.db);
    } else {
      GrantKeeps(m, p.crypto[c.uid].buyer, p.crypto[c.uid].video, false, c.db);
    }
    hide Marked, Grant, Succeeds, FiatGrows;
  }

  lemma GrowsTwice(p: Shop, q: Shop, r: Shop)
    requires Grows(p, q) && Grows(q, r)
    ensures Grows(p, r)
  {
    forall uid | uid in p.fiat ensures uid in r.fiat && FiatGrows(p.fiat[uid], r.fiat[uid]) {
      assert FiatGrows(p.fiat[uid], q.fiat[uid]) && FiatGrows(q.fiat[uid], r.fiat[uid]);
    }
    hide FiatGrows;
  }

  /** A commission row and a stamp for a payout. */
  lemma TailGrows(p: Shop, q: Shop, uid: Uid, out: bool)
    requires q == p.(store := q.store, nextRow := q.nextRow, fiat := q.fiat, payouts := q.payouts)
    requires q.store.purchases == p.store.purchases && q.store.allowlist == p.store.allowlist
    requires p.store.commissions <= q.store.commissions && (out ==> uid in p.fiat)
    requires q.fiat == if out then p.fiat[uid := p.fiat[uid].(disbursed := true)] else p.fiat
    ensures Grows(p, q)
  {
  }

  lemma PaidGrows(p: Shop, c: Call)
    requires Succeeds(p, c)
    ensures Grows(p, Paid(p, c))
  {
    assert Payable(p, c) && (PaysOut(p, c) || c.Disburse? ==> c.uid in p.fiat);
    PaidShape(p, c);
    hide *;
    var q := Paid(p, c);
    if c.Disburse? {
      TailGrows(p, q, c.uid, true);
    } else {
      GrantedGrows(p, c);
      TailGrows(Granted(p, c), q, c.uid, PaysOut(p, c));
      GrowsTwice(p, Granted(p, c), q);
    }
  }

  lemma BuyGrows(p: Shop, c: Call)
    requires c.Buy? && BuySucceeds(p, c)
    ensures Grows(p, StepCall(p, c))
  {
    var q := p.(store := Step(p.store, BuyOp(p, c)), nextRow := p.nextRow + 2);
    StoreGrows(p.store, BuyOp(p, c));
    AfterSaleKeeps(q, c.buyer, p.videos[c.video].owner, c.video, p.videos[c.video].price, c.referrer, None);
  }

  lemma RecordedGrows(p: Shop, c: Call)
    ensures Grows(p, Recorded(p, c))
  {
    hide PaidEventOf;
    if Recorded(p, c) != p { OneCryptoGrows(p, c.uid, Recorded(p, c).crypto[c.uid]); }
  }

  lemma QuietGrows(p: Shop, c: Call)
    requires !Succeeds(p, c) && !c.Confirm? && !c.WalletCall? && (c.Buy? ==> !BuySucceeds(p, c))
    ensures Grows(p, StepCall(p, c))
  {
    hide Payable, BuySucceeds, Paid, Step, AfterSale;
  }

  lemma CallGrows(p: Shop, c: Call)
    ensures Grows(p, StepCall(p, c))
  {
    assert Succeeds(p, c) ==> IsReplayable(c) && StepCall(p, c) == Paid(p, c);
    assert c.Confirm? && !Succeeds(p, c) ==> StepCall(p, c) == Recorded(p, c);
    assert c.WalletCall? ==>
        StepCall(p, c) in {p, p.(store := Step(p.store, c.op), nextRow := p.nextRow + 2)}
        && (StepCall(p, c) != p ==> !c.op.PayOp? && !c.op.CommissionOp?);
    hide Succeeds, StepCall, Step, Paid, Recorded, Payable, BuySucceeds;
    if Succeeds(p, c) { PaidGrows(p, c); }
    else if c.Confirm? { RecordedGrows(p, c); }
    else if c.WalletCall? { StoreGrows(p.store, c.op); }
    else if c.Buy? && BuySucceeds(p, c) { BuyGrows(p, c); }
    else { QuietGrows(p, c); }
  }

  lemma {:induction false} RunGrows(p: Shop, cs: seq<Call>)
    ensures Grows(p, RunCalls(p, cs))
    decreases |cs|
  {
    if cs != [] {
      RunGrows(p, cs[..|cs| - 1]);
      CallGrows(RunCalls(p, cs[..|cs| - 1]), cs[|cs| - 1]);
    }
  }

  lemma EntitlementLasts(p: Shop, cs: seq<Call>, video: VideoId, user: UserId)
    requires Entitled(p, video, user)
    ensures Entitled(RunCalls(p, cs), video, user)
    ensures ViewAccess(RunCalls(p, cs), video, user)
  {
    RunGrows(p, cs);
    var q := RunCalls(p, cs);
    if HasPaidFiat(p, video, user) {
      var uid :| uid in p.fiat && p.fiat[uid].video == video && p.fiat[uid].buyer == user && p.fiat[uid].paid;
      assert FiatGrows(p.fiat[uid], q.fiat[uid]);
    }
    EntitledMaySee(q, video, user);
  }

  /** Call c is a payment by `user` for `video` that goes through. */
  ghost predicate PaysFor(p: Shop, c: Call, user: UserId, video: VideoId) {
    match c
    case Buy(buyer, v, _, _) => BuySucceeds(p, c) && buyer == user && v == video
    case Webhook(uid, _, _, _, _) => Succeeds(p, c) && p.fiat[uid].buyer == user && p.fiat[uid].video == video
    case Confirm(uid, _, _, _, _) => Succeeds(p, c) && p.crypto[uid].buyer == user && p.crypto[uid].video == video
    case _ => false
  }

  lemma SaleAdds(s: Store, op: Op)
    requires op.PayOp? && Writes(s, op).Some?
    ensures Step(s, op).purchases == s.purchases + {(op.user, op.video)}
    ensures Step(s, op).allowlist == s.allowlist + if op.username == "" then {} else {(op.video, op.username)}
  {
    Handlers.PayWrites(s, op);
    hide Step, DoAll;
  }

  lemma BuyGrants(p: Shop, c: Call)
    requires c.Buy? && BuySucceeds(p, c)
    ensures StepCall(p, c).store.purchases == p.store.purchases + {(c.buyer, c.video)}
    ensures StepCall(p, c).store.allowlist
            == p.store.allowlist + if NameOf(p, c.buyer) == "" then {} else {(c.video, NameOf(p, c.buyer))}
  {
    var op := BuyOp(p, c);
    SaleAdds(p.store, op);
    hide Step, AfterSale;
    AfterSaleKeeps(p.(store := Step(p.store, op), nextRow := p.nextRow + 2), c.buyer, p.videos[c.video].owner, c.video,
                   p.videos[c.video].price, c.referrer, None);
  }

  /** What a first successful webhook or confirmation grants: each row whose statement takes effect. */
  lemma PaidGrants(p: Shop, c: Call)
    requires Succeeds(p, c)
    ensures var t := Paid(p, c).store;
      match c
      case Webhook(uid, _, _, _, db) =>
        var (u, v) := (p.fiat[uid].buyer, p.fiat[uid].video);
        && t.purchases == p.store.purchases + (if IsBlocked(p, u, v) || !db.purchase then {} else {(u, v)})
        && t.allowlist == p.store.allowlist + (if db.allow then {(v, NameOf(p, u))} else {})
      case Confirm(uid, _, _, _, db) =>
        var (u, v) := (p.crypto[uid].buyer, p.crypto[uid].video);
        && t.purchases == p.store.purchases + (if IsBlocked(p, u, v) || !db.purchase then {} else {(u, v)})
        && t.allowlist == p.store.allowlist + (if NameOf(p, u) == "" || !db.allow then {} else {(v, NameOf(p, u))})
      case _ => t == p.store
  {
    PaidShape(p, c);
    if !c.Disburse? { GrantedRows(p, c); }
    hide Paid, Granted, IsBlocked, NameOf, PaysOut;
  }

  lemma GrantedRows(p: Shop, c: Call)
    requires Succeeds(p, c) && !c.Disburse?
    ensures var (u, v) := if c.Webhook? then (p.fiat[c.uid].buyer, p.fiat[c.uid].video)
                          else (p.crypto[c.uid].buyer, p.crypto[c.uid].video);
      var g := Granted(p, c).store;
      && g.purchases == p.store.purchases + (if IsBlocked(p, u, v) || !c.db.purchase then {} else {(u, v)})
      && g.allowlist == p.store.allowlist
           + (if (c.Confirm? && NameOf(p, u) == "") || !c.db.allow then {} else {(v, NameOf(p, u))})
  {
  }

  /** users.username is NOT NULL, and registration refuses a blank one. */
  predicate Named(p: Shop) {
    forall u :: u in p.users ==> p.users[u].name != ""
  }

  /** Some statement of the call that leads to access takes effect. */
  predicate GrantTakesEffect(p: Shop, c: Call, user: UserId, video: VideoId) {
    c.Buy? || ((c.Webhook? || c.Confirm?) &&
               ((c.Webhook? && c.db.mark) || (c.db.purchase && !IsBlocked(p, user, video)) || c.db.allow))
  }

  /**
   * A wallet purchase entitles its buyer in its own transaction. A webhook or a confirmation does exactly when one of
   * the statements that lead to access takes effect, or the buyer was entitled already; for a webhook its paid mark is
   * one of them, for a confirmation it is not.
   */
  lemma PaymentEntitles(p: Shop, c: Call, user: UserId, video: VideoId)
    requires PaysFor(p, c, user, video) && user in p.users && Named(p)
    ensures Entitled(StepCall(p, c), video, user) <==> GrantTakesEffect(p, c, user, video) || Entitled(p, video, user)
  {
    CallGrows(p, c);
    hide Step, AfterSale;
    if c.Buy? {
      BuyGrants(p, c);
    } else {
      PaidGrants(p, c);
      PaidShape(p, c);
      hide Paid;
      if c.Webhook? && c.db.mark {
        assert HasPaidFiat(Paid(p, c), video, user) by { assert Paid(p, c).fiat[c.uid].paid; }
      }
      if Entitled(p, video, user) { EntitledStays(p, c, video, user); }
      if HasPaidFiat(Paid(p, c), video, user) && !(c.Webhook? && c.db.mark) { PaidBefore(p, c, video, user); }
    }
  }

  lemma PaidBefore(p: Shop, c: Call, video: VideoId, user: UserId)
    requires Succeeds(p, c) && !(c.Webhook? && c.db.mark) && HasPaidFiat(Paid(p, c), video, user)
    ensures HasPaidFiat(p, video, user)
  {
    PaidShape(p, c);
    hide Paid;
    var q := Paid(p, c);
    var uid :| uid in q.fiat && q.fiat[uid].video == video && q.fiat[uid].buyer == user && q.fiat[uid].paid;
    assert uid in p.fiat && p.fiat[uid].video == video && p.fiat[uid].buyer == user && p.fiat[uid].paid;
  }

  lemma EntitledStays(p: Shop, c: Call, video: VideoId, user: UserId)
    requires Entitled(p, video, user)
    ensures Entitled(StepCall(p, c), video, user)
  {
    assert [c][..0] == [];
    assert RunCalls(p, [c]) == StepCall(RunCalls(p, []), c);
    EntitlementLasts(p, [c], video, user);
  }

  /** From then on the buyer may watch, whatever happens later. */
  lemma PaidAccessLasts(p: Shop, c: Call, later: seq<Call>, user: UserId, video: VideoId)
    requires PaysFor(p, c, user, video) && user in p.users && Named(p) && GrantTakesEffect(p, c, user, video)
    ensures ViewAccess(RunCalls(StepCall(p, c), later), video, user)
  {
    PaymentEntitles(p, c, user, video);
    EntitlementLasts(StepCall(p, c), later, video, user);
  }

  /**
   * A confirmation that is marked as paid while neither grant takes effect gives nothing, and no later confirmation of
   * that invoice, with whatever receipt, makes up for it.
   */
  lemma LostGrantStaysLost(p: Shop, c: Call, later: seq<Call>, d: Call)
    requires c.Confirm? && Succeeds(p, c) && c.db.mark && d.Confirm? && d.uid == c.uid
    requires !c.db.allow && (!c.db.purchase || IsBlocked(p, p.crypto[c.uid].buyer, p.crypto[c.uid].video))
    ensures StepCall(p, c).store.purchases == p.store.purchases && StepCall(p, c).store.allowlist == p.store.allowlist
    ensures var q := RunCalls(StepCall(p, c), later); StepCall(q, d) == q
  {
    PaidGrants(p, c);
    PaidShape(p, c);
    hide Paid;
    RunGrows(StepCall(p, c), later);
  }

  // ---- entitlement has a cause ----

  ghost predicate ListsName(p: Shop, c: Call, video: VideoId, name: string) {
    || (c.Allow? && c.video == video && c.name == name && video in p.videos && p.videos[video].owner == c.caller)
    || exists user :: PaysFor(p, c, user, video) && NameOf(p, user) == name
  }

  lemma EntriesHaveCause(p: Shop, c: Call)
    ensures forall user, video ::
      (user, video) in StepCall(p, c).store.purchases - p.store.purchases ==> PaysFor(p, c, user, video)
    ensures forall video, name ::
      (video, name) in StepCall(p, c).store.allowlist - p.store.allowlist ==> ListsName(p, c, video, name)
  {
    hide Step, Paid;
    if Succeeds(p, c) {
      PaidGrants(p, c);
      if c.Webhook? { assert PaysFor(p, c, p.fiat[c.uid].buyer, p.fiat[c.uid].video); }
      if c.Confirm? { assert PaysFor(p, c, p.crypto[c.uid].buyer, p.crypto[c.uid].video); }
    } else if c.Buy? && BuySucceeds(p, c) {
      BuyGrants(p, c);
      assert PaysFor(p, c, c.buyer, c.video);
    } else if c.WalletCall? {
      StoreGrows(p.store, c.op);
    }
  }

  /** Every purchase row that a run leaves behind was there before, or was paid for at some point of the run. */
  lemma {:induction false} PurchasesWerePaid(p: Shop, cs: seq<Call>, user: UserId, video: VideoId) returns (i: nat)
    requires (user, video) in RunCalls(p, cs).store.purchases - p.store.purchases
    ensures i < |cs| && PaysFor(RunCalls(p, cs[..i]), cs[i], user, video)
    decreases |cs|
  {
    var n := |cs| - 1;
    var q := RunCalls(p, cs[..n]);
    if (user, video) in q.store.purchases {
      i := PurchasesWerePaid(p, cs[..n], user, video);
      assert cs[..n][..i] == cs[..i];
    } else {
      EntriesHaveCause(q, cs[n]);
      i := n;
    }
  }

  /** Every allowlist entry was there before, was granted by the video's owner, or was paid for. */
  lemma {:induction false} EntriesWereGranted(p: Shop, cs: seq<Call>, video: VideoId, name: string) returns (i: nat)
    requires (video, name) in RunCalls(p, cs).store.allowlist - p.store.allowlist
    ensures i < |cs| && ListsName(RunCalls(p, cs[..i]), cs[i], video, name)
    decreases |cs|
  {
    var n := |cs| - 1;
    var q := RunCalls(p, cs[..n]);
    if (video, name) in q.store.allowlist {
      i := EntriesWereGranted(p, cs[..n], video, name);
      assert cs[..n][..i] == cs[..i];
    } else {
      EntriesHaveCause(q, cs[n]);
      i := n;
    }
  }

  // ---- replays ----

  predicate IsReplayable(c: Call) {
    c.Webhook? || c.Confirm? || c.Disburse?
  }

  /** Equal but for what underpaid confirmations write down. */
  ghost predicate Alike(p: Shop, q: Shop) {
    && q == p.(crypto := q.crypto)
    && p.crypto.Keys == q.crypto.Keys
    && forall uid :: uid in p.crypto ==> SameTerms(p.crypto[uid], q.crypto[uid])
  }

  ghost predicate SameTerms(i: Crypto, j: Crypto) {
    j == i.(status := j.status, tx := j.tx, received := j.received) && (i.status.Settled? <==> j.status.Settled?)
  }

  /** The calls that succeeded, in order. */
  ghost function Successes(p: Shop, cs: seq<Call>): seq<Call>
    decreases |cs|
  {
    if cs == [] then [] else
    var (prior, c) := (cs[..|cs| - 1], cs[|cs| - 1]);
    Successes(p, prior) + if Succeeds(RunCalls(p, prior), c) then [c] else []
  }

  lemma AlikeSucceed(p: Shop, q: Shop, c: Call)
    requires Alike(p, q) && IsReplayable(c)
    ensures Succeeds(p, c) == Succeeds(q, c)
  {
    if c.Confirm? && c.uid in p.crypto { assert SameTerms(p.crypto[c.uid], q.crypto[c.uid]); }
  }

  lemma AfterSaleIgnoresCrypto(p: Shop, crypto: map<Uid, Crypto>, buyer: UserId, owner: UserId, video: VideoId,
                               price: I64, referrer: Option<UserId>, invoice: Option<Uid>)
    ensures AfterSale(p.(crypto := crypto), buyer, owner, video, price, referrer, invoice)
            == AfterSale(p, buyer, owner, video, price, referrer, invoice).(crypto := crypto)
  {
    hide Step;
  }

  lemma AlikePaid(p: Shop, q: Shop, c: Call)
    requires Alike(p, q) && Succeeds(p, c) && Succeeds(q, c)
    ensures Alike(Paid(p, c), Paid(q, c))
  {
    if c.Webhook? { AlikeHooked(p, q, c); } else if c.Confirm? { AlikeConfirmed(p, q, c); }
  }

  lemma AlikeHooked(p: Shop, q: Shop, c: Call)
    requires Alike(p, q) && c.Webhook? && Succeeds(p, c)
    ensures Payable(q, c) && Paid(q, c) == Paid(p, c).(crypto := q.crypto) && Paid(p, c).crypto == p.crypto
  {
    var i, r := p.fiat[c.uid], ReferrerOf(p.fiat[c.uid].referrer, c.db);
    var granted := Granted(p, c);
    assert Granted(q, c) == granted.(crypto := q.crypto) && granted.crypto == p.crypto;
    assert PaysOut(q, c) == PaysOut(p, c);
    hide Succeeds, CreatorHasBank;
    AfterSaleKeeps(granted, i.buyer, i.creator, i.video, i.amount, r, Some(c.uid));
    AfterSaleIgnoresCrypto(granted, q.crypto, i.buyer, i.creator, i.video, i.amount, r, Some(c.uid));
    hide Step, AfterSale, Grant, Marked, PaysOut;
  }

  lemma AlikeConfirmed(p: Shop, q: Shop, c: Call)
    requires Alike(p, q) && c.Confirm? && Succeeds(p, c) && Succeeds(q, c)
    ensures Alike(Paid(p, c), Paid(q, c))
  {
    var i, r := p.crypto[c.uid], ReferrerOf(p.crypto[c.uid].referrer, c.db);
    var granted, other := Granted(p, c), Granted(q, c);
    AlikeGranted(p, q, c);
    AfterSaleKeeps(granted, i.buyer, i.creator, i.video, i.price, r, Some(c.uid));
    AfterSaleIgnoresCrypto(granted, other.crypto, i.buyer, i.creator, i.video, i.price, r, Some(c.uid));
    assert SameTerms(i, q.crypto[c.uid]);
    assert Paid(p, c) == AfterSale(granted, i.buyer, i.creator, i.video, i.price, r, Some(c.uid));
    assert Paid(q, c) == AfterSale(other, i.buyer, i.creator, i.video, i.price, r, Some(c.uid));
    hide Step, AfterSale, Granted, Paid, SameTerms, Payable, Succeeds;
    assert other == granted.(crypto := other.crypto);
  }

  lemma AlikeMarked(p: Shop, q: Shop, c: Call)
    requires Alike(p, q) && c.Confirm? && Succeeds(p, c) && Succeeds(q, c)
    ensures Alike(Marked(p, c), Marked(q, c))
  {
    assert SameTerms(p.crypto[c.uid], q.crypto[c.uid]);
  }

  lemma AlikeGranted(p: Shop, q: Shop, c: Call)
    requires Alike(p, q) && c.Confirm? && Succeeds(p, c) && Succeeds(q, c)
    ensures Alike(Granted(p, c), Granted(q, c))
  {
    AlikeMarked(p, q, c);
    assert SameTerms(p.crypto[c.uid], q.crypto[c.uid]);
    hide Marked, Succeeds, SameTerms;
  }

  lemma FailureIsHarmless(p: Shop, c: Call)
    requires IsReplayable(c) && !Succeeds(p, c)
    ensures Alike(p, StepCall(p, c))
  {
  }

  /** A webhook or confirmation of the same invoice. */
  predicate SameTarget(c: Call, d: Call) {
    (c.Webhook? && d.Webhook? && c.uid == d.uid) || (c.Confirm? && d.Confirm? && c.uid == d.uid)
  }

  /** The invoice of a webhook or confirmation is marked as paid. */
  predicate IsSpent(p: Shop, c: Call) {
    || (c.Webhook? && c.uid in p.fiat && p.fiat[c.uid].paid)
    || (c.Confirm? && c.uid in p.crypto && p.crypto[c.uid].status.Settled?)
  }

  lemma SpentStays(p: Shop, c: Call, d: Call)
    requires IsSpent(p, d)
    ensures IsSpent(StepCall(p, c), d)
  {
    CallGrows(p, c);
    hide StepCall;
    if d.Webhook? { assert FiatGrows(p.fiat[d.uid], StepCall(p, c).fiat[d.uid]); }
  }

  lemma MarkSpends(p: Shop, c: Call)
    requires Succeeds(p, c) && !c.Disburse? && c.db.mark
    ensures IsSpent(StepCall(p, c), c)
  {
    PaidShape(p, c);
    hide Paid;
  }

  /** Every marked success of a run leaves its invoice spent. */
  lemma {:induction false} SuccessesAreSpent(p: Shop, cs: seq<Call>)
    ensures forall d :: d in Successes(p, cs) && !d.Disburse? ==>
              (d.Webhook? || d.Confirm?) && (d.db.mark ==> IsSpent(RunCalls(p, cs), d))
    decreases |cs|
  {
    if cs != [] {
      var prior, c := cs[..|cs| - 1], cs[|cs| - 1];
      SuccessesAreSpent(p, prior);
      var q := RunCalls(p, prior);
      assert Succeeds(q, c) ==> IsReplayable(c);
      if Succeeds(q, c) && !c.Disburse? && c.db.mark { MarkSpends(q, c); }
      hide StepCall, Succeeds, IsSpent;
      forall d | d in Successes(p, prior) && !d.Disburse? && d.db.mark ensures IsSpent(RunCalls(p, cs), d) {
        SpentStays(q, c, d);
      }
    }
  }

  /** No success comes after a marked one for the same invoice. */
  ghost predicate FirstsOnly(cs: seq<Call>) {
    forall i, j :: 0 <= i < j < |cs| && SameTarget(cs[i], cs[j]) ==> !cs[i].db.mark
  }

  lemma {:induction false} SuccessesAreFirsts(p: Shop, cs: seq<Call>)
    ensures FirstsOnly(Successes(p, cs))
    decreases |cs|
  {
    if cs != [] {
      var prior, c := cs[..|cs| - 1], cs[|cs| - 1];
      SuccessesAreFirsts(p, prior);
      SuccessesAreSpent(p, prior);
      var q, kept := RunCalls(p, prior), Successes(p, prior);
      if Succeeds(q, c) {
        assert forall d :: IsSpent(q, d) ==> !SameTarget(d, c);
        hide Succeeds, IsSpent;
        assert forall i :: 0 <= i < |kept| ==> kept[i] in kept && (kept + [c])[i] == kept[i];
      }
    }
  }

  /**
   * Running all webhooks, confirmations and disbursements leaves what those that succeeded alone would leave; among
   * these, nothing comes after the first marked success of an invoice but disbursements.
   */
  lemma {:induction false} ReplaysChangeNothing(p: Shop, cs: seq<Call>)
    requires forall c :: c in cs ==> IsReplayable(c)
    ensures Alike(RunCalls(p, cs), RunCalls(p, Successes(p, cs)))
    ensures RunCalls(p, cs).store == RunCalls(p, Successes(p, cs)).store
    ensures RunCalls(p, cs).payouts == RunCalls(p, Successes(p, cs)).payouts
    ensures FirstsOnly(Successes(p, cs))
    decreases |cs|
  {
    SuccessesAreFirsts(p, cs);
    hide FirstsOnly;
    if cs != [] {
      var prior, c := cs[..|cs| - 1], cs[|cs| - 1];
      ReplaysChangeNothing(p, prior);
      var q, r, kept := RunCalls(p, prior), RunCalls(p, Successes(p, prior)), Successes(p, prior);
      hide Paid, Step;
      if Succeeds(q, c) {
        AlikeSucceed(q, r, c);
        AlikePaid(q, r, c);
        assert (kept + [c])[..|kept|] == kept;
      } else {
        FailureIsHarmless(q, c);
        assert kept + [] == kept;
      }
    }
  }

  /** After a first success that was marked, no later webhook or confirmation of the invoice succeeds. */
  lemma SuccessIsFinal(p: Shop, c: Call, later: seq<Call>, d: Call)
    requires Succeeds(p, c) && SameTarget(c, d) && c.db.mark
    ensures !Succeeds(RunCalls(StepCall(p, c), later), d)
  {
    PaidShape(p, c);
    RunGrows(StepCall(p, c), later);
    hide Paid;
    var q, r := StepCall(p, c), RunCalls(StepCall(p, c), later);
    if c.Webhook? { assert FiatGrows(q.fiat[c.uid], r.fiat[c.uid]); }
  }

  /** The mark is what it takes: repeated at once, the same call is a replay exactly when the mark took effect. */
  lemma ReplayExactlyWhenMarked(p: Shop, c: Call)
    requires Succeeds(p, c) && !c.Disburse?
    ensures Succeeds(StepCall(p, c), c) <==> !c.db.mark
  {
    PaidShape(p, c);
    hide Paid;
  }

  /** A disbursement has no such guard: once it has succeeded, the same call always succeeds again. */
  lemma DisbursesAgain(p: Shop, c: Call, later: seq<Call>)
    requires c.Disburse? && Succeeds(p, c)
    ensures var q := RunCalls(StepCall(p, c), later);
      Succeeds(q, c) && StepCall(q, c).payouts == q.payouts + [c.uid]
  {
    PaidShape(p, c);
    RunGrows(StepCall(p, c), later);
    hide Paid;
    var q, r := StepCall(p, c), RunCalls(StepCall(p, c), later);
    assert FiatGrows(q.fiat[c.uid], r.fiat[c.uid]);
    PaidShape(r, c);
  }

  lemma {:induction false} RunSplit(p: Shop, cs: seq<Call>, i: nat)
    requires i <= |cs|
    ensures RunCalls(p, cs) == RunCalls(RunCalls(p, cs[..i]), cs[i..])
    decreases |cs|
  {
    if i == |cs| {
      assert cs[..i] == cs;
    } else {
      var prior, tail := cs[..|cs| - 1], cs[i..];
      assert tail[|tail| - 1] == cs[|cs| - 1] && tail[..|tail| - 1] == prior[i..];
      assert prior[..i] == cs[..i];
      RunSplit(p, prior, i);
    }
  }

  /** So an invoice has at most one marked success among the webhooks and confirmations of any run, and it is the
      last. */
  lemma SuccessesAreUnique(p: Shop, cs: seq<Call>, i: nat, j: nat)
    requires i < j < |cs| && SameTarget(cs[i], cs[j]) && cs[i].db.mark
    requires Succeeds(RunCalls(p, cs[..i]), cs[i])
    ensures !Succeeds(RunCalls(p, cs[..j]), cs[j])
  {
    var done := cs[..i + 1];
    assert done[..i] == cs[..i];
    assert cs[..j][..i + 1] == done;
    hide Succeeds, StepCall;
    RunSplit(p, cs[..j], i + 1);
    SuccessIsFinal(RunCalls(p, cs[..i]), cs[i], cs[..j][i + 1..], cs[j]);
  }

  // ---- one commission per invoice ----

  ghost predicate InvoicePaid(p: Shop, uid: Uid) {
    (uid in p.fiat && p.fiat[uid].paid) || (uid in p.crypto && p.crypto[uid].status.Settled?)
  }

  predicate HasCommission(p: Shop, uid: Uid) {
    exists r :: r in p.store.commissions && r.invoice == Some(uid)
  }

  predicate OnceEach(rows: seq<CommissionRow>) {
    forall i, j :: 0 <= i < j < |rows| && rows[i].invoice.Some? ==> rows[i].invoice != rows[j].invoice
  }

  ghost predicate OneCommissionEach(p: Shop) {
    && p.fiat.Keys !! p.crypto.Keys
    && (forall r :: r in p.store.commissions && r.invoice.Some? ==> InvoicePaid(p, r.invoice.value))
    && OnceEach(p.store.commissions)
  }

  /** `now` is `was`, or has one more row, for the invoice. */
  predicate OneMoreRow(was: seq<CommissionRow>, now: seq<CommissionRow>, invoice: Option<Uid>) {
    now == was || (|now| == |was| + 1 && now[..|was|] == was && now[|was|].invoice == invoice)
  }

  /** A commission that commits adds the one audit row that names it. */
  lemma CommissionAdds(s: Store, op: Op)
    requires op.CommissionOp? && Writes(s, op).Some?
    ensures Step(s, op).commissions == s.commissions +
            [CommissionRow(op.video, op.affiliate, op.user, op.owner, op.price, CommissionCents(op.price, op.pct),
                           op.invoice)]
  {
    Handlers.CommissionStores(s, op);
    hide Step, DoAll;
  }

  lemma AfterSaleCommissions(p: Shop, buyer: UserId, owner: UserId, video: VideoId, price: I64,
                             referrer: Option<UserId>, invoice: Option<Uid>)
    ensures OneMoreRow(p.store.commissions,
                       AfterSale(p, buyer, owner, video, price, referrer, invoice).store.commissions, invoice)
  {
    var sale := SaleCommission(p, buyer, owner, video, price, referrer, invoice);
    hide Writes;
    if sale.Some? && Writes(p.store, sale.value).Some? { CommissionAdds(p.store, sale.value); }
    hide DoAll;
  }

  lemma PaidCommissions(p: Shop, c: Call)
    requires Payable(p, c)
    ensures OneMoreRow(p.store.commissions, Paid(p, c).store.commissions, Some(c.uid))
    ensures c.Disburse? ==> Paid(p, c).store == p.store
  {
    hide OneMoreRow, AfterSale;
    if c.Webhook? {
      var i := p.fiat[c.uid];
      AfterSaleCommissions(Granted(p, c), i.buyer, i.creator, i.video, i.amount, ReferrerOf(i.referrer, c.db),
                           Some(c.uid));
    } else if c.Confirm? {
      var i := p.crypto[c.uid];
      AfterSaleCommissions(Granted(p, c), i.buyer, i.creator, i.video, i.price, ReferrerOf(i.referrer, c.db),
                           Some(c.uid));
    } else {
      NoMoreRow(p.store.commissions, Some(c.uid));
    }
  }

  lemma NoMoreRow(rows: seq<CommissionRow>, invoice: Option<Uid>)
    ensures OneMoreRow(rows, rows, invoice)
  {
  }

  /** The commission that a body attempts after its grants. */
  function CommissionOf(p: Shop, c: Call): Option<Op>
    requires Payable(p, c)
  {
    match c
    case Webhook(uid, _, _, _, db) =>
      var i := p.fiat[uid];
      SaleCommission(p, i.buyer, i.creator, i.video, i.amount, ReferrerOf(i.referrer, db), Some(uid))
    case Confirm(uid, _, _, _, db) =>
      var i := p.crypto[uid];
      SaleCommission(p, i.buyer, i.creator, i.video, i.price, ReferrerOf(i.referrer, db), Some(uid))
    case _ => None
  }

  /** An enabled program, an existing third party as affiliate, at least one cent, and an owner who can pay it. */
  predicate IsDue(balances: map<UserId, int>, sale: Option<Op>) {
    sale.Some? && sale.value.CommissionOp? &&
    var op := sale.value;
    && op.enabled && op.price * op.pct >= 100 && op.affiliate != op.user && op.affiliate != op.owner
    && op.affiliate in balances && CommissionCents(op.price, op.pct) <= Lookup(balances, op.owner).GetOr(0)
  }

  predicate PaysCommission(p: Shop, c: Call)
    requires Payable(p, c)
  {
    IsDue(p.store.balances, CommissionOf(p, c))
  }

  /** Row ids are drawn from a sequence. */
  ghost predicate RowsBelow(p: Shop) {
    forall id :: id in p.store.rows ==> id < p.nextRow
  }

  lemma AfterSaleAdds(p: Shop, buyer: UserId, owner: UserId, video: VideoId, price: I64, referrer: Option<UserId>,
                      invoice: Option<Uid>)
    requires RowsBelow(p)
    ensures var (q, sale) := (AfterSale(p, buyer, owner, video, price, referrer, invoice),
                              SaleCommission(p, buyer, owner, video, price, referrer, invoice));
      RowsBelow(q) && (q.store.commissions != p.store.commissions <==> IsDue(p.store.balances, sale))
  {
    var sale := SaleCommission(p, buyer, owner, video, price, referrer, invoice);
    if sale.Some? {
      var op := sale.value;
      Effects.CommissionCommitsExactlyWhen(p.store, op);
      StepRowsBelow(p.store, op, p.nextRow + 2);
      hide Writes, FreshRows;
      if Writes(p.store, op).Some? { CommissionAdds(p.store, op); }
      hide DoAll;
    }
  }

  /** Granting moves no money and writes no ledger row. */
  lemma GrantedFrame(p: Shop, c: Call)
    requires Payable(p, c) && !c.Disburse?
    ensures var g := Granted(p, c);
      && g.programs == p.programs && g.nextRow == p.nextRow && g.store.balances == p.store.balances
      && g.store.rows == p.store.rows && g.store.commissions == p.store.commissions
  {
    hide Payable, PaidEventOf;
  }

  lemma PaidAdds(p: Shop, c: Call)
    requires Payable(p, c) && RowsBelow(p)
    ensures RowsBelow(Paid(p, c))
    ensures Paid(p, c).store.commissions != p.store.commissions <==> PaysCommission(p, c)
  {
    assert !IsDue(p.store.balances, None);
    assert !c.Disburse? ==> c.Webhook? || c.Confirm?;
    if !c.Disburse? { GrantedFrame(p, c); }
    if c.Webhook? {
      var i := p.fiat[c.uid];
      AfterSaleAdds(Granted(p, c), i.buyer, i.creator, i.video, i.amount, ReferrerOf(i.referrer, c.db), Some(c.uid));
    } else if c.Confirm? {
      var i := p.crypto[c.uid];
      AfterSaleAdds(Granted(p, c), i.buyer, i.creator, i.video, i.price, ReferrerOf(i.referrer, c.db), Some(c.uid));
    }
    hide AfterSale, IsDue, Grant, Marked, Payable, PaysOut, ReferrerOf;
  }

  /**
   * A body that got past its guard, no matter how long ago, keeps one commission per invoice exactly when its invoice
   * has no commission yet, or the sale earns none. The guard is what makes sure; two calls that both read it first are
   * not stopped.
   */
  lemma LateCommission(p: Shop, c: Call)
    requires Payable(p, c) && OnceEach(p.store.commissions) && RowsBelow(p)
    ensures OnceEach(Paid(p, c).store.commissions) <==> !(HasCommission(p, c.uid) && PaysCommission(p, c))
  {
    PaidCommissions(p, c);
    PaidAdds(p, c);
    var was, now := p.store.commissions, Paid(p, c).store.commissions;
    if now != was { OneMoreOnce(was, now, c.uid); }
    hide Paid, Payable, OnceEach;
  }

  lemma OneMoreOnce(was: seq<CommissionRow>, now: seq<CommissionRow>, uid: Uid)
    requires OnceEach(was) && |now| == |was| + 1 && now[..|was|] == was && now[|was|].invoice == Some(uid)
    ensures OnceEach(now) <==> !exists r :: r in was && r.invoice == Some(uid)
  {
    assert forall i :: 0 <= i < |was| ==> now[i] == was[i] && was[i] in was;
    if r :| r in was && r.invoice == Some(uid) {
      var i :| 0 <= i < |was| && was[i] == r;
      assert now[i].invoice == now[|was|].invoice;
    }
  }

  lemma MoreCommissions(p: Shop, q: Shop, invoice: Option<Uid>)
    requires OneCommissionEach(p) && q.fiat.Keys !! q.crypto.Keys
    requires forall uid :: InvoicePaid(p, uid) ==> InvoicePaid(q, uid)
    requires invoice.Some? ==> !InvoicePaid(p, invoice.value) && InvoicePaid(q, invoice.value)
    requires OneMoreRow(p.store.commissions, q.store.commissions, invoice)
    ensures OneCommissionEach(q)
  {
    hide InvoicePaid;
    var was, now := p.store.commissions, q.store.commissions;
    assert forall i :: 0 <= i < |was| ==> now[i] == was[i];
    forall i | 0 <= i < |now| && now[i].invoice.Some? ensures InvoicePaid(q, now[i].invoice.value) {
      if i < |was| { assert was[i] in was; }
    }
    forall i, j | 0 <= i < j < |now| && now[i].invoice.Some? ensures now[i].invoice != now[j].invoice {
      if j == |was| { assert was[i] in was; }
    }
  }

  /** A call whose mark, if it makes one, takes effect. */
  predicate IsMarked(c: Call) {
    c.Webhook? || c.Confirm? ==> c.db.mark
  }

  lemma PaidKeepsOnce(p: Shop, c: Call)
    requires Succeeds(p, c) && IsMarked(c) && OneCommissionEach(p)
    ensures OneCommissionEach(Paid(p, c))
  {
    PaidCommissions(p, c);
    PaidShape(p, c);
    hide Paid, OneCommissionEach, OneMoreRow;
    var q := Paid(p, c);
    assert q.fiat.Keys == p.fiat.Keys && q.crypto.Keys == p.crypto.Keys;
    assert p.fiat.Keys !! p.crypto.Keys by { KeysApart(p); }
    assert !c.Disburse? ==> !InvoicePaid(p, c.uid) && InvoicePaid(q, c.uid);
    assert forall uid :: InvoicePaid(p, uid) ==> InvoicePaid(q, uid);
    if c.Disburse? { NoMoreRow(p.store.commissions, None); }
    MoreCommissions(p, q, if c.Disburse? then None else Some(c.uid));
  }

  lemma KeysApart(p: Shop)
    requires OneCommissionEach(p)
    ensures p.fiat.Keys !! p.crypto.Keys
  {
  }

  lemma BuyCommissions(p: Shop, c: Call)
    requires c.Buy? && BuySucceeds(p, c)
    ensures var q := StepCall(p, c);
      && q.fiat == p.fiat && q.crypto == p.crypto && q.payouts == p.payouts
      && OneMoreRow(p.store.commissions, q.store.commissions, None)
  {
    var op := BuyOp(p, c);
    StoreGrows(p.store, op);
    var mid := p.(store := Step(p.store, op), nextRow := p.nextRow + 2);
    AfterSaleKeeps(mid, c.buyer, p.videos[c.video].owner, c.video, p.videos[c.video].price, c.referrer, None);
    AfterSaleCommissions(mid, c.buyer, p.videos[c.video].owner, c.video, p.videos[c.video].price, c.referrer, None);
  }

  /** What a call that is no successful webhook, confirmation or disbursement leaves alone. */
  lemma OthersFrame(p: Shop, c: Call)
    requires !Succeeds(p, c)
    ensures var q := StepCall(p, c);
      && q.payouts == p.payouts && OneMoreRow(p.store.commissions, q.store.commissions, None)
      && (p.fiat.Keys !! p.crypto.Keys ==> q.fiat.Keys !! q.crypto.Keys)
      && p.fiat.Keys <= q.fiat.Keys
      && forall uid :: uid in q.fiat ==>
           if uid in p.fiat then q.fiat[uid] == p.fiat[uid] else !q.fiat[uid].paid && !q.fiat[uid].disbursed
  {
    hide Step, AfterSale, PaidEventOf, Payable, Paid;
    if c.Buy? && BuySucceeds(p, c) {
      BuyCommissions(p, c);
      hide StepCall, BuySucceeds, OneMoreRow;
    } else {
      if c.WalletCall? { StoreGrows(p.store, c.op); }
      hide BuySucceeds;
    }
  }

  lemma GrowsKeepsPaid(p: Shop, q: Shop)
    requires Grows(p, q)
    ensures forall uid :: InvoicePaid(p, uid) ==> InvoicePaid(q, uid)
  {
    forall uid | uid in p.fiat && p.fiat[uid].paid ensures InvoicePaid(q, uid) {
      assert FiatGrows(p.fiat[uid], q.fiat[uid]);
    }
  }

  lemma CallKeepsOnce(p: Shop, c: Call)
    requires OneCommissionEach(p) && IsMarked(c)
    ensures OneCommissionEach(StepCall(p, c))
  {
    if Succeeds(p, c) {
      assert StepCall(p, c) == Paid(p, c) by { assert IsReplayable(c); hide Payable, Paid; }
      PaidKeepsOnce(p, c);
      hide *;
    } else {
      KeysApart(p);
      hide *;
      OthersFrame(p, c);
      CallGrows(p, c);
      GrowsKeepsPaid(p, StepCall(p, c));
      MoreCommissions(p, StepCall(p, c), None);
    }
  }

  /** Over every run in which the paid marks take effect: at most one commission per invoice, and only once it is
      paid. */
  lemma {:induction false} MarkedRunsPayOnce(p: Shop, cs: seq<Call>)
    requires OneCommissionEach(p) && forall c :: c in cs ==> IsMarked(c)
    ensures OneCommissionEach(RunCalls(p, cs))
    decreases |cs|
  {
    if cs != [] {
      MarkedRunsPayOnce(p, cs[..|cs| - 1]);
      CallKeepsOnce(RunCalls(p, cs[..|cs| - 1]), cs[|cs| - 1]);
    }
  }

  /** A call that goes through for an invoice that has a commission, and earns another. */
  predicate Recommissions(p: Shop, c: Call) {
    Succeeds(p, c) && HasCommission(p, c.uid) && PaysCommission(p, c)
  }

  ghost predicate NeverRecommissions(p: Shop, cs: seq<Call>)
    decreases |cs|
  {
    cs == [] ||
    (NeverRecommissions(p, cs[..|cs| - 1]) && !Recommissions(RunCalls(p, cs[..|cs| - 1]), cs[|cs| - 1]))
  }

  lemma BuyKeepsRows(p: Shop, c: Call)
    requires c.Buy? && BuySucceeds(p, c) && RowsBelow(p)
    ensures RowsBelow(StepCall(p, c))
  {
    var op := BuyOp(p, c);
    var mid := p.(store := Step(p.store, op), nextRow := p.nextRow + 2);
    StepRowsBelow(p.store, op, p.nextRow + 2);
    AfterSaleAdds(mid, c.buyer, p.videos[c.video].owner, c.video, p.videos[c.video].price, c.referrer, None);
    hide Step, AfterSale;
  }

  lemma CallKeepsRows(p: Shop, c: Call)
    requires RowsBelow(p)
    ensures RowsBelow(StepCall(p, c))
  {
    assert Succeeds(p, c) ==> IsReplayable(c);
    hide Step, Paid, Payable, BuySucceeds, PaidEventOf;
    if Succeeds(p, c) { PaidAdds(p, c); }
    else if c.Buy? && BuySucceeds(p, c) { BuyKeepsRows(p, c); }
    else if c.WalletCall? && NewRows(c.op) <= [p.nextRow, p.nextRow + 1] {
      assert forall id :: id in NewRows(c.op) ==> id in [p.nextRow, p.nextRow + 1];
      StepRowsBelow(p.store, c.op, p.nextRow + 2);
    }
    hide Succeeds;
  }

  lemma NoInvoiceNoRepeat(was: seq<CommissionRow>, now: seq<CommissionRow>)
    requires OneMoreRow(was, now, None)
    ensures OnceEach(now) <==> OnceEach(was)
  {
    assert forall i :: 0 <= i < |was| ==> now[i] == was[i];
  }

  lemma PrefixOnce(was: seq<CommissionRow>, now: seq<CommissionRow>)
    requires was <= now && OnceEach(now)
    ensures OnceEach(was)
  {
    assert forall i :: 0 <= i < |was| ==> now[i] == was[i];
  }

  lemma CallOnce(p: Shop, c: Call)
    requires RowsBelow(p)
    ensures OnceEach(StepCall(p, c).store.commissions) <==> OnceEach(p.store.commissions) && !Recommissions(p, c)
  {
    assert Succeeds(p, c) ==> IsReplayable(c);
    hide Step, Paid, Payable, OnceEach, BuySucceeds, PaysCommission, PaidEventOf;
    var was, now := p.store.commissions, StepCall(p, c).store.commissions;
    if Succeeds(p, c) {
      if OnceEach(was) {
        LateCommission(p, c);
      } else if OnceEach(now) {
        PaidGrows(p, c);
        PrefixOnce(was, now);
      }
    } else if c.Buy? && BuySucceeds(p, c) {
      BuyCommissions(p, c);
      NoInvoiceNoRepeat(was, now);
    } else if c.WalletCall? {
      StoreGrows(p.store, c.op);
    }
  }

  /**
   * Over every run, each invoice pays at most one commission exactly when no call goes through for an invoice that has
   * a commission while the sale earns another.
   */
  lemma {:induction false} OneCommissionPerInvoice(p: Shop, cs: seq<Call>)
    requires OnceEach(p.store.commissions) && RowsBelow(p)
    ensures RowsBelow(RunCalls(p, cs))
    ensures OnceEach(RunCalls(p, cs).store.commissions) <==> NeverRecommissions(p, cs)
    decreases |cs|
  {
    if cs != [] {
      OneCommissionPerInvoice(p, cs[..|cs| - 1]);
      var q, c := RunCalls(p, cs[..|cs| - 1]), cs[|cs| - 1];
      CallKeepsRows(q, c);
      CallOnce(q, c);
      hide StepCall, OnceEach, Recommissions;
    }
  }

  // ---- payouts ----

  /** The column disbursed_at is set exactly for the invoices that were paid out. */
  ghost predicate PayoutsStamped(p: Shop) {
    forall uid :: uid in p.payouts <==> uid in p.fiat && p.fiat[uid].disbursed
  }

  ghost predicate PayoutsPaid(p: Shop) {
    forall uid :: uid in p.payouts ==> uid in p.fiat && p.fiat[uid].paid
  }

  predicate NoRepeat(uids: seq<Uid>) {
    forall i, j :: 0 <= i < j < |uids| ==> uids[i] != uids[j]
  }

  /** A payout by a webhook whose paid mark is lost. */
  predicate PaysOutUnmarked(p: Shop, c: Call) {
    c.Webhook? && Succeeds(p, c) && !c.db.mark && PaysOut(p, c)
  }

  /** What a success does to the columns that payouts depend on. */
  lemma PaidStamps(p: Shop, c: Call)
    requires Succeeds(p, c)
    ensures var q := Paid(p, c);
      && q.payouts == p.payouts + (if PaysOut(p, c) then [c.uid] else [])
      && q.fiat.Keys == p.fiat.Keys
      && (PaysOut(p, c) ==> c.uid in p.fiat && (p.fiat[c.uid].paid <==> c.Disburse?))
      && forall uid :: uid in p.fiat ==>
        && (q.fiat[uid].disbursed <==> p.fiat[uid].disbursed || (PaysOut(p, c) && uid == c.uid))
        && (q.fiat[uid].paid <==> p.fiat[uid].paid || (c.Webhook? && uid == c.uid && c.db.mark))
  {
    PaidShape(p, c);
    assert PaysOut(p, c) ==> c.uid in p.fiat && (p.fiat[c.uid].paid <==> c.Disburse?);
    if !c.Disburse? { GrantedStamps(p, c); }
    hide Paid, PaysOut, Granted, Payable, Succeeds;
  }

  lemma StampsFollow(p: Shop, q: Shop, uid: Uid, out: bool, marks: bool)
    requires PayoutsStamped(p) && q.payouts == p.payouts + (if out then [uid] else []) && q.fiat.Keys == p.fiat.Keys
    requires out ==> uid in p.fiat
    requires forall id :: id in p.fiat ==>
      && (q.fiat[id].disbursed <==> p.fiat[id].disbursed || (out && id == uid))
      && (q.fiat[id].paid <==> p.fiat[id].paid || (marks && id == uid))
    ensures PayoutsStamped(q)
    ensures PayoutsPaid(p) ==> (PayoutsPaid(q) <==> !out || p.fiat[uid].paid || marks)
  {
    assert forall id :: id in q.payouts <==> id in p.payouts || (out && id == uid);
  }

  lemma PaidPayouts(p: Shop, c: Call)
    requires Succeeds(p, c) && PayoutsStamped(p)
    ensures PayoutsStamped(Paid(p, c))
    ensures PayoutsPaid(p) ==> (PayoutsPaid(Paid(p, c)) <==> !PaysOutUnmarked(p, c))
  {
    assert Payable(p, c) && (PaysOut(p, c) ==> c.Disburse? || c.Webhook?);
    assert PaysOutUnmarked(p, c) <==> c.Webhook? && !c.db.mark && PaysOut(p, c);
    PaidStamps(p, c);
    hide *;
    StampsFollow(p, Paid(p, c), c.uid, PaysOut(p, c), c.Webhook? && c.db.mark);
  }

  lemma GrantedStamps(p: Shop, c: Call)
    requires Succeeds(p, c) && !c.Disburse?
    ensures var f := Granted(p, c).fiat;
      && f.Keys == p.fiat.Keys && (PaysOut(p, c) ==> c.uid in f)
      && (forall uid :: uid in p.fiat ==>
          f[uid].disbursed == p.fiat[uid].disbursed
          && (f[uid].paid <==> p.fiat[uid].paid || (c.Webhook? && uid == c.uid && c.db.mark)))
  {
  }

  lemma CallPayouts(p: Shop, c: Call)
    requires PayoutsStamped(p)
    ensures var q := StepCall(p, c);
      && PayoutsStamped(q)
      && q.payouts == p.payouts + (if Succeeds(p, c) && PaysOut(p, c) then [c.uid] else [])
      && (PayoutsPaid(p) ==> (PayoutsPaid(q) <==> !PaysOutUnmarked(p, c)))
  {
    if Succeeds(p, c) {
      assert StepCall(p, c) == Paid(p, c) by { assert IsReplayable(c); hide Payable, Paid; }
      PaidShape(p, c);
      PaidPayouts(p, c);
      hide Paid, PayoutsStamped, PayoutsPaid, Granted, PaysOut, StepCall;
    } else {
      OthersFrame(p, c);
      hide StepCall, Succeeds;
    }
  }

  /** In every state that the run passes, only paid invoices have been paid out. */
  ghost predicate AlwaysPaid(p: Shop, cs: seq<Call>)
    decreases |cs|
  {
    PayoutsPaid(RunCalls(p, cs)) && (cs == [] || AlwaysPaid(p, cs[..|cs| - 1]))
  }

  ghost predicate NeverPaysOutUnmarked(p: Shop, cs: seq<Call>)
    decreases |cs|
  {
    cs == [] ||
    (NeverPaysOutUnmarked(p, cs[..|cs| - 1]) && !PaysOutUnmarked(RunCalls(p, cs[..|cs| - 1]), cs[|cs| - 1]))
  }

  /** A run pays out only paid invoices, at every moment, exactly when no webhook that pays out loses its paid mark. */
  lemma {:induction false} PayoutsOnlyWhenPaid(p: Shop, cs: seq<Call>)
    requires PayoutsStamped(p) && PayoutsPaid(p)
    ensures PayoutsStamped(RunCalls(p, cs))
    ensures AlwaysPaid(p, cs) <==> NeverPaysOutUnmarked(p, cs)
    decreases |cs|
  {
    if cs != [] {
      PayoutsOnlyWhenPaid(p, cs[..|cs| - 1]);
      CallPayouts(RunCalls(p, cs[..|cs| - 1]), cs[|cs| - 1]);
      hide StepCall, PayoutsPaid, PayoutsStamped, PaysOutUnmarked;
    }
  }

  /** A fresh Xendit invoice whose webhook pays out and loses its mark: paid out, and not paid. */
  lemma UnmarkedPayout(p: Shop, uid: Uid, i: Fiat, db: Db)
    requires uid !in p.fiat && uid !in p.crypto && i.buyer in p.users && i.creator in p.users
            && p.users[i.creator].hasBank && !db.mark
    ensures var q := RunCalls(p, [NewFiat(uid, i), Webhook(uid, true, true, true, db)]);
      uid in q.payouts && uid in q.fiat && !q.fiat[uid].paid
  {
    var open, hook := NewFiat(uid, i), Webhook(uid, true, true, true, db);
    PaidShape(StepCall(p, open), hook);
    hide Paid;
    assert [open, hook][..1] == [open] && [open][..0] == [];
    assert RunCalls(p, [open]) == StepCall(RunCalls(p, []), open);
  }

  /** No disbursement of the run goes through for an invoice whose disbursed_at is set already. */
  ghost predicate NeverDisbursedTwice(p: Shop, cs: seq<Call>)
    decreases |cs|
  {
    cs == [] ||
    var (q, c) := (RunCalls(p, cs[..|cs| - 1]), cs[|cs| - 1]);
    NeverDisbursedTwice(p, cs[..|cs| - 1]) && (c.Disburse? && Succeeds(q, c) ==> !q.fiat[c.uid].disbursed)
  }

  lemma AppendRepeats(uids: seq<Uid>, uid: Uid)
    ensures NoRepeat(uids + [uid]) <==> NoRepeat(uids) && uid !in uids
  {
    var more := uids + [uid];
    assert forall i :: 0 <= i < |uids| ==> more[i] == uids[i];
    if uid in uids {
      var i :| 0 <= i < |uids| && uids[i] == uid;
      assert more[i] == uid && more[|uids|] == uid;
    }
  }

  /** A body that got past its guard pays an invoice out a second time exactly when it pays out one that
      was paid out. */
  lemma LatePayout(p: Shop, c: Call)
    requires Payable(p, c) && NoRepeat(p.payouts)
    ensures NoRepeat(Paid(p, c).payouts) <==> !(PaysOut(p, c) && c.uid in p.payouts)
  {
    PaidShape(p, c);
    AppendRepeats(p.payouts, c.uid);
    hide Paid, PaysOut, NoRepeat;
    assert p.payouts + [] == p.payouts;
  }

  lemma PayoutRepeats(p: Shop, c: Call)
    requires PayoutsStamped(p) && Succeeds(p, c)
    ensures Payable(p, c) && (PaysOut(p, c) && c.uid in p.payouts <==> c.Disburse? && p.fiat[c.uid].disbursed)
  {
  }

  lemma CallRepeats(p: Shop, c: Call)
    requires PayoutsStamped(p)
    ensures NoRepeat(StepCall(p, c).payouts) <==>
      NoRepeat(p.payouts) && (c.Disburse? && Succeeds(p, c) ==> !p.fiat[c.uid].disbursed)
  {
    hide *;
    CallPayouts(p, c);
    if Succeeds(p, c) {
      PayoutRepeats(p, c);
      AppendRepeats(p.payouts, c.uid);
    }
    assert p.payouts + [] == p.payouts;
  }

  /** Over every run an invoice is paid out at most once exactly when no administrator disburses one that
      already was. */
  lemma {:induction false} PaidOutOnceExactlyWhen(p: Shop, cs: seq<Call>)
    requires PayoutsStamped(p) && NoRepeat(p.payouts)
    ensures PayoutsStamped(RunCalls(p, cs))
    ensures NoRepeat(RunCalls(p, cs).payouts) <==> NeverDisbursedTwice(p, cs)
    decreases |cs|
  {
    if cs != [] {
      PaidOutOnceExactlyWhen(p, cs[..|cs| - 1]);
      var q, c := RunCalls(p, cs[..|cs| - 1]), cs[|cs| - 1];
      CallPayouts(q, c);
      CallRepeats(q, c);
      hide StepCall, Succeeds, NoRepeat, PayoutsStamped;
    }
  }

  lemma RunThree(p: Shop, a: Call, b: Call, c: Call)
    ensures RunCalls(p, [a, b, c]) == StepCall(StepCall(StepCall(p, a), b), c)
  {
    hide StepCall;
    assert [a, b, c][..2] == [a, b] && [a, b][..1] == [a] && [a][..0] == [];
    assert RunCalls(p, [a]) == StepCall(RunCalls(p, []), a);
    assert RunCalls(p, [a, b]) == StepCall(RunCalls(p, [a]), b);
  }

  lemma HookPaysOut(p: Shop, uid: Uid, db: Db)
    requires uid in p.fiat && !p.fiat[uid].paid && !p.fiat[uid].disbursed && CreatorHasBank(p, p.fiat[uid])
    ensures var q := StepCall(p, Webhook(uid, true, true, true, db));
      && q.payouts == p.payouts + [uid]
      && uid in q.fiat && (q.fiat[uid].paid <==> db.mark) && CreatorHasBank(q, q.fiat[uid])
  {
    var hook := Webhook(uid, true, true, true, db);
    PaidShape(p, hook);
    assert Granted(p, hook) == p.(store := Granted(p, hook).store, fiat := Granted(p, hook).fiat);
    hide Paid;
  }

  lemma SendPaysOut(p: Shop, uid: Uid)
    requires uid in p.fiat && p.fiat[uid].paid && CreatorHasBank(p, p.fiat[uid])
    ensures StepCall(p, Disburse(uid, true)).payouts == p.payouts + [uid]
  {
  }

  /** A Xendit invoice, its webhook with the automatic payout, and an administrator's disbursement: two payouts. */
  lemma TwoPayouts(p: Shop, uid: Uid, i: Fiat, db: Db)
    requires uid !in p.fiat && uid !in p.crypto && i.buyer in p.users && i.creator in p.users
            && p.users[i.creator].hasBank
    requires i.xendit && db.mark
    ensures RunCalls(p, [NewFiat(uid, i), Webhook(uid, true, true, true, db), Disburse(uid, true)]).payouts ==
            p.payouts + [uid, uid]
  {
    var open, hook, send := NewFiat(uid, i), Webhook(uid, true, true, true, db), Disburse(uid, true);
    var q := StepCall(p, open);
    assert q == p.(fiat := q.fiat) && uid in q.fiat && q.fiat[uid] == i.(paid := false, disbursed := false);
    hide StepCall, RunCalls;
    RunThree(p, open, hook, send);
    HookPaysOut(q, uid, db);
    SendPaysOut(StepCall(q, hook), uid);
  }

  /** When the mark is lost, the same webhook or confirmation delivered again is harmless exactly when one of the two
      sales earns no commission. */
  lemma LostMarkExactly(p: Shop, c: Call)
    requires Succeeds(p, c) && !c.Disburse? && !c.db.mark && OnceEach(p.store.commissions) && !HasCommission(p, c.uid)
    requires RowsBelow(p)
    ensures Payable(StepCall(p, c), c)
    ensures OnceEach(RunCalls(p, [c, c]).store.commissions) <==>
              !(PaysCommission(p, c) && PaysCommission(StepCall(p, c), c))
  {
    var q := StepCall(p, c);
    RunPair(p, c);
    ReplayExactlyWhenMarked(p, c);
    PaidCommissions(p, c);
    PaidAdds(p, c);
    LateCommission(p, c);
    LateCommission(q, c);
    hide Paid, Payable, Succeeds, PaysCommission;
    var was, now := p.store.commissions, q.store.commissions;
    if now != was { assert now[|was|] in now; }
  }

  function Cents(p: Shop, i: Fiat): int {
    if i.video in p.programs then CommissionCents(i.amount, p.programs[i.video].pct) else 0
  }

  /** A commission is due: an enabled program, a third party as affiliate, and an owner who has the funds. */
  predicate CommissionDue(p: Shop, i: Fiat, funds: int) {
    && i.referrer.Some? && i.video in p.programs && p.programs[i.video].enabled
    && i.amount * p.programs[i.video].pct >= 100
    && i.referrer.value != i.buyer && i.referrer.value != i.creator && i.referrer.value in p.store.balances
    && i.creator in p.store.balances && 0 <= funds <= p.store.balances[i.creator]
    && 0 <= p.store.balances[i.referrer.value] <= MAX_I64 - p.store.balances[i.creator]
    && (forall id :: id in p.store.rows ==> id < p.nextRow)
  }

  lemma CommissionIsPaid(p: Shop, i: Fiat, uid: Uid, funds: int)
    requires CommissionDue(p, i, funds) && Cents(p, i) <= funds
    ensures var q := AfterSale(p, i.buyer, i.creator, i.video, i.amount, i.referrer, Some(uid));
      CommissionDue(q, i, funds - Cents(p, i)) && |q.store.commissions| == |p.store.commissions| + 1
  {
    var op := CommissionOp(i.video, i.buyer, i.creator, i.referrer.value, i.amount, p.programs[i.video].enabled,
                           p.programs[i.video].pct, Some(uid), p.nextRow, p.nextRow + 1);
    Effects.CommissionCommitsExactlyWhen(p.store, op);
    CentsAreCommission(p, i, op);
    hide Step, Writes, FreshRows;
    Effects.CommissionEffect(p.store, op);
    assert AfterSale(p, i.buyer, i.creator, i.video, i.amount, i.referrer, Some(uid)).store == Step(p.store, op);
  }

  /** The audit row of a commission carries exactly the percentage of the sale. */
  lemma CentsAreCommission(p: Shop, i: Fiat, op: Op)
    requires op.CommissionOp? && Writes(p.store, op).Some? && i.video in p.programs
    requires op.price == i.amount && op.pct == p.programs[i.video].pct
    ensures Step(p.store, op).commissions[..] ==
            p.store.commissions + [CommissionRow(op.video, op.affiliate, op.user, op.owner, op.price, Cents(p, i),
                                                 op.invoice)]
  {
    Handlers.CommissionWrites(p.store, op);
  }

  /** A webhook whose paid mark is lost, delivered twice, pays the affiliate twice whenever the owner can afford it. */
  lemma TwoCommissions(p: Shop, c: Call)
    requires c.Webhook? && Succeeds(p, c) && !c.db.mark && c.db.commission
    requires CommissionDue(p, p.fiat[c.uid], 2 * Cents(p, p.fiat[c.uid])) && 0 <= Cents(p, p.fiat[c.uid])
    ensures !OnceEach(RunCalls(p, [c, c]).store.commissions)
  {
    var q, cents := StepCall(p, c), Cents(p, p.fiat[c.uid]);
    RunPair(p, c);
    HookPays(p, c, 2 * cents);
    ReplayExactlyWhenMarked(p, c);
    HookPays(q, c, cents);
    hide StepCall, Succeeds, CommissionDue, Cents, OneMoreRow;
    AddedTwice(p.store.commissions, q.store.commissions, StepCall(q, c).store.commissions, c.uid);
  }

  lemma RunPair(p: Shop, c: Call)
    ensures RunCalls(p, [c, c]) == StepCall(StepCall(p, c), c)
  {
    assert [c, c][..1] == [c] && [c][..0] == [];
    assert RunCalls(p, [c]) == StepCall(RunCalls(p, []), c);
  }

  /** One delivery with a lost mark: one more commission row, and the invoice as before but for its payout. */
  lemma HookPays(p: Shop, c: Call, funds: int)
    requires c.Webhook? && Succeeds(p, c) && !c.db.mark && c.db.commission
    requires CommissionDue(p, p.fiat[c.uid], funds) && Cents(p, p.fiat[c.uid]) <= funds
    ensures var q := StepCall(p, c);
      && c.uid in q.fiat && CommissionDue(q, q.fiat[c.uid], funds - Cents(p, p.fiat[c.uid]))
      && Cents(q, q.fiat[c.uid]) == Cents(p, p.fiat[c.uid])
      && OneMoreRow(p.store.commissions, q.store.commissions, Some(c.uid))
      && |q.store.commissions| == |p.store.commissions| + 1
  {
    var i, g := p.fiat[c.uid], Granted(p, c);
    assert g == p.(store := p.store.(purchases := g.store.purchases, allowlist := g.store.allowlist));
    assert ReferrerOf(i.referrer, c.db) == i.referrer;
    CommissionIsPaid(g, i, c.uid, funds);
    PaidCommissions(p, c);
    var after := AfterSale(g, i.buyer, i.creator, i.video, i.amount, i.referrer, Some(c.uid));
    AfterSaleKeeps(g, i.buyer, i.creator, i.video, i.amount, i.referrer, Some(c.uid));
    assert StepCall(p, c).store == after.store && StepCall(p, c).nextRow == after.nextRow;
    hide AfterSale, Granted, OneMoreRow;
  }

  lemma AddedTwice(a: seq<CommissionRow>, b: seq<CommissionRow>, d: seq<CommissionRow>, uid: Uid)
    requires OneMoreRow(a, b, Some(uid)) && |b| == |a| + 1 && OneMoreRow(b, d, Some(uid)) && |d| == |b| + 1
    ensures !OnceEach(d)
  {
    assert d[|a|] == d[..|b|][|a|] == b[|a|];
    assert d[|a|].invoice == d[|b|].invoice;
  }

  // ---- x402 ----

  /** The amount that a mined confirmation pays for the video of the invoice, if it takes effect. */
  function AmountFor(i: Crypto, c: Call): Option<nat>
    requires c.Confirm?
  {
    if !c.mined || !c.db.mark then None else
    var found := FirstPaid(c.logs, i.event);
    if found.Some? && found.value.video == i.video then Some(found.value.amount) else None
  }

  predicate Suffices(i: Crypto, c: Call)
    requires c.Confirm?
  {
    AmountFor(i, c).Some? && AmountFor(i, c).value >= i.required
  }

  lemma OthersKeepCrypto(p: Shop, c: Call, uid: Uid)
    requires !c.Confirm? && uid in p.crypto
    ensures uid in StepCall(p, c).crypto && StepCall(p, c).crypto[uid] == p.crypto[uid]
  {
    assert Succeeds(p, c) ==> c.Webhook? || c.Disburse?;
    if Succeeds(p, c) {
      PaidShape(p, c);
      hide Payable, PaysOut, Grant;
    } else if c.Buy? && BuySucceeds(p, c) {
      BuyCommissions(p, c);
      hide StepCall, BuySucceeds;
    }
    hide Paid, BuySucceeds, AfterSale, Step, Succeeds;
  }

  lemma ConfirmSettles(p: Shop, c: Call, uid: Uid)
    requires c.Confirm? && uid in p.crypto && !p.crypto[uid].status.Settled?
    ensures uid in StepCall(p, c).crypto && SameInvoice(p.crypto[uid], StepCall(p, c).crypto[uid])
    ensures StepCall(p, c).crypto[uid].status.Settled? <==> c.uid == uid && Suffices(p.crypto[uid], c)
  {
    if Succeeds(p, c) { PaidShape(p, c); }
    hide Paid, FirstPaid, Grant;
  }

  /** An x402 invoice becomes paid only through a mined payment for its video of at least the required amount. */
  lemma SettledOnlyWhenPaid(p: Shop, c: Call, uid: Uid)
    requires uid in p.crypto && !p.crypto[uid].status.Settled?
    ensures uid in StepCall(p, c).crypto && SameInvoice(p.crypto[uid], StepCall(p, c).crypto[uid])
    ensures StepCall(p, c).crypto[uid].status.Settled? <==>
              c.Confirm? && c.uid == uid && Suffices(p.crypto[uid], c)
  {
    hide StepCall, Suffices;
    if c.Confirm? { ConfirmSettles(p, c, uid); } else { OthersKeepCrypto(p, c, uid); }
  }

  predicate SameInvoice(i: Crypto, j: Crypto) {
    j == i.(status := j.status, tx := j.tx, received := j.received)
  }

  lemma OneMoreSettles(p: Shop, c: Call, uid: Uid)
    requires uid in p.crypto
    ensures uid in StepCall(p, c).crypto && SameInvoice(p.crypto[uid], StepCall(p, c).crypto[uid])
    ensures StepCall(p, c).crypto[uid].status.Settled? <==>
              p.crypto[uid].status.Settled? || (c.Confirm? && c.uid == uid && Suffices(p.crypto[uid], c))
  {
    if p.crypto[uid].status.Settled? { CallGrows(p, c); } else { SettledOnlyWhenPaid(p, c, uid); }
    hide StepCall, Suffices;
  }

  lemma SameSuffices(i: Crypto, j: Crypto, c: Call)
    requires c.Confirm? && SameInvoice(i, j)
    ensures Suffices(i, c) <==> Suffices(j, c)
  {
  }

  /** Some single confirmation pays enough. */
  ghost predicate SomeSuffices(i: Crypto, cs: seq<Call>, uid: Uid) {
    exists c :: c in cs && c.Confirm? && c.uid == uid && Suffices(i, c)
  }

  /**
   * Over every run, an open x402 invoice becomes paid exactly when some single payment is sufficient. What was
   * received before, and is added up, plays no part.
   */
  lemma {:induction false} SettledExactlyWhen(p: Shop, cs: seq<Call>, uid: Uid)
    requires uid in p.crypto && !p.crypto[uid].status.Settled?
    ensures uid in RunCalls(p, cs).crypto && SameInvoice(p.crypto[uid], RunCalls(p, cs).crypto[uid])
    ensures RunCalls(p, cs).crypto[uid].status.Settled? <==> SomeSuffices(p.crypto[uid], cs, uid)
    decreases |cs|
  {
    hide StepCall, Suffices;
    if cs != [] {
      var prior, last := cs[..|cs| - 1], cs[|cs| - 1];
      SettledExactlyWhen(p, prior, uid);
      var i, q := p.crypto[uid], RunCalls(p, prior);
      OneMoreSettles(q, last, uid);
      if last.Confirm? { SameSuffices(i, q.crypto[uid], last); }
      assert cs == prior + [last];
      hide RunCalls;
      assert SomeSuffices(i, cs, uid) <==>
             SomeSuffices(i, prior, uid) || (last.Confirm? && last.uid == uid && Suffices(i, last));
    }
  }

  /** Asked to top up the remainder, a buyer does, and the invoice that has received its whole amount stays unpaid. */
  lemma TopUpStaysLocked(p: Shop, uid: Uid, i: Crypto, c: Call, d: Call)
    requires uid !in p.fiat && uid !in p.crypto && i.buyer in p.users && i.creator in p.users
    requires c.Confirm? && d.Confirm? && c.uid == uid && d.uid == uid
    requires AmountFor(i, c).Some? && AmountFor(i, c).value < i.required
    requires AmountFor(i, d) == Some(i.required - AmountFor(i, c).value) && AmountFor(i, c).value > 0
    ensures var q := RunCalls(p, [NewCrypto(uid, i), c, d]);
      && uid in q.crypto && q.crypto[uid].received == i.required && q.crypto[uid].status.Underpaid?
      && q.store == p.store
  {
    var open := NewCrypto(uid, i);
    var q := StepCall(p, open);
    var r := StepCall(q, c);
    hide FirstPaid;
    assert q.crypto[uid] == i.(status := Awaiting, tx := None, received := 0);
    assert r.crypto[uid] == i.(status := Underpaid, tx := Some(c.txHash), received := AmountFor(i, c).value);
    assert [open, c, d][..2] == [open, c] && [open, c][..1] == [open] && [open][..0] == [];
    assert RunCalls(p, [open]) == StepCall(RunCalls(p, []), open);
    assert RunCalls(p, [open, c]) == StepCall(RunCalls(p, [open]), c);
  }

  /** Once paid, an x402 invoice never changes again. */
  lemma SettledStays(p: Shop, cs: seq<Call>, uid: Uid)
    requires uid in p.crypto && p.crypto[uid].status.Settled?
    ensures uid in RunCalls(p, cs).crypto && RunCalls(p, cs).crypto[uid] == p.crypto[uid]
  {
    RunGrows(p, cs);
  }
}
