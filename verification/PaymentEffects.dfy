// What each payment call does, and who may watch because of it.

module PaymentEffects {

  // Effects are stated in terms of the tables before the call; access over whole runs.

  import opened Common
  import opened Integers
  import opened WalletStore
  import opened X402Logs
  import opened Payments
  import opened PaymentLaws
  import Ledger = WalletLedger
  import Handlers = WalletHandlers
  import Effects = WalletEffects

  // ---- commissions ----

  /** A sale that earns its affiliate a commission, given the balances at that moment. */
  predicate Earns(p: Shop, buyer: UserId, owner: UserId, video: VideoId, price: I64, referrer: Option<UserId>) {
    && referrer.Some? && video in p.programs && p.programs[video].enabled
    && price * p.programs[video].pct >= 100 && referrer.value != buyer && referrer.value != owner
    && referrer.value in p.store.balances
    && price * p.programs[video].pct / 100 <= Lookup(p.store.balances, owner).GetOr(0)
  }

  /** The owner of the video pays the affiliate the percentage, rounded down, and one audit row says so; or nothing
      happens. */
  ghost predicate PaysAffiliate(p: Shop, t: Store, buyer: UserId, owner: UserId, video: VideoId, price: I64,
                                referrer: Option<UserId>, invoice: Option<Uid>) {
    if Earns(p, buyer, owner, video, price, referrer) then
      var cents, affiliate := price * p.programs[video].pct / 100, referrer.value;
      && owner in p.store.balances
      && t.commissions == p.store.commissions
                          + [CommissionRow(video, affiliate, buyer, owner, price, cents, invoice)]
      && t.balances == p.store.balances[owner := p.store.balances[owner] - cents]
                                       [affiliate := Wrap64(p.store.balances[affiliate] + cents)]
    else
      t.commissions == p.store.commissions && t.balances == p.store.balances
  }

  lemma AfterSaleDoes(p: Shop, buyer: UserId, owner: UserId, video: VideoId, price: I64, referrer: Option<UserId>,
                      invoice: Option<Uid>)
    requires RowsBelow(p)
    ensures PaysAffiliate(p, AfterSale(p, buyer, owner, video, price, referrer, invoice).store, buyer, owner, video,
                          price, referrer, invoice)
  {
    var sale := SaleCommission(p, buyer, owner, video, price, referrer, invoice);
    if sale.Some? {
      var op := sale.value;
      Effects.CommissionCommitsExactlyWhen(p.store, op);
      hide Writes, FreshRows;
      assert price * p.programs[video].pct >= 100 ==> price > 0;
      if Writes(p.store, op).Some? {
        Handlers.CommissionStores(p.store, op);
      }
      hide DoAll;
    }
  }

  // ---- calls ----

  lemma BuyGoes(p: Shop, c: Call)
    requires c.Buy? && c.video in p.videos && RowsBelow(p)
    ensures var (owner, price) := (p.videos[c.video].owner, p.videos[c.video].price);
      BuySucceeds(p, c) <==>
        && (c.buyer, c.video) !in p.store.purchases && (owner, c.buyer) !in p.blocks && owner != c.buyer
        && price > 0 && price <= Lookup(p.store.balances, c.buyer).GetOr(0)
        && owner in p.store.balances && price * c.split >= 10_000
  {
    Effects.SaleCommitsExactlyWhen(p.store, BuyOp(p, c));
    hide Writes;
  }

  /** A wallet purchase: what it needs, whom it charges and pays, and what it gives. */
  lemma BuyDoes(p: Shop, c: Call)
    requires c.Buy? && c.video in p.videos && RowsBelow(p) && Ledger.NoOverflow(p.store)
    ensures var (owner, price, q) := (p.videos[c.video].owner, p.videos[c.video].price, StepCall(p, c));
      var goes := && (c.buyer, c.video) !in p.store.purchases && (owner, c.buyer) !in p.blocks && owner != c.buyer
                  && price > 0 && price <= Lookup(p.store.balances, c.buyer).GetOr(0)
                  && owner in p.store.balances && price * c.split >= 10_000;
      if !goes then q == p else
      && (c.buyer, c.video) in q.store.purchases
      && (NameOf(p, c.buyer) != "" ==> (c.video, NameOf(p, c.buyer)) in q.store.allowlist)
      && c.buyer in p.store.balances
      && exists mid: Shop ::
           && mid.programs == p.programs && mid.store.commissions == p.store.commissions
           && mid.store.balances.Keys == p.store.balances.Keys
           && mid.store.balances[c.buyer] == p.store.balances[c.buyer] - price
           && mid.store.balances[owner] == p.store.balances[owner] + price * c.split / 10_000
           && PaysAffiliate(mid, q.store, c.buyer, owner, c.video, price, c.referrer, None)
  {
    BuyGoes(p, c);
    if BuySucceeds(p, c) {
      var (owner, price, op) := (p.videos[c.video].owner, p.videos[c.video].price, BuyOp(p, c));
      BuyGrants(p, c);
      Ledger.SaleSplit(p.store, op);
      StoreGrows(p.store, op);
      StepRowsBelow(p.store, op, p.nextRow + 2);
      var mid := p.(store := Step(p.store, op), nextRow := p.nextRow + 2);
      AfterSaleDoes(mid, c.buyer, owner, c.video, price, c.referrer, None);
      FloorIs(price * c.split, mid.store.balances[owner] - p.store.balances[owner]);
      hide Step, AfterSale, Writes, Earns, PaysAffiliate, IsBlocked, Ledger.NoOverflow;
    }
    hide BuySucceeds, IsBlocked;
  }

  lemma FloorIs(x: int, q: int)
    requires q * 10_000 <= x < (q + 1) * 10_000
    ensures x / 10_000 == q
  {
  }

  /** Granting leaves alone what a commission depends on. */
  lemma SameStart(p: Shop, g: Shop, t: Store, buyer: UserId, owner: UserId, video: VideoId, price: I64,
                  referrer: Option<UserId>, invoice: Option<Uid>)
    requires PaysAffiliate(g, t, buyer, owner, video, price, referrer, invoice)
    requires g.programs == p.programs && g.store.balances == p.store.balances
             && g.store.commissions == p.store.commissions
    ensures PaysAffiliate(p, t, buyer, owner, video, price, referrer, invoice)
  {
  }

  lemma PaidPaysAffiliate(p: Shop, c: Call)
    requires Payable(p, c) && !c.Disburse? && RowsBelow(p)
    ensures c.Webhook? || c.Confirm?
    ensures c.Webhook? ==>
              var i := p.fiat[c.uid];
              PaysAffiliate(p, Paid(p, c).store, i.buyer, i.creator, i.video, i.amount,
                            if c.db.commission then i.referrer else None, Some(c.uid))
    ensures c.Confirm? ==>
              var i := p.crypto[c.uid];
              PaysAffiliate(p, Paid(p, c).store, i.buyer, i.creator, i.video, i.price,
                            if c.db.commission then i.referrer else None, Some(c.uid))
  {
    GrantedFrame(p, c);
    hide Earns, PaysAffiliate, PaidEventOf, Grant, Marked;
    var g := Granted(p, c);
    if c.Webhook? {
      var i := p.fiat[c.uid];
      var referrer := if c.db.commission then i.referrer else None;
      AfterSaleDoes(g, i.buyer, i.creator, i.video, i.amount, referrer, Some(c.uid));
      SameStart(p, g, Paid(p, c).store, i.buyer, i.creator, i.video, i.amount, referrer, Some(c.uid));
    } else {
      var i := p.crypto[c.uid];
      var referrer := if c.db.commission then i.referrer else None;
      AfterSaleDoes(g, i.buyer, i.creator, i.video, i.price, referrer, Some(c.uid));
      SameStart(p, g, Paid(p, c).store, i.buyer, i.creator, i.video, i.price, referrer, Some(c.uid));
    }
  }

  /** The first paid notification of an invoice: each statement that takes effect, and nothing for any other. */
  ghost predicate Notified(p: Shop, q: Shop, uid: Uid, viaXendit: bool, saysPaid: bool, payoutOk: bool, db: Db) {
    if !saysPaid || uid !in p.fiat || p.fiat[uid].paid then q == p else
    var i := p.fiat[uid];
    var out := viaXendit && payoutOk && !i.disbursed && i.creator in p.users && p.users[i.creator].hasBank;
    && q == p.(store := q.store, nextRow := q.nextRow, fiat := q.fiat, payouts := q.payouts)
    && q.fiat == p.fiat[uid := i.(paid := db.mark, disbursed := i.disbursed || out)]
    && q.payouts == p.payouts + (if out then [uid] else [])
    && q.store.purchases == p.store.purchases + Bought(p, i.buyer, i.video, db)
    && q.store.allowlist == p.store.allowlist + (if db.allow then {(i.video, NameOf(p, i.buyer))} else {})
    && (RowsBelow(p) ==> PaysAffiliate(p, q.store, i.buyer, i.creator, i.video, i.amount,
                                       if db.commission then i.referrer else None, Some(uid)))
  }

  lemma WebhookDoes(p: Shop, c: Call)
    requires c.Webhook?
    ensures Notified(p, StepCall(p, c), c.uid, c.viaXendit, c.saysPaid, c.payoutOk, c.db)
  {
    if Succeeds(p, c) {
      WebhookTables(p, c);
      PaidGrants(p, c);
      BoughtUnlessBlocked(p, p.fiat[c.uid].buyer, p.fiat[c.uid].video, c.db);
      if RowsBelow(p) { PaidPaysAffiliate(p, c); }
      hide Paid, PaysAffiliate, NameOf, IsBlocked, Bought, PaysOut, CreatorHasBank;
    }
  }

  lemma BoughtUnlessBlocked(p: Shop, buyer: UserId, video: VideoId, db: Db)
    ensures Bought(p, buyer, video, db) == if IsBlocked(p, buyer, video) || !db.purchase then {} else {(buyer, video)}
  {
  }

  lemma WebhookTables(p: Shop, c: Call)
    requires c.Webhook? && Succeeds(p, c)
    ensures var (i, q) := (p.fiat[c.uid], Paid(p, c));
      var out := c.viaXendit && c.payoutOk && !i.disbursed && i.creator in p.users && p.users[i.creator].hasBank;
      && q == p.(store := q.store, nextRow := q.nextRow, fiat := q.fiat, payouts := q.payouts)
      && q.fiat == p.fiat[c.uid := i.(paid := c.db.mark, disbursed := i.disbursed || out)]
      && q.payouts == p.payouts + (if out then [c.uid] else [])
  {
    PaidShape(p, c);
    WebhookMarks(p, c);
    assert Granted(p, c) == p.(store := Granted(p, c).store, fiat := Granted(p, c).fiat);
    hide Paid, Granted;
  }

  lemma WebhookMarks(p: Shop, c: Call)
    requires c.Webhook? && Payable(p, c)
    ensures Granted(p, c).fiat == if c.db.mark then p.fiat[c.uid := p.fiat[c.uid].(paid := true)] else p.fiat
  {
  }

  /** The purchase row, if its statement takes effect and no block refuses it. */
  function Bought(p: Shop, buyer: UserId, video: VideoId, db: Db): set<(UserId, VideoId)> {
    if !db.purchase || (video in p.videos && (p.videos[video].owner, buyer) in p.blocks) then {} else {(buyer, video)}
  }

  /** A confirmation: nothing without a mined event for the video of the invoice; a record below the required amount;
      everything from that amount on. */
  ghost predicate Confirmed(p: Shop, q: Shop, uid: Uid, txHash: nat, mined: bool, logs: seq<Log>, db: Db) {
    if uid !in p.crypto || p.crypto[uid].status.Settled? || !mined then q == p else
    var (i, event) := (p.crypto[uid], FirstPaid(logs, p.crypto[uid].event));
    if event.None? || event.value.video != i.video then q == p else
    var full := event.value.amount >= i.required;
    && q == p.(store := q.store, nextRow := q.nextRow, crypto := q.crypto)
    && q.crypto == (if !db.mark then p.crypto else
                    p.crypto[uid := i.(status := if full then Settled else Underpaid, tx := Some(txHash),
                                       received := i.received + event.value.amount)])
    && if !full then q.store == p.store else
       && q.store.purchases == p.store.purchases + Bought(p, i.buyer, i.video, db)
       && q.store.allowlist == p.store.allowlist +
            (if db.allow && NameOf(p, i.buyer) != "" then {(i.video, NameOf(p, i.buyer))} else {})
       && (RowsBelow(p) ==> PaysAffiliate(p, q.store, i.buyer, i.creator, i.video, i.price,
                                          if db.commission then i.referrer else None, Some(uid)))
  }

  lemma ConfirmDoes(p: Shop, c: Call)
    requires c.Confirm?
    ensures Confirmed(p, StepCall(p, c), c.uid, c.txHash, c.mined, c.logs, c.db)
  {
    if Succeeds(p, c) {
      ConfirmTables(p, c);
      PaidGrants(p, c);
      BoughtUnlessBlocked(p, p.crypto[c.uid].buyer, p.crypto[c.uid].video, c.db);
      if RowsBelow(p) { PaidPaysAffiliate(p, c); }
      hide Paid, PaysAffiliate, NameOf, IsBlocked, Bought;
    }
  }

  lemma ConfirmTables(p: Shop, c: Call)
    requires c.Confirm? && Succeeds(p, c)
    ensures var (i, q) := (p.crypto[c.uid], Paid(p, c));
      && q == p.(store := q.store, nextRow := q.nextRow, crypto := q.crypto)
      && q.crypto == (if !c.db.mark then p.crypto else
                      p.crypto[c.uid := i.(status := Settled, tx := Some(c.txHash),
                                           received := i.received + PaidEventOf(p, c).value.amount)])
  {
    PaidShape(p, c);
    assert Granted(p, c) == p.(store := Granted(p, c).store, crypto := Marked(p, c).crypto);
    hide Paid, Granted, PaidEventOf;
  }

  /** The remaining calls, which an owner, an administrator or the provider makes. */
  lemma OthersDo(p: Shop, c: Call)
    ensures var q := StepCall(p, c);
      match c
      case Disburse(uid, payoutOk) =>
        if uid in p.fiat && p.fiat[uid].paid
           && (p.fiat[uid].xendit ==>
                 p.fiat[uid].creator in p.users && p.users[p.fiat[uid].creator].hasBank && payoutOk)
        then q == p.(fiat := p.fiat[uid := p.fiat[uid].(disbursed := true)], payouts := p.payouts + [uid])
        else q == p
      case Allow(caller, video, name) =>
        q.(store := p.store) == p &&
        q.store == p.store.(allowlist := p.store.allowlist +
          if video in p.videos && p.videos[video].owner == caller && name != "" then {(video, name)} else {})
      case NewFiat(uid, i) =>
        uid !in p.fiat && uid !in p.crypto && i.buyer in p.users && i.creator in p.users ==>
          q == p.(fiat := q.fiat) && uid in q.fiat && !q.fiat[uid].paid && !q.fiat[uid].disbursed
          && q.fiat[uid] == i.(paid := false, disbursed := false) && q.fiat - {uid} == p.fiat
      case NewCrypto(uid, i) =>
        uid !in p.fiat && uid !in p.crypto && i.buyer in p.users && i.creator in p.users ==>
          q == p.(crypto := q.crypto) && uid in q.crypto && q.crypto[uid].status.Awaiting?
          && q.crypto[uid].received == 0 && q.crypto[uid].tx == None
          && SameInvoice(q.crypto[uid], i) && q.crypto - {uid} == p.crypto
      case SetBlock(creator, user, blocked) =>
        && q == p.(blocks := q.blocks)
        && forall u, video :: video in p.videos ==>
             (IsBlocked(q, u, video) <==>
              if u == user && p.videos[video].owner == creator then blocked else IsBlocked(p, u, video))
      case WalletCall(op) =>
        !op.PayOp? && !op.CommissionOp? && NewRows(op) <= [p.nextRow, p.nextRow + 1] ==> q.store == Step(p.store, op)
      case PutVideo(video, entry) =>
        q == if video in p.videos && p.videos[video].owner != entry.owner then p
             else p.(videos := p.videos[video := entry])
      case PutProgram(video, program) => q == p.(programs := p.programs[video := program])
      case _ => true
  {
    hide Step, Paid, AfterSale;
    if c.Disburse? && Succeeds(p, c) { PaidShape(p, c); }
  }

  // ---- who may watch ----

  /** Access that no payment is needed for: free videos, one's own, and everything for administrators. */
  predicate IsOpen(p: Shop, video: VideoId, user: UserId) {
    || (video in p.videos && (p.videos[video].price <= 0 || p.videos[video].owner == user))
    || (user in p.users && p.users[user].admin)
  }

  /** Nobody else may watch but those who are entitled. */
  lemma AccessExactlyWhen(p: Shop, video: VideoId, user: UserId)
    ensures ViewAccess(p, video, user) <==> IsOpen(p, video, user) || Entitled(p, video, user)
  {
  }

  lemma PaidFiatHasCause(p: Shop, c: Call, video: VideoId, user: UserId)
    requires HasPaidFiat(StepCall(p, c), video, user) && !HasPaidFiat(p, video, user)
    ensures PaysFor(p, c, user, video)
  {
    var q := StepCall(p, c);
    var uid :| uid in q.fiat && q.fiat[uid].video == video && q.fiat[uid].buyer == user && q.fiat[uid].paid;
    if Succeeds(p, c) {
      assert IsReplayable(c) && q == Paid(p, c) by { hide Paid, Payable; }
      PaidStamps(p, c);
      PaidGrows(p, c);
      assert FiatGrows(p.fiat[uid], q.fiat[uid]);
    } else {
      OthersFrame(p, c);
    }
    hide StepCall, Paid;
  }

  lemma EntitledHasCause(p: Shop, c: Call, video: VideoId, user: UserId)
    requires Entitled(StepCall(p, c), video, user) && !Entitled(p, video, user)
    ensures user in p.users
    ensures PaysFor(p, c, user, video) || ListsName(p, c, video, p.users[user].name)
  {
    CallGrows(p, c);
    EntriesHaveCause(p, c);
    hide StepCall, PaysFor, ListsName;
    var q := StepCall(p, c);
    if HasPaidFiat(q, video, user) { PaidFiatHasCause(p, c, video, user); }
    hide HasPaidFiat;
  }

  /** Whoever becomes entitled in a run has paid for the video in it, or has been listed by its owner or a payment. */
  lemma {:induction false} EntitlementWasEarned(p: Shop, cs: seq<Call>, video: VideoId, user: UserId) returns (i: nat)
    requires Entitled(RunCalls(p, cs), video, user) && !Entitled(p, video, user)
    ensures i < |cs| && user in RunCalls(p, cs[..i]).users
    ensures var q := RunCalls(p, cs[..i]);
      PaysFor(q, cs[i], user, video) || ListsName(q, cs[i], video, q.users[user].name)
    decreases |cs|
  {
    var n := |cs| - 1;
    var q := RunCalls(p, cs[..n]);
    hide Entitled, StepCall, PaysFor, ListsName;
    if Entitled(q, video, user) {
      i := EntitlementWasEarned(p, cs[..n], video, user);
      assert cs[..n][..i] == cs[..i];
    } else {
      EntitledHasCause(q, cs[n], video, user);
      i := n;
    }
  }

  /**
   * Over every run: who may watch a priced video of somebody else, is no administrator and was not entitled before has
   * paid for it in the run, or has been listed by its owner or through a payment.
   */
  lemma AccessWasEarned(p: Shop, cs: seq<Call>, video: VideoId, user: UserId) returns (i: nat)
    requires ViewAccess(RunCalls(p, cs), video, user) && !IsOpen(RunCalls(p, cs), video, user)
    requires !Entitled(p, video, user)
    ensures i < |cs| && user in RunCalls(p, cs[..i]).users
    ensures var q := RunCalls(p, cs[..i]);
      PaysFor(q, cs[i], user, video) || ListsName(q, cs[i], video, q.users[user].name)
  {
    AccessExactlyWhen(RunCalls(p, cs), video, user);
    hide RunCalls, ViewAccess, IsOpen, Entitled, PaysFor, ListsName;
    i := EntitlementWasEarned(p, cs, video, user);
  }
}
