// The payment handlers as methods that update their tables statement by statement.

module PaymentDesk {
  import opened Common
  import opened Integers
  import opened WalletStore
  import opened X402Logs
  import opened Payments
  import Laws = PaymentLaws

  class Desk {
    var store: Store
    var nextRow: RowId
    var users: map<UserId, User>
    var videos: map<VideoId, Video>
    var programs: map<VideoId, Program>
    var blocks: set<(UserId, UserId)>
    var fiat: map<Uid, Fiat>
    var crypto: map<Uid, Crypto>
    var payouts: seq<Uid>

    function State(): Shop
      reads this
    {
      Shop(store, nextRow, users, videos, programs, blocks, fiat, crypto, payouts)
    }

    constructor (p: Shop)
      ensures State() == p
    {
      store, nextRow, users, videos, programs, blocks := p.store, p.nextRow, p.users, p.videos, p.programs, p.blocks;
      fiat, crypto, payouts := p.fiat, p.crypto, p.payouts;
    }

    /** The purchase row, unless the trigger refuses it or the statement fails. */
    method InsertPurchase(buyer: UserId, video: VideoId, dbOk: bool)
      modifies this`store
      ensures var refused := IsBlocked(old(State()), buyer, video) || !dbOk;
        store == old(store).(purchases := old(store).purchases + if refused then {} else {(buyer, video)})
    {
      if (video in videos && (videos[video].owner, buyer) in blocks) || !dbOk { return; }
      store := store.(purchases := store.purchases + {(buyer, video)});
    }

    method InsertAllow(video: VideoId, name: string, dbOk: bool)
      modifies this`store
      ensures store == old(store).(allowlist := old(store).allowlist + if dbOk then {(video, name)} else {})
    {
      if dbOk { store := store.(allowlist := store.allowlist + {(video, name)}); }
    }

    /** The two grants after a payment; only the webhook lists an empty name. */
    method GrantAccess(buyer: UserId, video: VideoId, allowEmptyName: bool, db: Db)
      modifies this`store
      ensures State() == Grant(old(State()), buyer, video, allowEmptyName, db)
    {
      InsertPurchase(buyer, video, db.purchase);
      var name := NameOf(State(), buyer);
      if name != "" || allowEmptyName { InsertAllow(video, name, db.allow); }
    }

    /** process_affiliate_commission, in a transaction of its own. */
    method PayCommission(buyer: UserId, owner: UserId, video: VideoId, price: I64, referrer: Option<UserId>,
                         invoice: Option<Uid>)
      modifies this`store, this`nextRow
      ensures State() == AfterSale(old(State()), buyer, owner, video, price, referrer, invoice)
    {
      if referrer.None? || video !in programs { return; }
      var op := CommissionOp(video, buyer, owner, referrer.value, price, programs[video].enabled, programs[video].pct,
                             invoice, nextRow, nextRow + 1);
      store, nextRow := Step(store, op), nextRow + 2;
    }

    /** handle_webhook, once the provider plugin has read the notification; db tells which of its statements take
        effect. */
    method HandleWebhook(uid: Uid, viaXendit: bool, saysPaid: bool, payoutOk: bool, db: Db) returns (replayed: bool)
      modifies this
      ensures State() == StepCall(old(State()), Webhook(uid, viaXendit, saysPaid, payoutOk, db))
      ensures replayed == (saysPaid && uid in old(fiat) && old(fiat)[uid].paid)
    {
      ghost var p, c := State(), Webhook(uid, viaXendit, saysPaid, payoutOk, db);
      hide Step, AfterSale, Recorded, BuySucceeds;
      replayed := false;
      if !saysPaid || uid !in fiat { return; }
      var invoice := fiat[uid];
      if invoice.paid { return true; }
      var hasBank := invoice.creator in users && users[invoice.creator].hasBank;
      if db.mark { fiat := fiat[uid := invoice.(paid := true)]; }
      assert State() == Marked(p, c);
      GrantAccess(invoice.buyer, invoice.video, true, db);
      var referrer := if db.commission then invoice.referrer else None;
      PayCommission(invoice.buyer, invoice.creator, invoice.video, invoice.amount, referrer, Some(uid));
      hide Grant, AfterSale;
      if viaXendit && !invoice.disbursed {
        if hasBank && payoutOk {
          assert uid in fiat by { Laws.PaidShape(p, c); }
          fiat := fiat[uid := fiat[uid].(disbursed := true)];
          payouts := payouts + [uid];
        }
      }
    }

    /** x402_confirm, once the receipt has been fetched; db tells which of its statements take effect. */
    method ConfirmX402(uid: Uid, txHash: nat, mined: bool, logs: seq<Log>, db: Db) returns (paid: bool)
      modifies this
      ensures State() == StepCall(old(State()), Confirm(uid, txHash, mined, logs, db))
      ensures paid == (uid in old(crypto)
                       && (old(crypto)[uid].status.Settled?
                           || Succeeds(old(State()), Confirm(uid, txHash, mined, logs, db))))
      ensures paid <==> uid in old(crypto)
                        && (old(crypto)[uid].status.Settled?
                            || (mined && var event := FirstPaid(logs, old(crypto)[uid].event);
                                event.Some? && event.value.video == old(crypto)[uid].video
                                && event.value.amount >= old(crypto)[uid].required))
    {
      ghost var p, c := State(), Confirm(uid, txHash, mined, logs, db);
      hide Step, AfterSale, BuySucceeds;
      if uid !in crypto { return false; }
      var invoice := crypto[uid];
      if invoice.status.Settled? { return true; }
      if !mined { return false; }
      var found := ScanLogs(logs, invoice.event);
      if found.None? || found.value.video != invoice.video { return false; }
      var amount := found.value.amount;
      var full := amount >= invoice.required;
      if db.mark {
        crypto := crypto[uid := invoice.(status := if full then Settled else Underpaid, tx := Some(txHash),
                                         received := invoice.received + amount)];
      }
      if !full { return false; }
      assert State() == Marked(p, c);
      GrantAccess(invoice.buyer, invoice.video, false, db);
      var referrer := if db.commission then invoice.referrer else None;
      PayCommission(invoice.buyer, invoice.creator, invoice.video, invoice.price, referrer, Some(uid));
      hide Grant, AfterSale;
      paid := true;
    }

    /**
     * admin_disburse. Its guard against a second disbursement decodes the timestamp disbursed_at as text; that fails
     * for every timestamp, the failure counts as absent, and so the guard lets every call through.
     */
    method AdminDisburse(uid: Uid, payoutOk: bool) returns (ok: bool)
      modifies this
      ensures State() == StepCall(old(State()), Disburse(uid, payoutOk))
      ensures ok == Succeeds(old(State()), Disburse(uid, payoutOk))
      ensures ok ==> payouts == old(payouts) + [uid] && fiat[uid].disbursed
      ensures ok <==> uid in old(fiat) && old(fiat)[uid].paid
                      && (old(fiat)[uid].xendit ==>
                            old(fiat)[uid].creator in users && users[old(fiat)[uid].creator].hasBank && payoutOk)
      ensures !ok ==> State() == old(State())
    {
      if uid !in fiat { return false; }
      var invoice := fiat[uid];
      if !invoice.paid { return false; }
      if invoice.xendit {
        if !(invoice.creator in users && users[invoice.creator].hasBank) || !payoutOk { return false; }
      }
      fiat := fiat[uid := invoice.(disbursed := true)];
      payouts := payouts + [uid];
      ok := true;
    }

    /** add_allow, with the user name already resolved. */
    method AddAllow(caller: UserId, video: VideoId, name: string) returns (ok: bool)
      modifies this
      ensures State() == StepCall(old(State()), Allow(caller, video, name))
      ensures ok <==> video in videos && videos[video].owner == caller && name != ""
      ensures State() == old(State()).(store := old(store).(allowlist := old(store).allowlist
                                                                         + if ok then {(video, name)} else {}))
    {
      if video !in videos || videos[video].owner != caller { return false; }
      if name == "" { return false; }
      InsertAllow(video, name, true);
      ok := true;
    }

    /** create_invoice_with_provider: the local row is written first and removed again if the provider refuses. */
    method CreateInvoice(uid: Uid, xendit: bool, buyer: UserId, video: VideoId, referrer: Option<UserId>,
                         providerOk: bool) returns (ok: bool)
      requires uid !in fiat && uid !in crypto
      modifies this
      ensures ok <==> video in videos && videos[video].owner != buyer && videos[video].price >= 0 && providerOk
                      && buyer in users && videos[video].owner in users
      ensures !ok ==> State() == old(State())
      ensures ok ==> State() == StepCall(old(State()), NewFiat(uid, Fiat(xendit, buyer, videos[video].owner, video,
                                                                         videos[video].price, referrer, false, false)))
      ensures ok ==> fiat == old(fiat)[uid := Fiat(xendit, buyer, videos[video].owner, video, videos[video].price,
                                                   referrer, false, false)]
    {
      if video !in videos { return false; }
      var entry := videos[video];
      if entry.owner == buyer || entry.price < 0 { return false; }
      if buyer !in users || entry.owner !in users { return false; }
      var before := fiat;
      fiat := fiat[uid := Fiat(xendit, buyer, entry.owner, video, entry.price, None, false, false)];
      if referrer.Some? { fiat := fiat[uid := fiat[uid].(referrer := referrer)]; }
      if !providerOk {
        fiat := fiat - {uid};
        assert fiat == before;
        return false;
      }
      ok := true;
    }
  }
}
