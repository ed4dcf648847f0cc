// Three ways to pay for a video (wallet, hosted invoice confirmed by webhook, x402 invoice confirmed on chain)
// and the entitlement they all lead to.

module Payments {
  import opened Common
  import opened Integers
  import opened WalletStore
  import opened X402Logs

  type Uid = nat  // invoice_uid, a fresh UUID on either table

  datatype User = User(name: string, admin: bool, hasBank: bool)
  datatype Video = Video(owner: UserId, price: I64)
  datatype Program = Program(enabled: bool, pct: Percent)

  /** A row of fiat_invoices. `paid` stands for status = 'paid' with paid_at set, which are written together. */
  datatype Fiat = Fiat(xendit: bool, buyer: UserId, creator: UserId, video: VideoId, amount: I64,
                       referrer: Option<UserId>, paid: bool, disbursed: bool)

  datatype CryptoStatus = Awaiting | Underpaid | Settled

  /** A row of x402_invoices. */
  datatype Crypto = Crypto(buyer: UserId, creator: UserId, video: VideoId, price: I64, required: nat, event: Expected,
                           referrer: Option<UserId>, status: CryptoStatus, tx: Option<nat>, received: nat)

  /** `payouts` lists the invoices whose money was sent, or confirmed as sent, to the creator. */
  datatype Shop = Shop(store: Store, nextRow: RowId, users: map<UserId, User>, videos: map<VideoId, Video>,
                       programs: map<VideoId, Program>, blocks: set<(UserId, UserId)>,
                       fiat: map<Uid, Fiat>, crypto: map<Uid, Crypto>, payouts: seq<Uid>)

  /** Which of the statements take effect whose errors the handler discards: the status, the two grants, the
      commission. */
  datatype Db = Db(mark: bool, purchase: bool, allow: bool, commission: bool)

  datatype Call =
    | Buy(buyer: UserId, video: VideoId, split: BasisPoints, referrer: Option<UserId>)
    | Webhook(uid: Uid, viaXendit: bool, saysPaid: bool, payoutOk: bool, db: Db)
    | Confirm(uid: Uid, txHash: nat, mined: bool, logs: seq<Log>, db: Db)
    | Disburse(uid: Uid, payoutOk: bool)
    | Allow(caller: UserId, video: VideoId, name: string)
    | NewFiat(uid: Uid, fiatInvoice: Fiat)
    | NewCrypto(uid: Uid, cryptoInvoice: Crypto)
    | WalletCall(op: Op)
    | PutVideo(video: VideoId, entry: Video)
    | PutProgram(video: VideoId, program: Program)
    | SetBlock(creator: UserId, user: UserId, blocked: bool)

  function NameOf(p: Shop, u: UserId): string {
    if u in p.users then p.users[u].name else ""
  }

  /** The trigger on purchases refuses a buyer whom the owner of the video has blocked. */
  predicate IsBlocked(p: Shop, buyer: UserId, video: VideoId) {
    video in p.videos && (p.videos[video].owner, buyer) in p.blocks
  }

  /** INSERT … ON CONFLICT DO NOTHING into purchases and allowlist, each in its own statement. */
  function Grant(p: Shop, buyer: UserId, video: VideoId, allowEmptyName: bool, db: Db): Shop {
    var bought := if IsBlocked(p, buyer, video) || !db.purchase then p.store.purchases
                  else p.store.purchases + {(buyer, video)};
    var name := NameOf(p, buyer);
    var listed := if (name == "" && !allowEmptyName) || !db.allow then p.store.allowlist
                  else p.store.allowlist + {(video, name)};
    p.(store := p.store.(purchases := bought, allowlist := listed))
  }

  /** The commission that a sale calls for: it has an affiliate, and its video a program. */
  function SaleCommission(p: Shop, buyer: UserId, owner: UserId, video: VideoId, price: I64, referrer: Option<UserId>,
                          invoice: Option<Uid>): Option<Op> {
    if referrer.None? || video !in p.programs then None
    else Some(CommissionOp(video, buyer, owner, referrer.value, price, p.programs[video].enabled,
                           p.programs[video].pct, invoice, p.nextRow, p.nextRow + 1))
  }

  /** Best-effort commission after a sale, in its own transaction. */
  function AfterSale(p: Shop, buyer: UserId, owner: UserId, video: VideoId, price: I64, referrer: Option<UserId>,
                     invoice: Option<Uid>): Shop {
    match SaleCommission(p, buyer, owner, video, price, referrer, invoice)
    case None => p
    case Some(op) => p.(store := Step(p.store, op), nextRow := p.nextRow + 2)
  }

  function BuyOp(p: Shop, c: Call): Op
    requires c.Buy? && c.video in p.videos
  {
    PayOp(c.buyer, p.videos[c.video].owner, c.video, p.videos[c.video].price, c.split,
          IsBlocked(p, c.buyer, c.video), NameOf(p, c.buyer), p.nextRow, p.nextRow + 1)
  }

  predicate BuySucceeds(p: Shop, c: Call)
    requires c.Buy?
  {
    c.video in p.videos && (c.buyer, c.video) !in p.store.purchases && Writes(p.store, BuyOp(p, c)).Some?
  }

  /** The payment event that decides a confirmation, if the transaction was mined and has one for the right video. */
  function PaidEventOf(p: Shop, c: Call): Option<PaidEvent>
    requires c.Confirm? && c.uid in p.crypto
  {
    if !c.mined then None else
    var found := FirstPaid(c.logs, p.crypto[c.uid].event);
    if found.Some? && found.value.video != p.crypto[c.uid].video then None else found
  }

  /** What a call needs apart from its guard against replays. */
  predicate Payable(p: Shop, c: Call) {
    match c
    case Webhook(uid, _, saysPaid, _, _) => uid in p.fiat && saysPaid
    case Confirm(uid, _, _, _, _) =>
      uid in p.crypto && PaidEventOf(p, c).Some? && PaidEventOf(p, c).value.amount >= p.crypto[uid].required
    case Disburse(uid, payoutOk) =>
      uid in p.fiat && p.fiat[uid].paid && (p.fiat[uid].xendit ==> CreatorHasBank(p, p.fiat[uid]) && payoutOk)
    case _ => false
  }

  /**
   * What the guards let through. `admin_disburse` reads the timestamp `disbursed_at` as text, which fails and counts
   * as absent, so its guard against a second disbursement never fires.
   */
  predicate Succeeds(p: Shop, c: Call) {
    && Payable(p, c)
    && (c.Webhook? ==> !p.fiat[c.uid].paid)
    && (c.Confirm? ==> !p.crypto[c.uid].status.Settled?)
  }

  predicate CreatorHasBank(p: Shop, i: Fiat) {
    i.creator in p.users && p.users[i.creator].hasBank
  }

  predicate PaysOut(p: Shop, c: Call)
    requires Payable(p, c)
  {
    || c.Disburse?
    || (c.Webhook? && c.viaXendit && c.payoutOk && !p.fiat[c.uid].disbursed && CreatorHasBank(p, p.fiat[c.uid]))
  }

  /** The body behind the guard. */
  function Paid(p: Shop, c: Call): Shop
    requires Payable(p, c)
  {
    match c
    case Webhook(uid, _, _, _, db) =>
      var i := p.fiat[uid];
      var q := AfterSale(Grant(Marked(p, c), i.buyer, i.video, true, db), i.buyer, i.creator, i.video, i.amount,
                         ReferrerOf(i.referrer, db), Some(uid));
      if PaysOut(p, c)
      then q.(fiat := q.fiat[uid := q.fiat[uid].(disbursed := true)], payouts := q.payouts + [uid])
      else q
    case Confirm(uid, _, _, _, db) =>
      var i := p.crypto[uid];
      AfterSale(Grant(Marked(p, c), i.buyer, i.video, false, db), i.buyer, i.creator, i.video, i.price,
                ReferrerOf(i.referrer, db), Some(uid))
    case Disburse(uid, _) =>
      p.(fiat := p.fiat[uid := p.fiat[uid].(disbursed := true)], payouts := p.payouts + [uid])
  }

  /** The invoice marked as paid, if that statement takes effect. */
  function Marked(p: Shop, c: Call): Shop
    requires Payable(p, c)
  {
    match c
    case Webhook(uid, _, _, _, db) => if db.mark then p.(fiat := p.fiat[uid := p.fiat[uid].(paid := true)]) else p
    case Confirm(uid, txHash, _, _, db) =>
      var received := p.crypto[uid].received + PaidEventOf(p, c).value.amount;
      if db.mark
      then p.(crypto := p.crypto[uid := p.crypto[uid].(status := Settled, tx := Some(txHash), received := received)])
      else p
    case _ => p
  }

  function ReferrerOf(referrer: Option<UserId>, db: Db): Option<UserId> {
    if db.commission then referrer else None
  }

  /** A confirmation below the required amount is recorded and leaves the invoice open. */
  function Recorded(p: Shop, c: Call): Shop {
    if c.Confirm? && c.db.mark && c.uid in p.crypto && !p.crypto[c.uid].status.Settled? && PaidEventOf(p, c).Some? then
      var i := p.crypto[c.uid];
      p.(crypto := p.crypto[c.uid := i.(status := Underpaid, tx := Some(c.txHash),
                                        received := i.received + PaidEventOf(p, c).value.amount)])
    else p
  }

  function StepCall(p: Shop, c: Call): Shop {
    match c
    case Buy(buyer, video, _, referrer) =>
      if !BuySucceeds(p, c) then p else
      var q := p.(store := Step(p.store, BuyOp(p, c)), nextRow := p.nextRow + 2);
      AfterSale(q, buyer, p.videos[video].owner, video, p.videos[video].price, referrer, None)
    case Webhook(_, _, _, _, _) => if Succeeds(p, c) then Paid(p, c) else p
    case Confirm(_, _, _, _, _) => if Succeeds(p, c) then Paid(p, c) else Recorded(p, c)
    case Disburse(_, _) => if Succeeds(p, c) then Paid(p, c) else p
    case Allow(caller, video, name) =>
      if video in p.videos && p.videos[video].owner == caller && name != ""
      then p.(store := p.store.(allowlist := p.store.allowlist + {(video, name)})) else p
    case NewFiat(uid, i) =>
      if uid in p.fiat || uid in p.crypto || i.buyer !in p.users || i.creator !in p.users then p
      else p.(fiat := p.fiat[uid := i.(paid := false, disbursed := false)])
    case NewCrypto(uid, i) =>
      if uid in p.fiat || uid in p.crypto || i.buyer !in p.users || i.creator !in p.users then p
      else p.(crypto := p.crypto[uid := i.(status := Awaiting, tx := None, received := 0)])
    case WalletCall(op) =>
      if op.PayOp? || op.CommissionOp? || !(NewRows(op) <= [p.nextRow, p.nextRow + 1]) then p
      else p.(store := Step(p.store, op), nextRow := p.nextRow + 2)
    case PutVideo(video, entry) =>
      if video in p.videos && p.videos[video].owner != entry.owner then p else p.(videos := p.videos[video := entry])
    case PutProgram(video, program) => p.(programs := p.programs[video := program])
    case SetBlock(creator, user, blocked) =>
      p.(blocks := if blocked then p.blocks + {(creator, user)} else p.blocks - {(creator, user)})
  }

  function RunCalls(p: Shop, cs: seq<Call>): Shop
    decreases |cs|
  {
    if cs == [] then p else StepCall(RunCalls(p, cs[..|cs| - 1]), cs[|cs| - 1])
  }

  /** user_has_view_access. */
  function ViewAccess(p: Shop, video: VideoId, user: UserId): bool {
    if video in p.videos && p.videos[video].price <= 0 then true
    else if video in p.videos && p.videos[video].owner == user then true
    else if user !in p.users then false
    else if p.users[user].admin then true
    else if (video, p.users[user].name) in p.store.allowlist then true
    else if (user, video) in p.store.purchases then true
    else HasPaidFiat(p, video, user)
  }

  predicate HasPaidFiat(p: Shop, video: VideoId, user: UserId) {
    exists uid | uid in p.fiat :: p.fiat[uid].video == video && p.fiat[uid].buyer == user && p.fiat[uid].paid
  }
}
