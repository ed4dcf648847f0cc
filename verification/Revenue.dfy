// Revenue shared with referring instances: share rows, an append-only ledger, and the totals of both.

module Revenue {

  import opened Common
  import opened Integers

  type Domain = string

  datatype Invoice = Invoice(id: string, kind: string)  // (invoice_id, invoice_type)
  datatype Status = Pending | Settled | Reversed
  datatype Share = Share(id: nat, invoice: Invoice, domain: Domain, gross: I64, cents: I64, status: Status)
  datatype Kind = Credit | Refund | Chargeback
  datatype Line = Line(share: nat, kind: Kind, cents: I64)
  datatype Policy = Policy(points: int, active: bool)

  /** The two tables, and the ledger lines whose INSERT failed after their share row was written. */
  datatype Books = Books(shares: seq<Share>, ledger: seq<Line>, lost: seq<Line>)

  datatype Outcome = Skipped | Recorded(cents: I64) | Error

  // ---- the share ----

  /** Rust's i64 division, which truncates toward zero. */
  function Truncated(x: int, d: int): (q: int)
    requires d > 0
    ensures x >= 0 ==> q * d <= x < (q + 1) * d
    ensures x <= 0 ==> q <= 0
  {
    if x >= 0 then x / d else -(-x / d)
  }

  function ShareCents(gross: I64, points: int): I64 {
    if points <= 0 || gross <= 0 then 0 else Truncated(Wrap64(gross * points), 10_000)
  }

  predicate ValidPoints(points: int) {
    0 <= points <= 5_000
  }

  lemma WrapBounds(x: nat)
    requires x > MAX_I64
    ensures Wrap64(x) + 0x1_0000_0000_0000_0000 <= x
  {
  }

  /** The share is the exact floor precisely when the product fits in 64 bits. */
  lemma FloorExactlyWhen(gross: I64, points: int)
    requires gross > 0 && points > 0
    ensures ShareCents(gross, points) == gross * points / 10_000 <==> gross * points <= MAX_I64
  {
    var x := gross * points;
    assert x > 0;
    if x > MAX_I64 {
      WrapBounds(x);
      var q, f := ShareCents(gross, points), x / 10_000;
      assert q * 10_000 <= Wrap64(x) || q <= 0;
      assert f * 10_000 + 10_000 > x;
    }
  }

  lemma ProductBound(gross: I64, points: int)
    requires gross > 0 && 0 < points <= 5_000
    ensures 0 < gross * points <= gross * 5_000
  {
  }

  /** Whatever is recorded is at most half of the gross amount, even when the product wraps. */
  lemma AtMostHalf(gross: I64, points: int)
    requires ValidPoints(points)
    ensures 2 * ShareCents(gross, points) <= if gross > 0 then gross else 0
    ensures gross <= 0 || points == 0 ==> ShareCents(gross, points) == 0
  {
    if gross > 0 && points > 0 {
      ProductBound(gross, points);
      var x := gross * points;
      var w := Wrap64(x);
      var q := Truncated(w, 10_000);
      assert w <= gross * 5_000;
    }
  }

  // ---- recording and reversing ----

  function FindInvoice(shares: seq<Share>, invoice: Invoice): (i: nat)
    ensures i <= |shares|
    ensures i < |shares| ==> shares[i].invoice == invoice
    ensures forall j :: 0 <= j < i ==> shares[j].invoice != invoice
  {
    if shares == [] || shares[0].invoice == invoice then 0 else 1 + FindInvoice(shares[1..], invoice)
  }

  predicate HasId(shares: seq<Share>, id: nat) {
    exists i :: 0 <= i < |shares| && shares[i].id == id
  }

  /** What the referral earns, if anything: no earlier row, a domain with an active policy, and a share that is not
      zero. */
  function Earned(b: Books, policies: map<Domain, Policy>, invoice: Invoice, domain: Option<Domain>, gross: I64)
    : Outcome
  {
    if FindInvoice(b.shares, invoice) < |b.shares| then Skipped
    else if domain.GetOr("") == "" || domain.GetOr("") !in policies || !policies[domain.GetOr("")].active then Skipped
    else if !ValidPoints(policies[domain.GetOr("")].points) then Error
    else
      var cents := ShareCents(gross, policies[domain.GetOr("")].points);
      if cents == 0 then Skipped else Recorded(cents)
  }

  function AddLine(b: Books, line: Line, lineOk: bool): Books {
    if lineOk then b.(ledger := b.ledger + [line]) else b.(lost := b.lost + [line])
  }

  /** process_revenue_share. shareOk and lineOk tell whether the two INSERTs reach the database. */
  function Process(b: Books, policies: map<Domain, Policy>, invoice: Invoice, domain: Option<Domain>, gross: I64,
                   id: nat, shareOk: bool, lineOk: bool): (r: (Books, Outcome))
  {
    match Earned(b, policies, invoice, domain, gross)
    case Recorded(cents) =>
      // The table checks cents >= 0 and the primary key.
      if !shareOk || cents < 0 || HasId(b.shares, id) then (b, Error)
      else
        var grown := b.(shares := b.shares + [Share(id, invoice, domain.GetOr(""), gross, cents, Pending)]);
        (AddLine(grown, Line(id, Credit, cents), lineOk), if lineOk then Recorded(cents) else Error)
    case other => (b, other)
  }

  /** reverse_revenue_share; None stands for an entry type other than refund and chargeback. */
  function Reverse(b: Books, invoice: Invoice, entry: Option<Kind>, updateOk: bool, lineOk: bool)
    : (r: (Books, Outcome))
  {
    var i := FindInvoice(b.shares, invoice);
    if entry.None? || entry.value.Credit? then (b, Error)
    else if i == |b.shares| || !b.shares[i].status.Pending? then (b, Skipped)
    else if !updateOk then (b, Error)
    else
      var share := b.shares[i];
      var changed := b.(shares := b.shares[i := share.(status := Reversed)]);
      (AddLine(changed, Line(share.id, entry.value, share.cents), lineOk),
       if lineOk then Recorded(share.cents) else Error)
  }

  datatype Event =
    | ProcessEvent(policies: map<Domain, Policy>, invoice: Invoice, domain: Option<Domain>, gross: I64, id: nat,
                   shareOk: bool, lineOk: bool)
    | ReverseEvent(invoice: Invoice, entry: Option<Kind>, updateOk: bool, lineOk: bool)

  function Step(b: Books, e: Event): Books {
    match e
    case ProcessEvent(policies, invoice, domain, gross, id, shareOk, lineOk) =>
      Process(b, policies, invoice, domain, gross, id, shareOk, lineOk).0
    case ReverseEvent(invoice, entry, updateOk, lineOk) => Reverse(b, invoice, entry, updateOk, lineOk).0
  }

  function Run(b: Books, es: seq<Event>): Books
    decreases |es|
  {
    if es == [] then b else Run(Step(b, es[0]), es[1..])
  }

  // ---- folding the ledger ----

  function Signed(line: Line): int {
    var cents: int := line.cents;
    if line.kind.Credit? then cents else -cents
  }

  /** Credits minus reversals, over the lines of one domain's shares. */
  function Net(shares: seq<Share>, lines: seq<Line>, domain: Domain): int {
    if lines == [] then 0
    else
      var last := lines[|lines| - 1];
      Net(shares, lines[..|lines| - 1], domain) + if Owner(shares, last.share) == Some(domain) then Signed(last) else 0
  }

  function Owner(shares: seq<Share>, id: nat): Option<Domain> {
    if shares == [] then None
    else if shares[0].id == id then Some(shares[0].domain)
    else Owner(shares[1..], id)
  }

  function Reversals(shares: seq<Share>, lines: seq<Line>, domain: Domain): int {
    if lines == [] then 0
    else
      var last := lines[|lines| - 1];
      Reversals(shares, lines[..|lines| - 1], domain)
        + if Owner(shares, last.share) == Some(domain) && !last.kind.Credit? then last.cents else 0
  }

  // ---- totals over the share rows ----

  function Total(shares: seq<Share>, domain: Domain, status: Status): int {
    if shares == [] then 0
    else
      var last := shares[|shares| - 1];
      Total(shares[..|shares| - 1], domain, status) + Part(last, domain, status)
  }

  // ---- what every step keeps ----

  function CountLines(lines: seq<Line>, id: nat, credit: bool): nat {
    if lines == [] then 0
    else
      var last := lines[|lines| - 1];
      CountLines(lines[..|lines| - 1], id, credit) + if last.share == id && last.kind.Credit? == credit then 1 else 0
  }

  predicate OneRowPerInvoice(shares: seq<Share>) {
    forall i, j :: 0 <= i < j < |shares| ==> shares[i].invoice != shares[j].invoice && shares[i].id != shares[j].id
  }

  predicate Known(shares: seq<Share>, lines: seq<Line>) {
    forall i :: 0 <= i < |lines| ==> HasId(shares, lines[i].share)
  }

  /** Lines written or lost. */
  function Both(b: Books, id: nat, credit: bool): nat {
    CountLines(b.ledger, id, credit) + CountLines(b.lost, id, credit)
  }

  /** One credit for every share, one reversal for every reversed one, counting lost lines too. */
  predicate LinesMatch(b: Books, share: Share) {
    && !share.status.Settled?
    && 0 < 2 * share.cents <= share.gross
    && Both(b, share.id, true) == 1
    && Both(b, share.id, false) == if share.status.Reversed? then 1 else 0
  }

  predicate Inv(b: Books) {
    && OneRowPerInvoice(b.shares)
    && Known(b.shares, b.ledger) && Known(b.shares, b.lost)
    && forall i :: 0 <= i < |b.shares| ==> LinesMatch(b, b.shares[i])
  }

  /** The books of one domain balance once the lost lines are added back. */
  predicate Balances(b: Books, domain: Domain) {
    && Net(b.shares, b.ledger, domain) + Net(b.shares, b.lost, domain) == Total(b.shares, domain, Pending)
    && Reversals(b.shares, b.ledger, domain) + Reversals(b.shares, b.lost, domain) == Total(b.shares, domain, Reversed)
  }

  lemma BothGrows(b: Books, line: Line, lineOk: bool, id: nat, credit: bool)
    ensures Both(AddLine(b, line, lineOk), id, credit) ==
            Both(b, id, credit) + if line.share == id && line.kind.Credit? == credit then 1 else 0
  {
    var lines := if lineOk then b.ledger else b.lost;
    assert (lines + [line])[..|lines|] == lines;
  }

  lemma KnownGrows(b: Books, shares: seq<Share>, line: Line, lineOk: bool)
    requires Known(b.shares, b.ledger) && Known(b.shares, b.lost) && HasId(shares, line.share)
    requires forall id :: HasId(b.shares, id) ==> HasId(shares, id)
    ensures var c := AddLine(b.(shares := shares), line, lineOk); Known(c.shares, c.ledger) && Known(c.shares, c.lost)
  {
    hide HasId;
  }

  lemma {:induction false} UnknownHasNoLines(shares: seq<Share>, lines: seq<Line>, id: nat, credit: bool)
    requires Known(shares, lines) && !HasId(shares, id)
    ensures CountLines(lines, id, credit) == 0
  {
    if lines != [] {
      var n := |lines| - 1;
      assert HasId(shares, lines[n].share);
      assert Known(shares, lines[..n]);
      UnknownHasNoLines(shares, lines[..n], id, credit);
    }
  }

  lemma NetAppend(shares: seq<Share>, lines: seq<Line>, line: Line, d: Domain)
    ensures Net(shares, lines + [line], d) ==
            Net(shares, lines, d) + if Owner(shares, line.share) == Some(d) then Signed(line) else 0
    ensures Reversals(shares, lines + [line], d) ==
            Reversals(shares, lines, d)
            + if Owner(shares, line.share) == Some(d) && !line.kind.Credit? then line.cents else 0
  {
    assert (lines + [line])[..|lines|] == lines;
  }

  /** Lines keep their owner when rows are added or their status changes. */
  ghost predicate SameOwners(shares: seq<Share>, others: seq<Share>) {
    forall id :: HasId(shares, id) ==> Owner(others, id) == Owner(shares, id)
  }

  lemma {:induction false} NetStable(shares: seq<Share>, others: seq<Share>, lines: seq<Line>, d: Domain)
    requires Known(shares, lines) && SameOwners(shares, others)
    ensures Net(others, lines, d) == Net(shares, lines, d) && Reversals(others, lines, d) == Reversals(shares, lines, d)
  {
    if lines != [] {
      var n := |lines| - 1;
      assert HasId(shares, lines[n].share);
      NetStable(shares, others, lines[..n], d);
    }
  }

  lemma {:induction false} OwnerOfNew(shares: seq<Share>, share: Share, id: nat)
    ensures HasId(shares, id) ==> Owner(shares + [share], id) == Owner(shares, id)
    ensures !HasId(shares, id) ==> Owner(shares + [share], id) == if id == share.id then Some(share.domain) else None
  {
    if shares != [] && shares[0].id != id {
      assert (shares + [share])[1..] == shares[1..] + [share];
      OwnerOfNew(shares[1..], share, id);
      assert HasId(shares[1..], id) <==> HasId(shares, id) by {
        assert forall i :: 0 <= i < |shares| - 1 ==> shares[1..][i] == shares[i + 1];
        if HasId(shares, id) {
          var i :| 0 <= i < |shares| && shares[i].id == id;
          assert shares[1..][i - 1].id == id;
        }
      }
    } else if shares != [] {
      assert HasId(shares, id);
    }
  }

  lemma {:induction false} OwnerOfChanged(shares: seq<Share>, i: nat, share: Share, id: nat)
    requires i < |shares| && share.id == shares[i].id && share.domain == shares[i].domain
    ensures Owner(shares[i := share], id) == Owner(shares, id)
  {
    if i > 0 && shares[0].id != id {
      assert shares[i := share][1..] == shares[1..][i - 1 := share];
      OwnerOfChanged(shares[1..], i - 1, share, id);
    } else if i == 0 {
      assert shares[i := share][1..] == shares[1..];
    }
  }

  lemma {:induction false} OwnerOfRow(shares: seq<Share>, i: nat)
    requires OneRowPerInvoice(shares) && i < |shares|
    ensures Owner(shares, shares[i].id) == Some(shares[i].domain)
  {
    if i > 0 {
      assert shares[0].id != shares[i].id;
      OwnerOfRow(shares[1..], i - 1);
    }
  }

  lemma TotalAppend(shares: seq<Share>, share: Share, d: Domain, status: Status)
    ensures Total(shares + [share], d, status) ==
            Total(shares, d, status) + if share.domain == d && share.status == status then share.cents else 0
  {
    assert (shares + [share])[..|shares|] == shares;
  }

  function Part(share: Share, d: Domain, status: Status): int {
    if share.domain == d && share.status == status then share.cents else 0
  }

  lemma {:induction false} TotalUpdate(shares: seq<Share>, i: nat, share: Share, d: Domain, status: Status)
    requires i < |shares|
    ensures Total(shares[i := share], d, status) ==
            Total(shares, d, status) - Part(shares[i], d, status) + Part(share, d, status)
  {
    var n := |shares| - 1;
    if i < n {
      assert shares[i := share][..n] == shares[..n][i := share];
      TotalUpdate(shares[..n], i, share, d, status);
    } else {
      assert shares[i := share][..n] == shares[..n];
    }
  }

  /** What the lines of a domain, lost ones too, say beyond what its share rows say: first pending, then reversed. */
  function Gaps(b: Books, d: Domain): (int, int) {
    (Net(b.shares, b.ledger, d) + Net(b.shares, b.lost, d) - Total(b.shares, d, Pending),
     Reversals(b.shares, b.ledger, d) + Reversals(b.shares, b.lost, d) - Total(b.shares, d, Reversed))
  }

  lemma LineGaps(b: Books, line: Line, lineOk: bool, d: Domain)
    ensures var (g, own) := (Gaps(b, d), Owner(b.shares, line.share) == Some(d));
            Gaps(AddLine(b, line, lineOk), d) ==
            (g.0 + (if own then Signed(line) else 0), g.1 + (if own && !line.kind.Credit? then line.cents else 0))
  {
    hide Net, Reversals, Total, Owner;
    NetAppend(b.shares, if lineOk then b.ledger else b.lost, line, d);
  }

  lemma AddingKeepsOwners(shares: seq<Share>, share: Share)
    ensures SameOwners(shares, shares + [share])
  {
    hide HasId, Owner;
    forall id ensures HasId(shares, id) ==> Owner(shares + [share], id) == Owner(shares, id) {
      OwnerOfNew(shares, share, id);
    }
  }

  lemma ReversingKeepsOwners(shares: seq<Share>, i: nat)
    requires i < |shares|
    ensures SameOwners(shares, shares[i := shares[i].(status := Reversed)])
  {
    hide HasId, Owner;
    var share := shares[i].(status := Reversed);
    forall id ensures Owner(shares[i := share], id) == Owner(shares, id) {
      OwnerOfChanged(shares, i, share, id);
    }
  }

  /** Neither fold changes when lines keep their owners. */
  lemma FoldsStay(b: Books, shares: seq<Share>, d: Domain)
    requires Known(b.shares, b.ledger) && Known(b.shares, b.lost) && SameOwners(b.shares, shares)
    ensures Net(shares, b.ledger, d) + Net(shares, b.lost, d) == Net(b.shares, b.ledger, d) + Net(b.shares, b.lost, d)
    ensures Reversals(shares, b.ledger, d) + Reversals(shares, b.lost, d) ==
            Reversals(b.shares, b.ledger, d) + Reversals(b.shares, b.lost, d)
  {
    hide Known, SameOwners, Net, Reversals;
    NetStable(b.shares, shares, b.ledger, d);
    NetStable(b.shares, shares, b.lost, d);
  }

  lemma ShareGaps(b: Books, share: Share, d: Domain)
    requires Known(b.shares, b.ledger) && Known(b.shares, b.lost) && share.status.Pending?
    ensures var g := Gaps(b, d);
            Gaps(b.(shares := b.shares + [share]), d) == (g.0 - (if share.domain == d then share.cents else 0), g.1)
  {
    hide Known, SameOwners, Net, Reversals, Total;
    AddingKeepsOwners(b.shares, share);
    FoldsStay(b, b.shares + [share], d);
    TotalAppend(b.shares, share, d, Pending);
    TotalAppend(b.shares, share, d, Reversed);
  }

  lemma ReversalGaps(b: Books, i: nat, d: Domain)
    requires Known(b.shares, b.ledger) && Known(b.shares, b.lost) && i < |b.shares| && b.shares[i].status.Pending?
    ensures var (g, part) := (Gaps(b, d), if b.shares[i].domain == d then b.shares[i].cents else 0);
            Gaps(b.(shares := b.shares[i := b.shares[i].(status := Reversed)]), d) == (g.0 + part, g.1 - part)
  {
    hide Known, SameOwners, Net, Reversals, Total;
    var share := b.shares[i].(status := Reversed);
    ReversingKeepsOwners(b.shares, i);
    FoldsStay(b, b.shares[i := share], d);
    TotalUpdate(b.shares, i, share, d, Pending);
    TotalUpdate(b.shares, i, share, d, Reversed);
  }

  lemma NewShareBalances(b: Books, share: Share, lineOk: bool, d: Domain)
    requires Inv(b) && Balances(b, d) && !HasId(b.shares, share.id) && share.status.Pending?
    ensures Balances(AddLine(b.(shares := b.shares + [share]), Line(share.id, Credit, share.cents), lineOk), d)
  {
    var line := Line(share.id, Credit, share.cents);
    var grown := b.(shares := b.shares + [share]);
    assert Known(b.shares, b.ledger) && Known(b.shares, b.lost);
    OwnerOfNew(b.shares, share, share.id);
    assert Signed(line) == share.cents;
    hide *;
    ShareGaps(b, share, d);
    LineGaps(grown, line, lineOk, d);
  }

  lemma ReversedShareBalances(b: Books, i: nat, kind: Kind, lineOk: bool, d: Domain)
    requires Inv(b) && Balances(b, d) && i < |b.shares| && b.shares[i].status.Pending? && !kind.Credit?
    ensures var changed := b.(shares := b.shares[i := b.shares[i].(status := Reversed)]);
            Balances(AddLine(changed, Line(b.shares[i].id, kind, b.shares[i].cents), lineOk), d)
  {
    var share := b.shares[i].(status := Reversed);
    var line := Line(share.id, kind, share.cents);
    var changed := b.(shares := b.shares[i := share]);
    assert Known(b.shares, b.ledger) && Known(b.shares, b.lost);
    OwnerOfChanged(b.shares, i, share, share.id);
    OwnerOfRow(b.shares, i);
    assert Signed(line) == 0 - share.cents;
    hide *;
    ReversalGaps(b, i, d);
    LineGaps(changed, line, lineOk, d);
  }

  lemma StepBalances(b: Books, e: Event, d: Domain)
    requires Inv(b) && Balances(b, d)
    ensures Balances(Step(b, e), d)
  {
    hide Balances, Inv, ShareCents, HasId, FindInvoice, AddLine;
    match e {
      case ProcessEvent(policies, invoice, domain, gross, id, shareOk, lineOk) =>
        var earned := Earned(b, policies, invoice, domain, gross);
        if earned.Recorded? && shareOk && earned.cents >= 0 && !HasId(b.shares, id) {
          NewShareBalances(b, Share(id, invoice, domain.GetOr(""), gross, earned.cents, Pending), lineOk, d);
        }
      case ReverseEvent(invoice, entry, updateOk, lineOk) =>
        var i := FindInvoice(b.shares, invoice);
        if entry.Some? && !entry.value.Credit? && i < |b.shares| && b.shares[i].status.Pending? && updateOk {
          ReversedShareBalances(b, i, entry.value, lineOk, d);
        }
    }
  }

  lemma NewIdHasNoLines(b: Books, id: nat)
    requires Known(b.shares, b.ledger) && Known(b.shares, b.lost) && !HasId(b.shares, id)
    ensures Both(b, id, true) == 0 && Both(b, id, false) == 0
  {
    UnknownHasNoLines(b.shares, b.ledger, id, true);
    UnknownHasNoLines(b.shares, b.ledger, id, false);
    UnknownHasNoLines(b.shares, b.lost, id, true);
    UnknownHasNoLines(b.shares, b.lost, id, false);
  }

  lemma OthersStillMatch(b: Books, line: Line, lineOk: bool, share: Share)
    requires LinesMatch(b, share) && line.share != share.id
    ensures LinesMatch(AddLine(b, line, lineOk), share)
  {
    BothGrows(b, line, lineOk, share.id, true);
    BothGrows(b, line, lineOk, share.id, false);
  }

  lemma NewMatches(b: Books, share: Share, lineOk: bool)
    requires Both(b, share.id, true) == 0 && Both(b, share.id, false) == 0
    requires share.status.Pending? && 0 < 2 * share.cents <= share.gross
    ensures LinesMatch(AddLine(b, Line(share.id, Credit, share.cents), lineOk), share)
  {
    var line := Line(share.id, Credit, share.cents);
    BothGrows(b, line, lineOk, share.id, true);
    BothGrows(b, line, lineOk, share.id, false);
  }

  lemma NewShareMatches(b: Books, grown: Books, share: Share, lineOk: bool)
    requires grown == b.(shares := b.shares + [share]) && !HasId(b.shares, share.id)
    requires forall i :: 0 <= i < |b.shares| ==> LinesMatch(b, b.shares[i])
    requires LinesMatch(AddLine(grown, Line(share.id, Credit, share.cents), lineOk), share)
    ensures forall i :: 0 <= i < |grown.shares| ==>
              LinesMatch(AddLine(grown, Line(share.id, Credit, share.cents), lineOk), grown.shares[i])
  {
    var line := Line(share.id, Credit, share.cents);
    forall i | 0 <= i < |b.shares| ensures LinesMatch(AddLine(grown, line, lineOk), b.shares[i]) {
      assert b.shares[i].id != share.id;
      assert LinesMatch(grown, b.shares[i]) by { assert LinesMatch(b, b.shares[i]); }
      OthersStillMatch(grown, line, lineOk, b.shares[i]);
    }
    hide LinesMatch, HasId;
  }

  lemma NewShareKeepsInv(b: Books, share: Share, lineOk: bool)
    requires Inv(b) && !HasId(b.shares, share.id) && FindInvoice(b.shares, share.invoice) == |b.shares|
    requires share.status.Pending? && 0 < 2 * share.cents <= share.gross
    ensures Inv(AddLine(b.(shares := b.shares + [share]), Line(share.id, Credit, share.cents), lineOk))
  {
    var grown := b.(shares := b.shares + [share]);
    assert forall i :: 0 <= i < |b.shares| ==> grown.shares[i] == b.shares[i] && b.shares[i].id != share.id;
    assert forall id :: HasId(b.shares, id) ==> HasId(grown.shares, id);
    assert HasId(grown.shares, share.id) by { assert grown.shares[|b.shares|] == share; }
    assert OneRowPerInvoice(grown.shares);
    hide HasId, Both, OneRowPerInvoice, FindInvoice, LinesMatch, Known;
    KnownGrows(b, grown.shares, Line(share.id, Credit, share.cents), lineOk);
    NewIdHasNoLines(b, share.id);
    BothIgnoresShares(b, grown, share.id);
    NewMatches(grown, share, lineOk);
    NewShareMatches(b, grown, share, lineOk);
  }

  lemma BothIgnoresShares(b: Books, c: Books, id: nat)
    requires c == b.(shares := c.shares)
    ensures Both(c, id, true) == Both(b, id, true) && Both(c, id, false) == Both(b, id, false)
  {
  }

  lemma ReversedShareKeepsInv(b: Books, i: nat, kind: Kind, lineOk: bool)
    requires Inv(b) && i < |b.shares| && b.shares[i].status.Pending? && !kind.Credit?
    ensures var changed := b.(shares := b.shares[i := b.shares[i].(status := Reversed)]);
            Inv(AddLine(changed, Line(b.shares[i].id, kind, b.shares[i].cents), lineOk))
  {
    var share := b.shares[i].(status := Reversed);
    var line := Line(share.id, kind, share.cents);
    var changed := b.(shares := b.shares[i := share]);
    var c := AddLine(changed, line, lineOk);
    assert forall j :: 0 <= j < |b.shares| ==>
        c.shares[j].id == b.shares[j].id && c.shares[j].invoice == b.shares[j].invoice;
    KnownGrows(b, changed.shares, line, lineOk);
    hide Known, HasId, CountLines;
    forall j | 0 <= j < |c.shares| ensures LinesMatch(c, c.shares[j]) {
      assert LinesMatch(b, b.shares[j]);
      assert j != i ==> c.shares[j].id != share.id;
      BothGrows(changed, line, lineOk, c.shares[j].id, true);
      BothGrows(changed, line, lineOk, c.shares[j].id, false);
    }
  }

  lemma StepKeepsInv(b: Books, e: Event)
    requires Inv(b)
    ensures Inv(Step(b, e))
  {
    match e {
      case ProcessEvent(policies, invoice, domain, gross, id, shareOk, lineOk) =>
        var earned := Earned(b, policies, invoice, domain, gross);
        if earned.Recorded? && shareOk && earned.cents >= 0 && !HasId(b.shares, id) {
          AtMostHalf(gross, policies[domain.GetOr("")].points);
          NewShareKeepsInv(b, Share(id, invoice, domain.GetOr(""), gross, earned.cents, Pending), lineOk);
        }
      case ReverseEvent(invoice, entry, updateOk, lineOk) =>
        var i := FindInvoice(b.shares, invoice);
        if entry.Some? && !entry.value.Credit? && i < |b.shares| && b.shares[i].status.Pending? && updateOk {
          ReversedShareKeepsInv(b, i, entry.value, lineOk);
        }
    }
  }

  lemma {:induction false} RunKeepsInv(b: Books, es: seq<Event>, d: Domain)
    requires Inv(b) && Balances(b, d)
    ensures Inv(Run(b, es)) && Balances(Run(b, es), d)
    decreases |es|
  {
    if es != [] {
      StepKeepsInv(b, es[0]);
      StepBalances(b, es[0], d);
      RunKeepsInv(Step(b, es[0]), es[1..], d);
    }
  }

  const EMPTY := Books([], [], [])

  /** After any run: one share row per invoice, at most one credit and one reversal line for it, and a share of at
      most half. */
  lemma OneShareOneCredit(es: seq<Event>, i: nat)
    requires i < |Run(EMPTY, es).shares|
    ensures var b := Run(EMPTY, es);
            var share := b.shares[i];
            && (forall j :: 0 <= j < |b.shares| && b.shares[j].invoice == share.invoice ==> j == i)
            && 0 < 2 * share.cents <= share.gross
            && CountLines(b.ledger, share.id, true) <= 1
            && CountLines(b.ledger, share.id, false) <= if share.status.Reversed? then 1 else 0
  {
    RunKeepsInv(EMPTY, es, "");
    assert LinesMatch(Run(EMPTY, es), Run(EMPTY, es).shares[i]);
  }

  /** A domain's totals over the share rows are the fold of its ledger lines exactly when the lines that were lost
      cancel out. */
  lemma TotalsAreLedgerFold(es: seq<Event>, d: Domain)
    ensures var b := Run(EMPTY, es);
            && (Total(b.shares, d, Pending) == Net(b.shares, b.ledger, d) <==> Net(b.shares, b.lost, d) == 0)
            && (Total(b.shares, d, Reversed) == Reversals(b.shares, b.ledger, d) <==>
                Reversals(b.shares, b.lost, d) == 0)
            && Total(b.shares, d, Settled) == 0
  {
    RunKeepsInv(EMPTY, es, d);
    var b := Run(EMPTY, es);
    NoneSettled(b, b.shares, d);
  }

  lemma {:induction false} NoneSettled(b: Books, shares: seq<Share>, d: Domain)
    requires forall i :: 0 <= i < |shares| ==> LinesMatch(b, shares[i])
    ensures Total(shares, d, Settled) == 0
  {
    if shares != [] {
      assert LinesMatch(b, shares[|shares| - 1]);
      NoneSettled(b, shares[..|shares| - 1], d);
    }
  }

  /** A share row whose ledger line fails: the rows say something is owed and the ledger says nothing. */
  lemma LostLineDisagrees(policies: map<Domain, Policy>, invoice: Invoice, d: Domain, gross: I64, id: nat)
    requires d != "" && d in policies && policies[d].active && ValidPoints(policies[d].points)
    requires ShareCents(gross, policies[d].points) > 0
    ensures var b := Run(EMPTY, [ProcessEvent(policies, invoice, Some(d), gross, id, true, false)]);
            && Total(b.shares, d, Pending) == ShareCents(gross, policies[d].points) && Net(b.shares, b.ledger, d) == 0
            && Process(b, policies, invoice, Some(d), gross, id + 1, true, true) == (b, Skipped)
  {
    var e := ProcessEvent(policies, invoice, Some(d), gross, id, true, false);
    assert [e][1..] == [];
    assert Run(EMPTY, [e]) == Run(Step(EMPTY, e), [e][1..]) == Step(EMPTY, e);
    var share := Share(id, invoice, d, gross, ShareCents(gross, policies[d].points), Pending);
    assert Step(EMPTY, e).shares == [share];
    assert [share][..0] == [];
  }

  predicate AllLinesWritten(es: seq<Event>) {
    forall i :: 0 <= i < |es| ==> es[i].lineOk
  }

  lemma {:induction false} NothingLost(b: Books, es: seq<Event>)
    requires AllLinesWritten(es)
    ensures Run(b, es).lost == b.lost
    decreases |es|
  {
    if es != [] {
      assert es[0].lineOk;
      NothingLost(Step(b, es[0]), es[1..]);
    }
  }

  /** So without database errors the ledger always accounts for what is pending and what was reversed. */
  lemma LedgerAgrees(es: seq<Event>, d: Domain)
    requires AllLinesWritten(es)
    ensures var b := Run(EMPTY, es);
            && Net(b.shares, b.ledger, d) == Total(b.shares, d, Pending)
            && Reversals(b.shares, b.ledger, d) == Total(b.shares, d, Reversed)
  {
    NothingLost(EMPTY, es);
    TotalsAreLedgerFold(es, d);
  }

  lemma {:induction false} RowsStay(b: Books, es: seq<Event>, i: nat)
    requires i < |b.shares|
    ensures i < |Run(b, es).shares|
    ensures Run(b, es).shares[i] == b.shares[i] || Run(b, es).shares[i] == b.shares[i].(status := Reversed)
    decreases |es|
  {
    if es != [] { RowsStay(Step(b, es[0]), es[1..], i); }
  }

  /** Processing an invoice that has a row does nothing, however much later. */
  lemma ReplayIsSkipped(b: Books, es: seq<Event>, i: nat, policies: map<Domain, Policy>, domain: Option<Domain>,
                        gross: I64,
                        id: nat, shareOk: bool, lineOk: bool)
    requires i < |b.shares|
    ensures var c := Run(b, es);
            Process(c, policies, b.shares[i].invoice, domain, gross, id, shareOk, lineOk) == (c, Skipped)
  {
    RowsStay(b, es, i);
  }

  // ---- the handlers over their tables ----

  class Desk {
    var shares: seq<Share>
    var ledger: seq<Line>
    var policies: map<Domain, Policy>
    ghost var lost: seq<Line>

    ghost function State(): Books
      reads this
    {
      Books(shares, ledger, lost)
    }

    constructor ()
      ensures State() == EMPTY && policies == map[]
    {
      shares, ledger, policies, lost := [], [], map[], [];
    }

    method RecordLedgerEntry(share: nat, kind: Kind, cents: I64, dbOk: bool) returns (ok: bool)
      modifies this
      ensures State() == AddLine(old(State()), Line(share, kind, cents), dbOk)
      ensures policies == old(policies) && ok == dbOk
    {
      if dbOk {
        ledger := ledger + [Line(share, kind, cents)];
      } else {
        lost := lost + [Line(share, kind, cents)];
      }
      ok := dbOk;
    }

    method ProcessRevenueShare(invoice: Invoice, domain: Option<Domain>, gross: I64, id: nat, shareOk: bool,
                               lineOk: bool)
      returns (outcome: Outcome)
      modifies this
      ensures (State(), outcome) == Process(old(State()), policies, invoice, domain, gross, id, shareOk, lineOk)
      ensures policies == old(policies)
      ensures var (name, b) := (domain.GetOr(""), old(State()));
        if (exists i :: 0 <= i < |old(shares)| && old(shares)[i].invoice == invoice)
           || name == "" || name !in policies || !policies[name].active
        then outcome == Skipped && State() == b
        else if policies[name].points < 0 || policies[name].points > 5_000 then outcome == Error && State() == b
        else
          var cents := ShareCents(gross, policies[name].points);
          if cents == 0 then outcome == Skipped && State() == b
          else if !shareOk || cents < 0 || HasId(old(shares), id) then outcome == Error && State() == b
          else
            && shares == old(shares) + [Share(id, invoice, name, gross, cents, Pending)]
            && ledger == old(ledger) + (if lineOk then [Line(id, Credit, cents)] else [])
            && outcome == if lineOk then Recorded(cents) else Error
    {
      if FindInvoice(shares, invoice) < |shares| { return Skipped; }
      var name := domain.GetOr("");
      if name == "" || name !in policies { return Skipped; }
      var policy := policies[name];
      if !policy.active { return Skipped; }
      if !ValidPoints(policy.points) { return Error; }
      var cents := ShareCents(gross, policy.points);
      if cents == 0 { return Skipped; }
      if !shareOk || cents < 0 || HasId(shares, id) { return Error; }
      shares := shares + [Share(id, invoice, name, gross, cents, Pending)];
      var ok := RecordLedgerEntry(id, Credit, cents, lineOk);
      outcome := if ok then Recorded(cents) else Error;
    }

    method ReverseRevenueShare(invoice: Invoice, entry: Option<Kind>, updateOk: bool, lineOk: bool)
      returns (outcome: Outcome)
      modifies this
      ensures (State(), outcome) == Reverse(old(State()), invoice, entry, updateOk, lineOk)
      ensures policies == old(policies)
      ensures var b := old(State());
        if entry != Some(Refund) && entry != Some(Chargeback) then outcome == Error && State() == b
        else
          var i := FindInvoice(old(shares), invoice);
          if i == |old(shares)| || !old(shares)[i].status.Pending? then outcome == Skipped && State() == b
          else if !updateOk then outcome == Error && State() == b
          else
            var share := old(shares)[i];
            && shares == old(shares)[i := share.(status := Reversed)]
            && ledger == old(ledger) + (if lineOk then [Line(share.id, entry.value, share.cents)] else [])
            && outcome == if lineOk then Recorded(share.cents) else Error
    {
      if entry.None? || entry.value.Credit? { return Error; }
      var i := FindInvoice(shares, invoice);
      if i == |shares| || !shares[i].status.Pending? { return Skipped; }
      if !updateOk { return Error; }
      var share := shares[i];
      shares := shares[i := share.(status := Reversed)];
      var ok := RecordLedgerEntry(share.id, entry.value, share.cents, lineOk);
      outcome := if ok then Recorded(share.cents) else Error;
    }

    /** set_share_policy: an upsert that also reactivates. */
    method SetSharePolicy(domain: Domain, points: int) returns (ok: bool)
      modifies this`policies
      ensures ok <==> ValidPoints(points)
      ensures policies == if ok then old(policies)[domain := Policy(points, true)] else old(policies)
    {
      ok := ValidPoints(points);
      if ok { policies := policies[domain := Policy(points, true)]; }
    }
  }
}
