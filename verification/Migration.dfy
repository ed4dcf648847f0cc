// The storage migration job: two counted loops over collected files, with retries, resume and cancellation.

module Migration {

  import opened Common
  import opened Text
  import opened TreeWalk

  const MAX_ATTEMPTS := 3
  const MAX_RETRIES := MAX_ATTEMPTS - 1

  datatype Scope = Uploads | Media

  datatype Item = Item(scope: Scope, path: Path)

  type Key = string

  // ---- object keys ----

  function Prefix(scope: Scope): string {
    if scope.Uploads? then "uploads/" else "videos/"
  }

  /** A relative path as the operating system writes it. */
  function Joined(p: Path): string {
    Join(p, "/")
  }

  /** replace('\\', "/"). */
  function Slashed(s: string): (r: string)
    ensures |r| == |s|
    ensures forall i :: 0 <= i < |s| ==> r[i] == if s[i] == '\\' then '/' else s[i]
  {
    if s == [] then [] else [if s[0] == '\\' then '/' else s[0]] + Slashed(s[1..])
  }

  function KeyOf(item: Item): Key {
    Prefix(item.scope) + Slashed(Joined(item.path))
  }

  predicate CleanName(n: Name) {
    '\\' !in n && '/' !in n
  }

  predicate CleanPath(p: Path) {
    p != [] && forall i :: 0 <= i < |p| ==> CleanName(p[i])
  }

  /** The first separator tells where the first component ends. */
  lemma {:induction false} JoinedIsInjective(p: Path, q: Path)
    requires CleanPath(p) && CleanPath(q) && Joined(p) == Joined(q)
    ensures p == q
  {
    var s := Joined(p);
    if |p| > 1 {
      assert s[|p[0]|] == '/' && s[|q[0]|] == '/';
      assert forall i :: 0 <= i < |p[0]| ==> s[i] == p[0][i] && s[i] != '/';
      assert forall i :: 0 <= i < |q[0]| ==> s[i] == q[0][i] && s[i] != '/';
      assert p[0] == s[..|p[0]|] == q[0];
      assert Joined(p[1..]) == s[|p[0]| + 1..] == Joined(q[1..]);
      JoinedIsInjective(p[1..], q[1..]);
    }
    assert p == [p[0]] + p[1..] && q == [q[0]] + q[1..];
  }

  lemma ScopesAreApart(a: Item, b: Item)
    requires KeyOf(a) == KeyOf(b)
    ensures a.scope == b.scope && Slashed(Joined(a.path)) == Slashed(Joined(b.path))
  {
    var u, v := Prefix(a.scope), Prefix(b.scope);
    assert KeyOf(a)[0] == u[0] && KeyOf(b)[0] == v[0];
    assert Slashed(Joined(a.path)) == KeyOf(a)[|u|..];
    assert Slashed(Joined(b.path)) == KeyOf(b)[|v|..];
  }

  /** Names do not contain the separator. */
  predicate IsPath(p: Path) {
    p != [] && forall i :: 0 <= i < |p| ==> '/' !in p[i]
  }

  /** The path with every name split at its backslashes. */
  function Parts(p: Path): (parts: Path)
    requires p != []
    ensures parts != []
  {
    if |p| == 1 then Split(p[0], '\\') else Split(p[0], '\\') + Parts(p[1..])
  }

  lemma {:induction false} SplitKeepsOut(s: string, c: char, d: char)
    requires d !in s
    ensures forall i :: 0 <= i < |Split(s, c)| ==> d !in Split(s, c)[i]
    decreases |s|
  {
    var i := IndexOf(s, c);
    if i < |s| { SplitKeepsOut(s[i + 1..], c, d); }
  }

  lemma {:induction false} PartsAreClean(p: Path)
    requires IsPath(p)
    ensures CleanPath(Parts(p))
  {
    var first := Split(p[0], '\\');
    SplitKeepsOut(p[0], '\\', '/');
    if |p| > 1 { PartsAreClean(p[1..]); }
  }

  lemma SlashedAppend(a: string, b: string)
    ensures Slashed(a + b) == Slashed(a) + Slashed(b)
  {
  }

  lemma {:induction false} JoinedAppend(p: Path, q: Path)
    requires p != [] && q != []
    ensures Joined(p + q) == Joined(p) + "/" + Joined(q)
  {
    if |p| == 1 {
      assert (p + q)[1..] == q;
    } else {
      assert (p + q)[1..] == p[1..] + q;
      JoinedAppend(p[1..], q);
    }
  }

  lemma SlashedClean(s: string)
    requires '\\' !in s
    ensures Slashed(s) == s
  {
  }

  lemma SlashedAround(head: string, tail: string)
    requires '\\' !in head
    ensures Slashed(head + "\\" + tail) == head + "/" + Slashed(tail)
  {
    SlashedAppend(head + "\\", tail);
    SlashedAppend(head, "\\");
    SlashedClean(head);
  }

  /** Turning backslashes into slashes splits a name. */
  lemma {:induction false} SlashedIsSplit(s: string)
    ensures Slashed(s) == Joined(Split(s, '\\'))
    decreases |s|
  {
    var i := IndexOf(s, '\\');
    if i < |s| {
      var head, tail := s[..i], s[i + 1..];
      assert s == head + "\\" + tail;
      SlashedAround(head, tail);
      SlashedIsSplit(tail);
      JoinedAppend([head], Split(tail, '\\'));
    } else {
      assert s == s[..i];
      SlashedClean(s);
    }
  }

  lemma SlashedAtSlash(a: string, b: string)
    ensures Slashed(a + "/" + b) == Slashed(a) + "/" + Slashed(b)
  {
    SlashedAppend(a + "/", b);
    SlashedAppend(a, "/");
    SlashedClean("/");
    hide Slashed;
  }

  lemma {:induction false} SlashedIsParts(p: Path)
    requires p != []
    ensures Slashed(Joined(p)) == Joined(Parts(p))
  {
    SlashedIsSplit(p[0]);
    if |p| > 1 {
      SlashedIsParts(p[1..]);
      assert p == [p[0]] + p[1..];
      JoinedAppend([p[0]], p[1..]);
      JoinedAppend(Split(p[0], '\\'), Parts(p[1..]));
      assert Joined([p[0]]) == p[0];
      hide Slashed, Joined, Split;
      SlashedAtSlash(p[0], Joined(p[1..]));
    }
  }

  /** Two files share an object key exactly when their paths agree once every name is split at its backslashes. */
  lemma KeysAgreeExactlyWhen(a: Item, b: Item)
    requires IsPath(a.path) && IsPath(b.path)
    ensures KeyOf(a) == KeyOf(b) <==> a.scope == b.scope && Parts(a.path) == Parts(b.path)
  {
    SlashedIsParts(a.path);
    SlashedIsParts(b.path);
    if KeyOf(a) == KeyOf(b) {
      ScopesAreApart(a, b);
      PartsAreClean(a.path);
      PartsAreClean(b.path);
      JoinedIsInjective(Parts(a.path), Parts(b.path));
    }
  }

  lemma {:induction false} CleanParts(p: Path)
    requires CleanPath(p)
    ensures Parts(p) == p
  {
    SplitNone(p[0], '\\');
    if |p| > 1 {
      CleanParts(p[1..]);
      assert p == [p[0]] + p[1..];
    }
  }

  /** Uploads are stored below uploads/ and media below videos/, under their path with every name split. */
  lemma KeysAreScoped(item: Item)
    requires IsPath(item.path)
    ensures KeyOf(item) == (if item.scope.Uploads? then "uploads/" else "videos/") + Join(Parts(item.path), "/")
  {
    SlashedIsParts(item.path);
  }

  /** In particular, without backslashes in file names two files never share an object key. */
  lemma CleanKeysAreDistinct(a: Item, b: Item)
    requires CleanPath(a.path) && CleanPath(b.path)
    ensures KeyOf(a) == KeyOf(b) <==> a == b
  {
    KeysAgreeExactlyWhen(a, b);
    CleanParts(a.path);
    CleanParts(b.path);
  }

  /** With them, they can: a file named a\b and a file b in directory a are stored under one key. */
  lemma BackslashNamesCollide()
    ensures KeyOf(Item(Media, ["a\\b"])) == KeyOf(Item(Media, ["a", "b"]))
  {
    var one, two := Joined(["a\\b"]), Joined(["a", "b"]);
    assert ["a", "b"][1..] == ["b"];
    assert one == "a\\b" && two == "a/b";
    assert Slashed(one) == Slashed(two);
  }

  // ---- what a job records ----

  datatype Result = Copied | Failed | Skipped

  datatype Row = Row(item: Item, result: Result, retries: nat)

  function Count(rows: seq<Row>, result: Result): nat {
    if rows == [] then 0
    else Count(rows[..|rows| - 1], result) + if rows[|rows| - 1].result == result then 1 else 0
  }

  function Retries(rows: seq<Row>): nat {
    if rows == [] then 0 else Retries(rows[..|rows| - 1]) + rows[|rows| - 1].retries
  }

  predicate GoodRow(row: Row) {
    match row.result
    case Copied => row.retries <= MAX_RETRIES
    case Failed => row.retries == MAX_RETRIES
    case Skipped => row.retries == 0
  }

  predicate GoodRows(rows: seq<Row>) {
    forall i :: 0 <= i < |rows| ==> GoodRow(rows[i])
  }

  lemma {:induction false} CountsAddUp(rows: seq<Row>)
    requires GoodRows(rows)
    ensures Count(rows, Copied) + Count(rows, Failed) + Count(rows, Skipped) == |rows|
    ensures MAX_RETRIES * Count(rows, Failed) <= Retries(rows)
    ensures Retries(rows) <= MAX_RETRIES * (Count(rows, Copied) + Count(rows, Failed))
  {
    if rows != [] {
      assert GoodRow(rows[|rows| - 1]);
      CountsAddUp(rows[..|rows| - 1]);
    }
  }

  lemma {:induction false} NoneFailed(rows: seq<Row>, i: nat)
    requires Count(rows, Failed) == 0 && i < |rows|
    ensures !rows[i].result.Failed?
  {
    if i < |rows| - 1 { NoneFailed(rows[..|rows| - 1], i); }
  }

  // ---- the specification of the loops ----

  /** Failed attempts before the first that succeeds, out of the three allowed. */
  function RetriesUsed(item: Item, put: (Item, nat) -> bool, attempt: nat): Option<nat>
    requires 1 <= attempt <= MAX_ATTEMPTS + 1
    decreases MAX_ATTEMPTS + 1 - attempt
  {
    if attempt > MAX_ATTEMPTS then None
    else if put(item, attempt) then Some(attempt - 1)
    else RetriesUsed(item, put, attempt + 1)
  }

  function Outcome(item: Item, resumable: set<Key>, put: (Item, nat) -> bool): Row {
    if KeyOf(item) in resumable then Row(item, Skipped, 0)
    else
      match RetriesUsed(item, put, 1)
      case Some(n) => Row(item, Copied, n)
      case None => Row(item, Failed, MAX_RETRIES)
  }

  function Outcomes(items: seq<Item>, resumable: set<Key>, put: (Item, nat) -> bool): seq<Row> {
    seq(|items|, i requires 0 <= i < |items| => Outcome(items[i], resumable, put))
  }

  /** How many of the next `count` files are reached before a check sees the cancellation; check i comes before file
      i. */
  function Survived(cancelled: nat -> bool, from: nat, count: nat): (n: nat)
    ensures n <= count
    ensures forall i :: from <= i < from + n ==> !cancelled(i)
    ensures n < count ==> cancelled(from + n)
    decreases count
  {
    if count == 0 || cancelled(from) then 0 else 1 + Survived(cancelled, from + 1, count - 1)
  }

  /** What the target holds after the copied rows: the last file written under each key. */
  function StoreAfter(store: map<Key, Item>, rows: seq<Row>): map<Key, Item> {
    if rows == [] then store
    else
      var row := rows[|rows| - 1];
      var before := StoreAfter(store, rows[..|rows| - 1]);
      if row.result.Copied? then before[KeyOf(row.item) := row.item] else before
  }

  lemma {:induction false} StoreAfterHas(store: map<Key, Item>, rows: seq<Row>, k: Key)
    ensures k in StoreAfter(store, rows) <==>
            k in store || exists i :: 0 <= i < |rows| && rows[i].result.Copied? && KeyOf(rows[i].item) == k
  {
    if rows != [] {
      var n := |rows| - 1;
      StoreAfterHas(store, rows[..n], k);
      if k in StoreAfter(store, rows) && k !in StoreAfter(store, rows[..n]) {
        assert KeyOf(rows[n].item) == k;
      }
      assert forall i :: 0 <= i < n ==> rows[..n][i] == rows[i];
    }
  }

  /** A job that skipped or copied every file has filled the target exactly when the skipped keys were already there. */
  lemma NothingMissing(items: seq<Item>, resumable: set<Key>, put: (Item, nat) -> bool, store: map<Key, Item>)
    requires Count(Outcomes(items, resumable, put), Failed) == 0
    ensures (forall i :: 0 <= i < |items| ==>
            KeyOf(items[i]) in StoreAfter(store, Outcomes(items, resumable, put))) <==>
            (forall i :: 0 <= i < |items| && KeyOf(items[i]) in resumable ==> KeyOf(items[i]) in store)
  {
    var rows := Outcomes(items, resumable, put);
    forall i | 0 <= i < |items|
      ensures KeyOf(items[i]) in StoreAfter(store, rows) <==> KeyOf(items[i]) !in resumable || KeyOf(items[i]) in store
    {
      var k := KeyOf(items[i]);
      NoneFailed(rows, i);
      StoreAfterHas(store, rows, k);
      assert rows[i] == Outcome(items[i], resumable, put);
      assert forall j :: 0 <= j < |rows| && KeyOf(rows[j].item) == k && k in resumable ==> rows[j].result.Skipped?;
    }
  }

  // ---- the job ----

  /** upload_storage_migration_file: up to three attempts; the result is the number of retries used. */
  method UploadFile(item: Item, put: (Item, nat) -> bool) returns (r: Option<nat>)
    ensures r == RetriesUsed(item, put, 1)
    ensures r.Some? <==> exists attempt :: 1 <= attempt <= 3 && put(item, attempt)
    ensures r.Some? ==> put(item, r.value + 1) && forall attempt :: 1 <= attempt <= r.value ==> !put(item, attempt)
  {
    for attempt := 1 to MAX_ATTEMPTS + 1
      invariant forall a :: 1 <= a < attempt ==> !put(item, a)
      invariant RetriesUsed(item, put, 1) == RetriesUsed(item, put, attempt)
    {
      if put(item, attempt) { return Some(attempt - 1); }
    }
    r := None;
  }

  /** The counters of a running job, its item rows and what the target holds. */
  datatype Progress = Progress(copied: nat, failed: nat, skipped: nat, retries: nat, rows: seq<Row>,
                               store: map<Key, Item>)

  /** The counters are those of the rows. */
  predicate Consistent(p: Progress) {
    && GoodRows(p.rows)
    && p.copied == Count(p.rows, Copied) && p.failed == Count(p.rows, Failed) && p.skipped == Count(p.rows, Skipped)
    && p.retries == Retries(p.rows)
  }

  lemma GrownIsConsistent(p: Progress, q: Progress, row: Row)
    requires Consistent(p) && GoodRow(row) && q.rows == p.rows + [row]
    requires q.copied == p.copied + if row.result.Copied? then 1 else 0
    requires q.failed == p.failed + if row.result.Failed? then 1 else 0
    requires q.skipped == p.skipped + if row.result.Skipped? then 1 else 0
    requires q.retries == p.retries + row.retries
    ensures Consistent(q)
  {
    assert q.rows[..|q.rows| - 1] == p.rows;
  }

  /** The first of three attempts that succeeds, or 4 when none does. */
  function UploadsTaken(item: Item, put: (Item, nat) -> bool): (n: nat)
    ensures 1 <= n <= 4
  {
    if put(item, 1) then 1 else if put(item, 2) then 2 else if put(item, 3) then 3 else 4
  }

  /** What becomes of a file. */
  lemma OutcomeSays(item: Item, resumable: set<Key>, put: (Item, nat) -> bool)
    ensures Outcome(item, resumable, put) ==
            if KeyOf(item) in resumable then Row(item, Skipped, 0)
            else if UploadsTaken(item, put) <= 3 then Row(item, Copied, UploadsTaken(item, put) - 1)
            else Row(item, Failed, 2)
  {
    assert RetriesUsed(item, put, 4) == None;
  }

  /** The body of either loop, after its cancellation check. */
  method MigrateFile(item: Item, resumable: set<Key>, put: (Item, nat) -> bool, before: Progress) returns (p: Progress)
    requires Consistent(before)
    ensures Consistent(p)
    ensures p.rows == before.rows + [Outcome(item, resumable, put)]
    ensures p.store == StoreAfter(before.store, [Outcome(item, resumable, put)])
    ensures var used := UploadsTaken(item, put);
      if KeyOf(item) in resumable then
        p == before.(skipped := before.skipped + 1, rows := before.rows + [Row(item, Skipped, 0)])
      else if used <= 3 then
        p == before.(copied := before.copied + 1, retries := before.retries + used - 1,
                     rows := before.rows + [Row(item, Copied, used - 1)], store := before.store[KeyOf(item) := item])
      else
        p == before.(failed := before.failed + 1, retries := before.retries + 2,
                     rows := before.rows + [Row(item, Failed, 2)])
  {
    var key := KeyOf(item);
    p := before;
    OutcomeSays(item, resumable, put);
    ghost var row := Outcome(item, resumable, put);
    assert [row][..0] == [];
    assert StoreAfter(before.store, [row]) == if row.result.Copied? then before.store[key := item] else before.store;
    if key in resumable {
      p := p.(skipped := p.skipped + 1, rows := p.rows + [Row(item, Skipped, 0)]);
    } else {
      var r := UploadFile(item, put);
      match r {
        case Some(n) =>
          p := p.(copied := p.copied + 1, retries := p.retries + n);
          p := p.(store := p.store[key := item], rows := p.rows + [Row(item, Copied, n)]);
        case None =>
          p := p.(failed := p.failed + 1, retries := p.retries + MAX_RETRIES);
          p := p.(rows := p.rows + [Row(item, Failed, MAX_RETRIES)]);
      }
    }
    GrownIsConsistent(before, p, row);
  }

  /** What one loop has done after some of its files. */
  predicate Reached(before: Progress, p: Progress, items: seq<Item>, resumable: set<Key>, put: (Item, nat) -> bool) {
    && Consistent(p)
    && p.rows == before.rows + Outcomes(items, resumable, put)
    && p.store == StoreAfter(before.store, Outcomes(items, resumable, put))
  }

  lemma ReachedOne(before: Progress, p: Progress, q: Progress, items: seq<Item>, item: Item, resumable: set<Key>,
                   put: (Item, nat) -> bool)
    requires Reached(before, p, items, resumable, put) && Consistent(q)
    requires q.rows == p.rows + [Outcome(item, resumable, put)]
    requires q.store == StoreAfter(p.store, [Outcome(item, resumable, put)])
    ensures Reached(before, q, items + [item], resumable, put)
  {
    hide Consistent, Outcome;
    var done := Outcomes(items, resumable, put);
    assert Outcomes(items + [item], resumable, put) == done + [Outcome(item, resumable, put)];
    StoreAfterConcat(before.store, done, [Outcome(item, resumable, put)]);
  }

  lemma ReachedBoth(a: Progress, b: Progress, c: Progress, first: seq<Item>, second: seq<Item>,
                    resumable: set<Key>, put: (Item, nat) -> bool)
    requires Reached(a, b, first, resumable, put) && Reached(b, c, second, resumable, put)
    ensures Reached(a, c, first + second, resumable, put)
  {
    hide Consistent, Outcome;
    var done, more := Outcomes(first, resumable, put), Outcomes(second, resumable, put);
    assert Outcomes(first + second, resumable, put) == done + more;
    StoreAfterConcat(a.store, done, more);
  }

  /** i files into a loop, with no check so far seeing the cancellation. */
  predicate Upto(i: nat, before: Progress, p: Progress, items: seq<Item>, resumable: set<Key>, put: (Item, nat) -> bool,
                 cancelled: nat -> bool)
  {
    && i <= |items| && |p.rows| == |before.rows| + i
    && Reached(before, p, items[..i], resumable, put)
    && Survived(cancelled, |before.rows|, |items|) == i + Survived(cancelled, |before.rows| + i, |items| - i)
  }

  /** A loop over the items has ended, its checks numbered by the files processed so far. */
  predicate Looped(stopped: bool, before: Progress, p: Progress, items: seq<Item>, resumable: set<Key>,
                   put: (Item, nat) -> bool, cancelled: nat -> bool)
  {
    var done := Survived(cancelled, |before.rows|, |items|);
    && (stopped <==> done < |items|)
    && |p.rows| == |before.rows| + done
    && Reached(before, p, items[..done], resumable, put)
  }

  lemma LoopStarts(before: Progress, items: seq<Item>, resumable: set<Key>, put: (Item, nat) -> bool,
                   cancelled: nat -> bool)
    requires Consistent(before)
    ensures Upto(0, before, before, items, resumable, put, cancelled)
  {
    hide Consistent, Outcome;
    assert Outcomes(items[..0], resumable, put) == [];
  }

  /** A check that does not see the cancellation lets one more file through. */
  lemma OneMoreSurvives(cancelled: nat -> bool, from: nat, count: nat)
    requires count > 0 && !cancelled(from)
    ensures Survived(cancelled, from, count) == 1 + Survived(cancelled, from + 1, count - 1)
  {
  }

  lemma LoopAdvances(i: nat, before: Progress, p: Progress, q: Progress, items: seq<Item>, resumable: set<Key>,
                     put: (Item, nat) -> bool, cancelled: nat -> bool)
    requires Upto(i, before, p, items, resumable, put, cancelled) && i < |items| && !cancelled(|p.rows|)
    requires Consistent(q) && q.rows == p.rows + [Outcome(items[i], resumable, put)]
    requires q.store == StoreAfter(p.store, [Outcome(items[i], resumable, put)])
    ensures Upto(i + 1, before, q, items, resumable, put, cancelled)
  {
    hide Consistent, Outcome;
    ReachedOne(before, p, q, items[..i], items[i], resumable, put);
    OneMoreSurvives(cancelled, |p.rows|, |items| - i);
    hide Reached, StoreAfter, Survived;
    assert items[..i] + [items[i]] == items[..i + 1];
  }

  lemma LoopEnds(i: nat, before: Progress, p: Progress, items: seq<Item>, resumable: set<Key>,
                 put: (Item, nat) -> bool, cancelled: nat -> bool)
    requires Upto(i, before, p, items, resumable, put, cancelled) && (i < |items| ==> cancelled(|p.rows|))
    ensures Looped(i < |items|, before, p, items, resumable, put, cancelled)
  {
    hide Reached;
  }

  /** One of the two loops. */
  method MigrateAll(items: seq<Item>, resumable: set<Key>, put: (Item, nat) -> bool, cancelled: nat -> bool,
                    before: Progress)
    returns (stopped: bool, p: Progress)
    requires Consistent(before)
    ensures Consistent(p) && Looped(stopped, before, p, items, resumable, put, cancelled)
  {
    hide *;
    p := before;
    LoopStarts(before, items, resumable, put, cancelled);
    for i := 0 to |items|
      invariant Consistent(p) && Upto(i, before, p, items, resumable, put, cancelled)
    {
      if cancelled(|p.rows|) {
        LoopEnds(i, before, p, items, resumable, put, cancelled);
        return true, p;
      }
      ghost var last := p;
      p := MigrateFile(items[i], resumable, put, p);
      LoopAdvances(i, before, last, p, items, resumable, put, cancelled);
    }
    LoopEnds(|items|, before, p, items, resumable, put, cancelled);
    stopped := false;
  }

  lemma FirstLoopStops(a: Progress, b: Progress, first: seq<Item>, second: seq<Item>, resumable: set<Key>,
                       put: (Item, nat) -> bool, cancelled: nat -> bool)
    requires Looped(true, a, b, first, resumable, put, cancelled)
    ensures Looped(true, a, b, first + second, resumable, put, cancelled)
  {
    hide Reached, Survived;
    var done := Survived(cancelled, |a.rows|, |first|);
    TakeAcross(first, second, done);
  }

  lemma TakeAcross(first: seq<Item>, second: seq<Item>, n: nat)
    ensures n <= |first| ==> (first + second)[..n] == first[..n]
    ensures |first| <= n <= |first| + |second| ==> (first + second)[..n] == first + second[..n - |first|]
  {
  }

  lemma LoopsChain(stopped: bool, a: Progress, b: Progress, c: Progress, first: seq<Item>, second: seq<Item>,
                   resumable: set<Key>, put: (Item, nat) -> bool, cancelled: nat -> bool)
    requires Looped(false, a, b, first, resumable, put, cancelled)
    requires Looped(stopped, b, c, second, resumable, put, cancelled)
    ensures Looped(stopped, a, c, first + second, resumable, put, cancelled)
  {
    hide Reached, Survived;
    var done := Survived(cancelled, |b.rows|, |second|);
    assert Reached(a, b, first, resumable, put) by { assert first[..|first|] == first; }
    ReachedBoth(a, b, c, first, second[..done], resumable, put);
    TakeAcross(first, second, |first| + done);
  }

  datatype Status = Pending | Running | CompletedWithErrors | Completed | Cancelled | FailedJob | CancelRequested

  /** run_storage_migration_job after the files are collected; saved: the closing UPDATE succeeds. */
  method RunJob(uploads: seq<Item>, media: seq<Item>, resumable: set<Key>, put: (Item, nat) -> bool,
                cancelled: nat -> bool, target: map<Key, Item>, saved: bool)
    returns (status: Status, p: Progress)
    ensures var done := Survived(cancelled, 0, |uploads + media|);
            && Consistent(p)
            && p.rows == Outcomes((uploads + media)[..done], resumable, put)
            && p.store == StoreAfter(target, p.rows)
            && status == (if !saved then FailedJob
                          else if done < |uploads + media| then Cancelled
                          else if Count(p.rows, Failed) > 0 then CompletedWithErrors
                          else Completed)
  {
    ghost var start := Progress(0, 0, 0, 0, [], target);
    p := Progress(0, 0, 0, 0, [], target);
    assert Consistent(p);
    hide Consistent, Looped;
    var stopped;
    stopped, p := MigrateAll(uploads, resumable, put, cancelled, p);
    if stopped {
      FirstLoopStops(start, p, uploads, media, resumable, put, cancelled);
    } else {
      ghost var half := p;
      stopped, p := MigrateAll(media, resumable, put, cancelled, p);
      LoopsChain(stopped, start, half, p, uploads, media, resumable, put, cancelled);
    }
    status := if !saved then FailedJob
              else if stopped then Cancelled
              else if p.failed > 0 then CompletedWithErrors
              else Completed;
  }

  lemma {:induction false} StoreAfterConcat(store: map<Key, Item>, a: seq<Row>, b: seq<Row>)
    ensures StoreAfter(store, a + b) == StoreAfter(StoreAfter(store, a), b)
  {
    if b == [] {
      assert a + b == a;
    } else {
      StoreAfterConcat(store, a, b[..|b| - 1]);
      assert (a + b)[..|a + b| - 1] == a + b[..|b| - 1];
    }
  }
}
