// collect_local_files: the regular files below a directory, collected with an explicit stack.
//
// A directory is a list of named entries in whatever order the operating system returns them. The walk takes a
// directory from the stack, moves its files to the result and its subdirectories to the stack, until the stack is
// empty, and then sorts. The result is the strictly ascending list of exactly the paths that lead to files.

module TreeWalk {
  import opened Common

  type Name = string
  type Path = seq<Name>  // components below the root

  datatype Entry = Entry(name: Name, node: Node)

  /** A directory lists its entries in some order; whatever is not a directory (symbolic links too) is a file. */
  datatype Node = File | Dir(entries: seq<Entry>)

  predicate Distinct(es: seq<Entry>) {
    forall i, j :: 0 <= i < j < |es| ==> es[i].name != es[j].name
  }

  /** A directory has one entry per name. */
  predicate WellFormed(t: Node) {
    t.Dir? ==> Distinct(t.entries) && forall i :: 0 <= i < |t.entries| ==> WellFormed(t.entries[i].node)
  }

  function Find(es: seq<Entry>, name: Name): Option<Node> {
    if es == [] then None
    else if es[0].name == name then Some(es[0].node)
    else Find(es[1..], name)
  }

  lemma {:induction false} NotFound(es: seq<Entry>, name: Name)
    requires forall i :: 0 <= i < |es| ==> es[i].name != name
    ensures Find(es, name).None?
  {
    if es != [] { NotFound(es[1..], name); }
  }

  /** The specification: following the path from the root ends at a file. */
  predicate IsFile(t: Node, p: Path)
    decreases |p|
  {
    if p == [] then t.File?
    else t.Dir? && Find(t.entries, p[0]).Some? && IsFile(Find(t.entries, p[0]).value, p[1..])
  }

  // ---- paths in order ----

  /** Byte order of two names, the shorter first when it is a prefix. */
  predicate NameBefore(a: Name, b: Name) {
    if a == [] then b != []
    else b != [] && (a[0] < b[0] || (a[0] == b[0] && NameBefore(a[1..], b[1..])))
  }

  lemma {:induction false} NameOrder(a: Name, b: Name)
    ensures NameBefore(a, b) || a == b || NameBefore(b, a)
    ensures !(NameBefore(a, b) && NameBefore(b, a)) && !NameBefore(a, a)
  {
    if a != [] {
      NameOrder(a[1..], a[1..]);
      if b != [] {
        NameOrder(a[1..], b[1..]);
        assert a == [a[0]] + a[1..] && b == [b[0]] + b[1..];
      }
    }
  }

  /** Where two names first differ, the smaller character decides; a proper prefix comes first. */
  ghost predicate FirstDifference(a: Name, b: Name, n: nat) {
    n <= |a| && n < |b| && a[..n] == b[..n] && (n == |a| || a[n] < b[n])
  }

  lemma {:induction false} NamesByFirstDifference(a: Name, b: Name)
    ensures NameBefore(a, b) <==> exists n: nat :: FirstDifference(a, b, n)
  {
    if a == [] {
      assert b != [] ==> FirstDifference(a, b, 0);
    } else if b != [] {
      NamesByFirstDifference(a[1..], b[1..]);
      assert a[0] < b[0] ==> FirstDifference(a, b, 0);
      if a[0] == b[0] && NameBefore(a[1..], b[1..]) {
        var n: nat :| FirstDifference(a[1..], b[1..], n);
        assert a[..n + 1] == [a[0]] + a[1..][..n] && b[..n + 1] == [b[0]] + b[1..][..n];
        assert FirstDifference(a, b, n + 1);
      }
      if n: nat :| FirstDifference(a, b, n) && n > 0 {
        assert a[..n][0] == b[..n][0];
        assert a[1..][..n - 1] == a[..n][1..] && b[1..][..n - 1] == b[..n][1..];
        assert FirstDifference(a[1..], b[1..], n - 1);
      }
    }
  }

  lemma {:induction false} NameTransitive(a: Name, b: Name, c: Name)
    requires NameBefore(a, b) && NameBefore(b, c)
    ensures NameBefore(a, c)
  {
    if a != [] && a[0] == b[0] == c[0] { NameTransitive(a[1..], b[1..], c[1..]); }
  }

  /** Paths compare component by component. */
  predicate Before(p: Path, q: Path) {
    if p == [] then q != []
    else q != [] && (NameBefore(p[0], q[0]) || (p[0] == q[0] && Before(p[1..], q[1..])))
  }

  lemma {:induction false} PathOrder(p: Path, q: Path)
    ensures Before(p, q) || p == q || Before(q, p)
    ensures !Before(p, p)
  {
    if p != [] {
      PathOrder(p[1..], p[1..]);
      NameOrder(p[0], p[0]);
      if q != [] {
        NameOrder(p[0], q[0]);
        PathOrder(p[1..], q[1..]);
        assert p == [p[0]] + p[1..] && q == [q[0]] + q[1..];
      }
    }
  }

  lemma {:induction false} PathTransitive(p: Path, q: Path, r: Path)
    requires Before(p, q) && Before(q, r)
    ensures Before(p, r)
  {
    if p != [] {
      NameOrder(q[0], q[0]);
      if p[0] == q[0] {
        if q[0] == r[0] { PathTransitive(p[1..], q[1..], r[1..]); }
      } else if q[0] != r[0] {
        NameTransitive(p[0], q[0], r[0]);
      }
    }
  }

  ghost predicate FirstDifferent(p: Path, q: Path, n: nat) {
    n <= |p| && n < |q| && p[..n] == q[..n] && (n == |p| || NameBefore(p[n], q[n]))
  }

  /** Paths compare at their first different component; the path of a directory comes before those below it. */
  lemma {:induction false} PathsByFirstDifference(p: Path, q: Path)
    ensures Before(p, q) <==> exists n: nat :: FirstDifferent(p, q, n)
  {
    hide NameBefore;
    if p == [] {
      assert q != [] ==> FirstDifferent(p, q, 0);
    } else if q != [] {
      PathsByFirstDifference(p[1..], q[1..]);
      assert NameBefore(p[0], q[0]) ==> FirstDifferent(p, q, 0);
      if p[0] == q[0] && Before(p[1..], q[1..]) {
        var n: nat :| FirstDifferent(p[1..], q[1..], n);
        assert p[..n + 1] == [p[0]] + p[1..][..n] && q[..n + 1] == [q[0]] + q[1..][..n];
        assert FirstDifferent(p, q, n + 1);
      }
      if n: nat :| FirstDifferent(p, q, n) && n > 0 {
        assert p[..n][0] == q[..n][0];
        assert p[1..][..n - 1] == p[..n][1..] && q[1..][..n - 1] == q[..n][1..];
        assert FirstDifferent(p[1..], q[1..], n - 1);
      }
    }
  }

  predicate Ascending(s: seq<Path>) {
    forall i, j :: 0 <= i < j < |s| ==> Before(s[i], s[j]) || s[i] == s[j]
  }

  predicate StrictlyAscending(s: seq<Path>) {
    forall i, j :: 0 <= i < j < |s| ==> Before(s[i], s[j])
  }

  /** Sorting, for files.sort(). */
  function Insert(p: Path, s: seq<Path>): (r: seq<Path>)
    ensures multiset(r) == multiset(s) + multiset{p}
  {
    if s == [] || !Before(s[0], p) then [p] + s
    else
      assert s == [s[0]] + s[1..];
      [s[0]] + Insert(p, s[1..])
  }

  function Sort(s: seq<Path>): (r: seq<Path>)
    ensures multiset(r) == multiset(s)
  {
    if s == [] then []
    else
      assert s == [s[0]] + s[1..];
      Insert(s[0], Sort(s[1..]))
  }

  lemma {:induction false} InsertAscends(p: Path, s: seq<Path>)
    requires Ascending(s)
    ensures Ascending(Insert(p, s))
  {
    if s == [] {
    } else if Before(s[0], p) {
      InsertAscends(p, s[1..]);
      var rest := Insert(p, s[1..]);
      forall j | 0 <= j < |rest| ensures Before(s[0], rest[j]) || s[0] == rest[j] {
        assert rest[j] in multiset(rest);
        if rest[j] != p { var k: nat :| k < |s[1..]| && s[1..][k] == rest[j]; assert s[k + 1] == rest[j]; }
      }
    } else {
      PathOrder(p, s[0]);
      forall j | 0 <= j < |s| ensures Before(p, s[j]) || p == s[j] {
        if j > 0 && p != s[0] && s[0] != s[j] { PathTransitive(p, s[0], s[j]); }
      }
    }
  }

  lemma {:induction false} SortAscends(s: seq<Path>)
    ensures Ascending(Sort(s))
  {
    if s != [] {
      SortAscends(s[1..]);
      InsertAscends(s[0], Sort(s[1..]));
    }
  }

  // ---- the files of a tree, with their number of occurrences ----

  function Files(at: Path, t: Node): multiset<Path>
    decreases t
  {
    if t.File? then multiset{at} else FilesIn(at, t.entries)
  }

  function FilesIn(at: Path, es: seq<Entry>): multiset<Path>
    decreases es
  {
    if es == [] then multiset{}
    else Files(at + [es[0].name], es[0].node) + FilesIn(at, es[1..])
  }

  /** A path is listed once if it leads to a file, and otherwise not at all. */
  lemma {:induction false} FilesAreListed(at: Path, t: Node, p: Path)
    requires WellFormed(t)
    ensures Files(at, t)[p] == if at <= p && IsFile(t, p[|at|..]) then 1 else 0
    decreases t, 0
  {
    if t.File? {
      if at <= p {
        assert p == at + p[|at|..];
        assert p == at <==> p[|at|..] == [];
      }
    } else {
      FilesInAreListed(at, t.entries, p);
    }
  }

  lemma {:induction false} FilesInAreListed(at: Path, es: seq<Entry>, p: Path)
    requires Distinct(es) && forall i :: 0 <= i < |es| ==> WellFormed(es[i].node)
    ensures FilesIn(at, es)[p] == if at <= p && IsFile(Dir(es), p[|at|..]) then 1 else 0
    decreases es, 1
  {
    if es != [] {
      var name, rest := es[0].name, es[1..];
      FilesAreListed(at + [name], es[0].node, p);
      FilesInAreListed(at, rest, p);
      if at < p {
        var q := p[|at|..];
        assert p[|at + [name]|..] == q[1..];
        assert at + [name] <= p <==> q[0] == name;
        if q[0] == name {
          NotFound(rest, name);
        }
      }
    }
  }

  // ---- the walk ----

  datatype Unread = Unread(at: Path, entries: seq<Entry>)

  function Remaining(stack: seq<Unread>): multiset<Path> {
    if stack == [] then multiset{}
    else Remaining(stack[..|stack| - 1]) + FilesIn(stack[|stack| - 1].at, stack[|stack| - 1].entries)
  }

  function Weight(es: seq<Entry>): nat
    decreases es
  {
    if es == [] then 0
    else 1 + (if es[0].node.Dir? then 1 + Weight(es[0].node.entries) else 0) + Weight(es[1..])
  }

  function StackWeight(stack: seq<Unread>): nat {
    if stack == [] then 0 else StackWeight(stack[..|stack| - 1]) + 1 + Weight(stack[|stack| - 1].entries)
  }

  /** One directory: push its subdirectories, append its files. */
  method ReadDir(dir: Unread, stack0: seq<Unread>, files0: seq<Path>) returns (stack: seq<Unread>, files: seq<Path>)
    ensures multiset(files) + Remaining(stack) == multiset(files0) + Remaining(stack0) + FilesIn(dir.at, dir.entries)
    ensures StackWeight(stack) <= StackWeight(stack0) + Weight(dir.entries)
  {
    stack, files := stack0, files0;
    ghost var owed := multiset(files0) + Remaining(stack0) + FilesIn(dir.at, dir.entries);
    for i := 0 to |dir.entries|
      invariant multiset(files) + Remaining(stack) + FilesIn(dir.at, dir.entries[i..]) == owed
      invariant StackWeight(stack) + Weight(dir.entries[i..]) <= StackWeight(stack0) + Weight(dir.entries)
    {
      var entry := dir.entries[i];
      var path := dir.at + [entry.name];
      assert dir.entries[i..][0] == entry && dir.entries[i..][1..] == dir.entries[i + 1..];
      if entry.node.Dir? {
        stack := stack + [Unread(path, entry.node.entries)];
        assert stack[..|stack| - 1] + [Unread(path, entry.node.entries)] == stack;
      } else {
        files := files + [path];
      }
    }
  }

  /** None: the root does not exist. A root that is not a directory cannot be listed. */
  method CollectLocalFiles(root: Option<Node>) returns (result: Option<seq<Path>>)
    requires root.Some? ==> WellFormed(root.value)
    ensures root.None? ==> result == Some([])
    ensures root.Some? ==> (result.Some? <==> root.value.Dir?)
    ensures root.Some? && result.Some? ==> StrictlyAscending(result.value)
    ensures root.Some? && result.Some? ==> forall p :: p in result.value <==> IsFile(root.value, p)
  {
    if root.None? { return Some([]); }
    if root.value.File? { return None; }
    var files: seq<Path> := [];
    var stack := [Unread([], root.value.entries)];
    while stack != []
      invariant multiset(files) + Remaining(stack) == Files([], root.value)
      decreases StackWeight(stack)
    {
      var current := stack[|stack| - 1];
      stack, files := ReadDir(current, stack[..|stack| - 1], files);
    }
    result := Some(Sort(files));
    SortedFiles(root.value, files);
  }

  lemma SortedFiles(t: Node, files: seq<Path>)
    requires WellFormed(t) && multiset(files) == Files([], t)
    ensures StrictlyAscending(Sort(files)) && forall p :: p in Sort(files) <==> IsFile(t, p)
  {
    SortAscends(files);
    var r := Sort(files);
    forall p ensures p in r <==> IsFile(t, p) {
      FilesAreListed([], t, p);
      assert p[0..] == p;
      assert p in r <==> p in multiset(r);
    }
    forall i, j | 0 <= i < j < |r| ensures Before(r[i], r[j]) {
      if r[i] == r[j] {
        FilesAreListed([], t, r[i]);
        Twice(r, i, j);
      }
    }
  }

  lemma Twice(s: seq<Path>, i: nat, j: nat)
    requires i < j < |s| && s[i] == s[j]
    ensures multiset(s)[s[i]] >= 2
  {
    assert s == s[..j] + s[j..];
    assert s[i] in s[..j] && s[j] in s[j..];
  }

  /** A strictly ascending list is determined by its members, so the walk's result does not depend on listing order. */
  lemma {:induction false} OneSortedList(a: seq<Path>, b: seq<Path>)
    requires StrictlyAscending(a) && StrictlyAscending(b) && forall p :: p in a <==> p in b
    ensures a == b
  {
    assert |b| > 0 ==> b[0] in b;
    if a == [] {
    } else {
      assert a[0] in b;
      assert b != [];
      assert b[0] in a;
      var i: nat :| i < |b| && b[i] == a[0];
      var j: nat :| j < |a| && a[j] == b[0];
      if i > 0 && j > 0 {
        PathTransitive(a[0], b[0], a[0]);
        PathOrder(a[0], a[0]);
      }
      assert a[0] == b[0];
      forall p ensures p in a[1..] <==> p in b[1..] {
        PathOrder(a[0], a[0]);
        assert p in a <==> p == a[0] || p in a[1..];
        assert p in b <==> p == b[0] || p in b[1..];
        if p == a[0] {
          assert p !in a[1..];
          assert p !in b[1..];
        }
      }
      OneSortedList(a[1..], b[1..]);
    }
  }

  /** The same tree with every directory listed in some other order. */
  predicate Relisted(t: Node, u: Node)
    decreases t
  {
    if t.File? then u.File?
    else
      && u.Dir?
      && (forall i :: 0 <= i < |t.entries| ==> RelistedEntry(t.entries[i], u.entries))
      && (forall i :: 0 <= i < |u.entries| ==> Find(t.entries, u.entries[i].name).Some?)
  }

  predicate RelistedEntry(e: Entry, us: seq<Entry>)
    decreases e
  {
    Find(us, e.name).Some? && Relisted(e.node, Find(us, e.name).value)
  }

  lemma {:induction false} Found(es: seq<Entry>, name: Name) returns (i: nat)
    requires Find(es, name).Some?
    ensures i < |es| && es[i].name == name && es[i].node == Find(es, name).value
  {
    i := 0;
    if es[0].name != name {
      i := Found(es[1..], name);
      i := i + 1;
    }
  }

  lemma {:induction false} RelistedFiles(t: Node, u: Node, p: Path)
    requires Relisted(t, u)
    ensures IsFile(t, p) <==> IsFile(u, p)
    decreases |p|
  {
    if p != [] && t.Dir? {
      if Find(u.entries, p[0]).Some? {
        var j := Found(u.entries, p[0]);
        assert Find(t.entries, p[0]).Some?;
      }
      if Find(t.entries, p[0]).Some? {
        var i := Found(t.entries, p[0]);
        assert RelistedEntry(t.entries[i], u.entries);
        RelistedFiles(Find(t.entries, p[0]).value, Find(u.entries, p[0]).value, p[1..]);
      }
    }
  }

  /** Two walks of one tree, listed in different orders, return the same list. */
  lemma ListingOrderIsIrrelevant(t: Node, u: Node, a: seq<Path>, b: seq<Path>)
    requires Relisted(t, u)
    requires StrictlyAscending(a) && forall p :: p in a <==> IsFile(t, p)
    requires StrictlyAscending(b) && forall p :: p in b <==> IsFile(u, p)
    ensures a == b
  {
    forall p ensures p in a <==> p in b {
      RelistedFiles(t, u, p);
    }
    OneSortedList(a, b);
  }
}
