// The string operations of the Rust standard library that the parsers use: searching, splitting, trimming and joining.
//
// Each is defined by recursion over the text. Beside it stand the facts that the formats rest on: where a separator is
// found, what splitting does to a concatenation, that splitting at the first one or two separators can be undone, and
// that trimming and splitting at white space keep words as they are.

module Text {

  import opened Common

  /** Unicode White_Space, as char::is_whitespace. */
  predicate IsSpace(c: char) {
    || 9 as char <= c <= 13 as char
    || c == ' ' || c == 0x85 as char || c == 0xA0 as char || c == 0x1680 as char
    || 0x2000 as char <= c <= 0x200A as char
    || c == 0x2028 as char || c == 0x2029 as char || c == 0x202F as char || c == 0x205F as char || c == 0x3000 as char
  }

  /** The position of the first c, or the length. */
  function IndexOf(s: string, c: char): (i: nat)
    ensures i <= |s| && c !in s[..i]
    ensures i < |s| ==> s[i] == c
  {
    if s == [] || s[0] == c then 0 else 1 + IndexOf(s[1..], c)
  }

  lemma {:induction false} IndexAfter(a: string, c: char, b: string)
    requires c !in a
    ensures IndexOf(a + [c] + b, c) == |a|
  {
    if a != [] {
      assert (a + [c] + b)[1..] == a[1..] + [c] + b;
      IndexAfter(a[1..], c, b);
    }
  }

  /** str::split. */
  function Split(s: string, c: char): (parts: seq<string>)
    ensures parts != [] && forall i :: 0 <= i < |parts| ==> c !in parts[i]
    decreases |s|
  {
    var i := IndexOf(s, c);
    if i == |s| then
      assert s[..i] == s;
      [s]
    else
      [s[..i]] + Split(s[i + 1..], c)
  }

  lemma SplitFirst(a: string, c: char, b: string)
    requires c !in a
    ensures Split(a + [c] + b, c) == [a] + Split(b, c)
  {
    var s := a + [c] + b;
    IndexAfter(a, c, b);
    assert s[..|a|] == a && s[|a| + 1..] == b;
  }

  lemma SplitNone(s: string, c: char)
    requires c !in s
    ensures Split(s, c) == [s]
  {
    assert forall i :: 0 <= i < |s| ==> s[i] in s;
    assert s[..|s|] == s;
  }

  lemma SplitTwo(a: string, c: char, b: string, d: string)
    requires c !in a
    ensures Split(a + [c] + b + [c] + d, c) == [a] + Split(b + [c] + d, c)
  {
    assert a + [c] + b + [c] + d == a + [c] + (b + [c] + d);
    SplitFirst(a, c, b + [c] + d);
  }

  lemma {:induction false} SplitLast(a: string, c: char, b: string)
    ensures Split(a + [c] + b, c) == Split(a, c) + Split(b, c)
    decreases |a|
  {
    var i := IndexOf(a, c);
    hide Split;
    if i == |a| {
      assert a[..i] == a;
      SplitNone(a, c);
      SplitFirst(a, c, b);
    } else {
      var head, tail := a[..i], a[i + 1..];
      assert a == head + [c] + tail;
      SplitFirst(head, c, tail);
      SplitTwo(head, c, tail, b);
      SplitLast(tail, c, b);
    }
  }

  /** str::split_once. */
  function SplitOnce(s: string, c: char): Option<(string, string)> {
    var i := IndexOf(s, c);
    if i == |s| then None else Some((s[..i], s[i + 1..]))
  }

  /** str::splitn(3, c). */
  function SplitIn3(s: string, c: char): seq<string> {
    match SplitOnce(s, c)
    case None => [s]
    case Some(first) =>
      match SplitOnce(first.1, c)
      case None => [first.0, first.1]
      case Some(second) => [first.0, second.0, second.1]
  }

  lemma SplitOnceAt(a: string, c: char, b: string)
    requires c !in a
    ensures SplitOnce(a + [c] + b, c) == Some((a, b))
  {
    var s := a + [c] + b;
    IndexAfter(a, c, b);
    assert s[..|a|] == a && s[|a| + 1..] == b;
  }

  lemma SplitOnceBack(s: string, c: char)
    requires SplitOnce(s, c).Some?
    ensures var (a, b) := SplitOnce(s, c).value; s == a + [c] + b && c !in a
  {
    var i := IndexOf(s, c);
    assert s == s[..i] + [s[i]] + s[i + 1..];
  }

  lemma SplitIn3At(a: string, c: char, b: string, d: string)
    requires c !in a && c !in b
    ensures SplitIn3(a + [c] + b + [c] + d, c) == [a, b, d]
  {
    var rest := b + [c] + d;
    assert a + [c] + b + [c] + d == a + [c] + rest;
    SplitOnceAt(a, c, rest);
    SplitOnceAt(b, c, d);
    hide SplitOnce;
  }

  lemma SplitIn3Back(s: string, c: char, a: string, b: string, d: string)
    requires SplitIn3(s, c) == [a, b, d]
    ensures c !in a && c !in b && s == a + [c] + b + [c] + d
  {
    var rest := SplitOnce(s, c).value.1;
    SplitOnceBack(s, c);
    SplitOnceBack(rest, c);
    hide SplitOnce;
    assert s == a + [c] + rest && rest == b + [c] + d;
  }

  /** Three parts are exactly what lies between and after the first two separators. */
  lemma SplitIn3Exactly(s: string, c: char, a: string, b: string, d: string)
    ensures SplitIn3(s, c) == [a, b, d] <==> c !in a && c !in b && s == a + [c] + b + [c] + d
  {
    hide SplitIn3;
    if c !in a && c !in b && s == a + [c] + b + [c] + d { SplitIn3At(a, c, b, d); }
    if SplitIn3(s, c) == [a, b, d] { SplitIn3Back(s, c, a, b, d); }
  }

  function DropLeft(s: string, drop: char -> bool): (r: string)
    ensures |r| <= |s|
    ensures r != [] ==> !drop(r[0])
  {
    if s != [] && drop(s[0]) then DropLeft(s[1..], drop) else s
  }

  lemma {:induction false} DropLeftHas(s: string, drop: char -> bool, c: char)
    requires c !in s
    ensures c !in DropLeft(s, drop)
  {
    if s != [] && drop(s[0]) { DropLeftHas(s[1..], drop, c); }
  }

  function DropRight(s: string, drop: char -> bool): (r: string)
    ensures r <= s
    ensures r != [] ==> !drop(r[|r| - 1])
  {
    if s != [] && drop(s[|s| - 1]) then DropRight(s[..|s| - 1], drop) else s
  }

  /** str::trim and str::trim_matches. */
  function TrimMatches(s: string, drop: char -> bool): string {
    DropRight(DropLeft(s, drop), drop)
  }

  function Trim(s: string): string {
    TrimMatches(s, IsSpace)
  }

  lemma TrimKeeps(s: string, drop: char -> bool)
    requires s != [] ==> !drop(s[0]) && !drop(s[|s| - 1])
    ensures TrimMatches(s, drop) == s
  {
  }

  lemma TrimEnds(s: string, drop: char -> bool)
    ensures var r := TrimMatches(s, drop); r != [] ==> !drop(r[0]) && !drop(r[|r| - 1])
  {
  }

  lemma TrimHas(s: string, drop: char -> bool, c: char)
    requires c !in s
    ensures c !in TrimMatches(s, drop)
  {
    DropLeftHas(s, drop, c);
    var l := DropLeft(s, drop);
    assert DropRight(l, drop) <= l;
  }

  /** str::split_whitespace. */
  function Words(s: string): (ws: seq<string>)
    decreases |s|
  {
    var t := DropLeft(s, IsSpace);
    if t == [] then []
    else
      var n := WordLength(t);
      [t[..n]] + Words(t[n..])
  }

  function WordLength(s: string): (n: nat)
    ensures n <= |s| && (s != [] && !IsSpace(s[0]) ==> n > 0)
    ensures forall i :: 0 <= i < n ==> !IsSpace(s[i])
    ensures n < |s| ==> IsSpace(s[n])
  {
    if s == [] || IsSpace(s[0]) then 0 else 1 + WordLength(s[1..])
  }

  function Join(parts: seq<string>, separator: string): string {
    if parts == [] then "" else if |parts| == 1 then parts[0] else parts[0] + separator + Join(parts[1..], separator)
  }

  predicate IsWord(w: string) {
    w != [] && forall i :: 0 <= i < |w| ==> !IsSpace(w[i])
  }

  lemma WordFirst(w: string, rest: string)
    requires IsWord(w) && (rest != [] ==> IsSpace(rest[0]))
    ensures Words(w + rest) == [w] + Words(rest)
  {
    var s := w + rest;
    assert s[0] == w[0];
    var n := WordLength(s);
    assert forall i :: 0 <= i < |w| ==> s[i] == w[i];
    assert rest != [] ==> s[|w|] == rest[0];
    assert n == |w|;
    assert s[..|w|] == w && s[|w|..] == rest;
  }

  lemma WordThenBlank(w: string, rest: string)
    requires IsWord(w)
    ensures Words(w + " " + rest) == [w] + Words(rest)
  {
    assert w + " " + rest == w + (" " + rest);
    assert IsSpace(' ');
    hide IsSpace;
    WordFirst(w, " " + rest);
  }

  lemma OneWord(w: string)
    requires IsWord(w)
    ensures Words(w) == [w]
  {
    assert w + "" == w && Words("") == [];
    hide Words;
    WordFirst(w, "");
  }

  predicate AllWords(ws: seq<string>) {
    forall i :: 0 <= i < |ws| ==> IsWord(ws[i])
  }

  lemma JoinMore(ws: seq<string>, separator: string)
    requires |ws| > 1
    ensures Join(ws, separator) == ws[0] + separator + Join(ws[1..], separator) && [ws[0]] + ws[1..] == ws
  {
  }

  /** Splitting at white space undoes joining with blanks. */
  lemma {:induction false} WordsOfJoin(ws: seq<string>)
    requires AllWords(ws)
    ensures Words(Join(ws, " ")) == ws
  {
    if |ws| == 0 {
      assert Words("") == [];
    } else if |ws| == 1 {
      assert IsWord(ws[0]);
      OneWord(ws[0]);
    } else {
      assert IsWord(ws[0]) && AllWords(ws[1..]);
      JoinMore(ws, " ");
      hide Words, IsSpace, IsWord, AllWords, Join;
      WordThenBlank(ws[0], Join(ws[1..], " "));
      WordsOfJoin(ws[1..]);
    }
  }
}
