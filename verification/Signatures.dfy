// The Signature header of draft-cavage-http-signatures-12: its printer, its parser and the round trip between them.

module Signatures {

  import opened Common
  import opened Text
  import opened Base64

  /** A header line name, or the request-target pseudo header. */
  const TARGET := "(request-target)"

  datatype Request = Request(method_: string, path: string, headers: map<string, string>)

  /** An RSA key pair and the other parts that come from outside. */
  datatype Scheme = Scheme(
    sign: string -> seq<Byte>,
    verify: (string, seq<Byte>) -> bool,
    lower: string -> string,        // str::to_lowercase
    recent: string -> bool)         // enforce_max_age on a Date header

  // ---- the signing string, section 2.3 ----

  function SigningLine(scheme: Scheme, r: Request, name: string): string {
    if name == TARGET then TARGET + ": " + scheme.lower(r.method_) + " " + r.path
    else name + ": " + Lookup(r.headers, name).GetOr("")
  }

  function SigningLines(scheme: Scheme, r: Request, names: seq<string>): seq<string> {
    seq(|names|, i requires 0 <= i < |names| => SigningLine(scheme, r, names[i]))
  }

  function SigningString(scheme: Scheme, r: Request, names: seq<string>): string {
    Join(SigningLines(scheme, r, names), "\n")
  }

  // ---- creating ----

  function SignedNames(digest: bool): seq<string> {
    [TARGET, "host", "date"] + if digest then ["digest"] else []
  }

  function SignedHeaders(host: string, date: string, digest: Option<string>): map<string, string> {
    var m := map["host" := host, "date" := date];
    if digest.Some? then m["digest" := digest.value] else m
  }

  function Quoted(s: string): string {
    "\"" + s + "\""
  }

  function Segment(name: string, value: string): string {
    name + "=" + Quoted(value)
  }

  /** The value of the Signature header. */
  function Header(keyId: string, headers: string, signature: string): string {
    Segment("keyId", keyId) + "," + Segment("algorithm", "rsa-sha256") + ","
    + Segment("headers", headers) + "," + Segment("signature", signature)
  }

  /** The text of the header. */
  lemma HeaderParts(keyId: string, names: string, signature: string)
    ensures Header(keyId, names, signature) ==
            ("keyId" + "=" + "\"" + keyId + "\"") + "," + ("algorithm" + "=" + "\"" + "rsa-sha256" + "\"")
            + "," + ("headers" + "=" + "\"" + names + "\"") + "," + ("signature" + "=" + "\"" + signature + "\"")
  {
    SegmentText("keyId", keyId);
    SegmentText("algorithm", "rsa-sha256");
    SegmentText("headers", names);
    SegmentText("signature", signature);
    hide Segment;
  }

  lemma SegmentText(name: string, value: string)
    ensures Segment(name, value) == name + "=" + "\"" + value + "\""
  {
    assert name + "=" + ("\"" + value + "\"") == name + "=" + "\"" + value + "\"";
  }

  method CreateSignature(scheme: Scheme, keyId: string, method_: string, path: string, host: string, date: string,
                         digest: Option<string>)
    returns (header: string)
    ensures var (names, signed) := (SignedNames(digest.Some?),
                                    Request(method_, path, SignedHeaders(host, date, digest)));
            header == Header(keyId, Join(names, " "), Encode(scheme.sign(SigningString(scheme, signed, names))))
  {
    var headers := map["host" := host, "date" := date];
    var names := [TARGET, "host", "date"];
    if digest.Some? {
      headers := headers["digest" := digest.value];
      names := names + ["digest"];
    }
    assert names == SignedNames(digest.Some?);
    var text := SigningString(scheme, Request(method_, path, headers), names);
    header := Header(keyId, Join(names, " "), Encode(scheme.sign(text)));
  }

  // ---- parsing ----

  predicate IsQuote(c: char) {
    c == '"'
  }

  function ParseSegment(m: map<string, string>, segment: string): map<string, string> {
    match SplitOnce(Trim(segment), '=')
    case None => m
    case Some((k, v)) => m[Trim(k) := TrimMatches(Trim(v), IsQuote)]
  }

  function ParseSegments(m: map<string, string>, segments: seq<string>): map<string, string> {
    if segments == [] then m
    else ParseSegment(ParseSegments(m, segments[..|segments| - 1]), segments[|segments| - 1])
  }

  function Parsed(header: string): map<string, string> {
    ParseSegments(map[], Split(header, ','))
  }

  /** parse_signature_header: later segments overwrite earlier ones; None when nothing was recognised. */
  method ParseSignatureHeader(header: string) returns (params: Option<map<string, string>>)
    ensures params == if Parsed(header) == map[] then None else Some(Parsed(header))
  {
    var m: map<string, string> := map[];
    var segments := Split(header, ',');
    for i := 0 to |segments|
      invariant m == ParseSegments(map[], segments[..i])
    {
      assert segments[..i + 1][..i] == segments[..i];
      var segment := Trim(segments[i]);
      var pair := SplitOnce(segment, '=');
      if pair.Some? {
        var (k, v) := pair.value;
        m := m[Trim(k) := TrimMatches(Trim(v), IsQuote)];
      }
    }
    assert segments[..|segments|] == segments;
    params := if m == map[] then None else Some(m);
  }

  /** Verification up to and including the RSA check; the result is the key id. */
  method VerifySignature(scheme: Scheme, header: string, r: Request) returns (keyId: Option<string>)
    ensures keyId == Verified(scheme, header, r)
    ensures keyId.Some? ==>
      && Lookup(Parsed(header), "keyId") == keyId && "signature" in Parsed(header)
      && ("date" in r.headers ==> scheme.recent(r.headers["date"]))
      && Decode(Parsed(header)["signature"]).Some?
      && scheme.verify(SigningString(scheme, r, Words(Lookup(Parsed(header), "headers").GetOr("date"))),
                       Decode(Parsed(header)["signature"]).value)
  {
    var params := ParseSignatureHeader(header);
    if params.None? { return None; }
    var p := params.value;
    if "keyId" !in p { return None; }
    var headerNames := if "headers" in p then p["headers"] else "date";
    if "signature" !in p { return None; }
    if "date" in r.headers && !scheme.recent(r.headers["date"]) { return None; }
    var text := SigningString(scheme, r, Words(headerNames));
    var bytes := Decode(p["signature"]);
    if bytes.None? || !scheme.verify(text, bytes.value) { return None; }
    keyId := Some(p["keyId"]);
  }

  function Verified(scheme: Scheme, header: string, r: Request): Option<string> {
    var p := Parsed(header);
    if "keyId" !in p || "signature" !in p then None
    else if "date" in r.headers && !scheme.recent(r.headers["date"]) then None
    else
      var text := SigningString(scheme, r, Words(Lookup(p, "headers").GetOr("date")));
      match Decode(p["signature"])
      case None => None
      case Some(bytes) => if scheme.verify(text, bytes) then Some(p["keyId"]) else None
  }

  // ---- the round trip ----

  predicate Clean(value: string) {
    value != [] ==> value[0] != '"' && value[|value| - 1] != '"'
  }

  /** A key id that survives: no comma, and no quotation mark at either end. */
  predicate Survives(keyId: string) {
    ',' !in keyId && Clean(keyId)
  }

  /** A segment name="value" parses to its name and, when the value has no quotation mark at an end, its value. */
  lemma SegmentParses(m: map<string, string>, name: string, value: string)
    requires IsWord(name) && '=' !in name
    ensures ParseSegment(m, Segment(name, value)) == m[name := TrimMatches(Quoted(value), IsQuote)]
  {
    var q := Quoted(value);
    var s := name + "=" + q;
    assert s[0] == name[0] && s[|s| - 1] == '"' && q[0] == '"' && q[|q| - 1] == '"';
    assert !IsSpace('"');
    TrimKeeps(s, IsSpace);
    TrimKeeps(q, IsSpace);
    TrimKeeps(name, IsSpace);
    SplitOnceAt(name, '=', q);
  }

  lemma Unquoted(value: string)
    requires Clean(value)
    ensures TrimMatches(Quoted(value), IsQuote) == value
  {
    var q := Quoted(value);
    assert q[1..] == value + "\"";
    if value == [] {
      assert q == "\"\"" && q[1..] == "\"";
      assert DropLeft(q, IsQuote) == DropLeft(q[1..], IsQuote) == DropLeft(q[1..][1..], IsQuote) == "";
    } else {
      var l := value + "\"";
      assert DropLeft(q, IsQuote) == DropLeft(l, IsQuote) == l;
      assert l[..|l| - 1] == value;
      assert DropRight(l, IsQuote) == DropRight(value, IsQuote) == value;
    }
  }

  lemma KeepsEnds(value: string)
    ensures TrimMatches(Quoted(value), IsQuote) == value <==> Clean(value)
  {
    TrimEnds(Quoted(value), IsQuote);
    if Clean(value) { Unquoted(value); }
  }

  lemma CommaFree(name: string, value: string)
    requires ',' !in name && ',' !in value
    ensures ',' !in Segment(name, value)
  {
  }

  function OwnSegments(headers: string, signature: string): seq<string> {
    [Segment("algorithm", "rsa-sha256"), Segment("headers", headers), Segment("signature", signature)]
  }

  lemma SplitFour(k: string, a: string, h: string, g: string, c: char)
    requires c !in a && c !in h && c !in g
    ensures Split(k + [c] + a + [c] + h + [c] + g, c) == Split(k, c) + [a, h, g]
  {
    hide Split;
    SplitLast(k, c, a);
    SplitLast(k + [c] + a, c, h);
    SplitLast(k + [c] + a + [c] + h, c, g);
    SplitNone(a, c);
    SplitNone(h, c);
    SplitNone(g, c);
  }

  /** The last three segments are the printer's own, whatever commas the key id adds before them. */
  lemma HeaderSplits(keyId: string, headers: string, signature: string)
    requires ',' !in headers && ',' !in signature
    ensures Split(Header(keyId, headers, signature), ',') ==
            Split(Segment("keyId", keyId), ',') + OwnSegments(headers, signature)
  {
    CommaFree("algorithm", "rsa-sha256");
    CommaFree("headers", headers);
    CommaFree("signature", signature);
    hide Split, Segment;
    SplitFour(Segment("keyId", keyId), Segment("algorithm", "rsa-sha256"), Segment("headers", headers),
              Segment("signature", signature), ',');
  }

  lemma ParseOneMore(m: map<string, string>, segments: seq<string>, segment: string)
    ensures ParseSegments(m, segments + [segment]) == ParseSegment(ParseSegments(m, segments), segment)
  {
    assert (segments + [segment])[..|segments|] == segments;
  }

  lemma ParseThreeMore(first: seq<string>, a: string, h: string, g: string)
    ensures ParseSegments(map[], first + [a, h, g]) ==
            ParseSegment(ParseSegment(ParseSegment(ParseSegments(map[], first), a), h), g)
  {
    hide ParseSegment, ParseSegments;
    ParseOneMore(map[], first, a);
    ParseOneMore(map[], first + [a], h);
    ParseOneMore(map[], first + [a] + [h], g);
    assert first + [a] + [h] + [g] == first + [a, h, g];
  }

  /** What the printer's own segments add to a map of parameters. */
  function WithOwn(m: map<string, string>, headers: string, signature: string): map<string, string> {
    m["algorithm" := "rsa-sha256"]["headers" := headers]["signature" := signature]
  }

  lemma CleanSegmentParses(m: map<string, string>, name: string, value: string)
    requires IsWord(name) && '=' !in name && Clean(value)
    ensures ParseSegment(m, Segment(name, value)) == m[name := value]
  {
    SegmentParses(m, name, value);
    Unquoted(value);
  }

  lemma OwnSegmentsParse(m: map<string, string>, headers: string, signature: string)
    requires Clean(headers) && Clean(signature)
    ensures var first := ParseSegment(m, Segment("algorithm", "rsa-sha256"));
            ParseSegment(ParseSegment(first, Segment("headers", headers)), Segment("signature", signature)) ==
            WithOwn(m, headers, signature)
  {
    SegmentNames();
    assert Clean("rsa-sha256");
    hide Segment, ParseSegment, IsWord, Clean;
    CleanSegmentParses(m, "algorithm", "rsa-sha256");
    CleanSegmentParses(m["algorithm" := "rsa-sha256"], "headers", headers);
    CleanSegmentParses(m["algorithm" := "rsa-sha256"]["headers" := headers], "signature", signature);
  }

  lemma ParsedHeader(keyId: string, headers: string, signature: string)
    requires ',' !in headers && Clean(headers) && ',' !in signature && Clean(signature)
    ensures Parsed(Header(keyId, headers, signature)) ==
            WithOwn(ParseSegments(map[], Split(Segment("keyId", keyId), ',')), headers, signature)
  {
    hide Split, Segment, ParseSegment, ParseSegments, Header, Clean, WithOwn;
    var first := Split(Segment("keyId", keyId), ',');
    HeaderSplits(keyId, headers, signature);
    ParseThreeMore(first, Segment("algorithm", "rsa-sha256"), Segment("headers", headers),
                   Segment("signature", signature));
    OwnSegmentsParse(ParseSegments(map[], first), headers, signature);
  }

  lemma SegmentNames()
    ensures IsWord("keyId") && IsWord("algorithm") && IsWord("headers") && IsWord("signature")
  {
  }

  lemma {:induction false} ValuesHaveNoComma(segments: seq<string>)
    requires forall i :: 0 <= i < |segments| ==> ',' !in segments[i]
    ensures forall k :: k in ParseSegments(map[], segments) ==> ',' !in ParseSegments(map[], segments)[k]
  {
    if segments != [] {
      var n := |segments| - 1;
      ValuesHaveNoComma(segments[..n]);
      SegmentHasNoComma(segments[n]);
    }
  }

  lemma SegmentHasNoComma(segment: string)
    requires ',' !in segment
    ensures var pair := SplitOnce(Trim(segment), '='); pair.Some? ==> ',' !in TrimMatches(Trim(pair.value.1), IsQuote)
  {
    TrimHas(segment, IsSpace, ',');
    var pair := SplitOnce(Trim(segment), '=');
    if pair.Some? {
      SplitOnceBack(Trim(segment), '=');
      TrimHas(pair.value.1, IsSpace, ',');
      TrimHas(Trim(pair.value.1), IsQuote, ',');
    }
  }

  /** The key id alone: recovered exactly when it survives. */
  lemma KeyIdParses(keyId: string)
    ensures Lookup(ParseSegments(map[], Split(Segment("keyId", keyId), ',')), "keyId") == Some(keyId) <==>
            Survives(keyId)
  {
    var segment := Segment("keyId", keyId);
    if ',' in keyId {
      ValuesHaveNoComma(Split(segment, ','));
    } else {
      SegmentNames();
      CommaFree("keyId", keyId);
      KeepsEnds(keyId);
      hide TrimMatches, Split, IsWord, ParseSegment, Segment, Quoted, Clean;
      SplitNone(segment, ',');
      ParseOneMore(map[], [], segment);
      assert [] + [segment] == [segment];
      SegmentParses(map[], "keyId", keyId);
    }
  }

  lemma OwnLookups(m: map<string, string>, headers: string, signature: string)
    ensures var p := WithOwn(m, headers, signature);
            && Lookup(p, "headers") == Some(headers) && Lookup(p, "signature") == Some(signature)
            && Lookup(p, "keyId") == Lookup(m, "keyId")
  {
    assert "headers" != "signature" && |"keyId"| == 5 && |"algorithm"| == 9 && |"headers"| == 7;
  }

  /** Parsing a printed header gives back the header list and the signature; the key id exactly when it survives. */
  lemma ParseHeader(keyId: string, headers: string, signature: string)
    requires ',' !in headers && Clean(headers) && ',' !in signature && Clean(signature)
    ensures var p := Parsed(Header(keyId, headers, signature));
            && Lookup(p, "headers") == Some(headers) && Lookup(p, "signature") == Some(signature)
            && (Lookup(p, "keyId") == Some(keyId) <==> Survives(keyId))
  {
    hide Split, Parsed, ParseSegments, Segment, Clean, Header, WithOwn;
    ParsedHeader(keyId, headers, signature);
    KeyIdParses(keyId);
    OwnLookups(ParseSegments(map[], Split(Segment("keyId", keyId), ',')), headers, signature);
  }

  // ---- verification of what was signed ----

  lemma NamesAreWords(digest: bool)
    ensures AllWords(SignedNames(digest))
    ensures var joined := Join(SignedNames(digest), " ");
            ',' !in joined && Clean(joined)
  {
    var names := SignedNames(digest);
    forall i | 0 <= i < |names| ensures IsWord(names[i]) {
    }
    NamesJoined(digest);
  }

  lemma NamesJoined(digest: bool)
    ensures Join(SignedNames(digest), " ") == TARGET + " host date" + if digest then " digest" else ""
  {
    var names := SignedNames(digest);
    JoinMore(names, " ");
    JoinMore(names[1..], " ");
    if digest {
      JoinMore(names[2..], " ");
      assert names[1..][1..] == names[2..] && names[2..][1..] == ["digest"];
    } else {
      assert names[1..][1..] == ["date"];
    }
  }

  /** The verifier sees the signed headers with the values that were signed. */
  predicate SameRequest(r: Request, signed: Request, digest: bool) {
    && r.method_ == signed.method_ && r.path == signed.path
    && forall name :: name in SignedNames(digest) && name != TARGET ==>
        Lookup(r.headers, name) == Lookup(signed.headers, name)
  }

  lemma SameSigningString(scheme: Scheme, r: Request, signed: Request, digest: bool)
    requires SameRequest(r, signed, digest)
    ensures SigningString(scheme, r, SignedNames(digest)) == SigningString(scheme, signed, SignedNames(digest))
  {
    var names := SignedNames(digest);
    forall i | 0 <= i < |names| ensures SigningLine(scheme, r, names[i]) == SigningLine(scheme, signed, names[i]) {
      assert names[i] in names;
    }
    assert SigningLines(scheme, r, names) == SigningLines(scheme, signed, names);
  }

  /**
   * Of every header, whatever it holds: it is accepted for a key id exactly when it names that key id, the date is
   * recent, and its signature is the base64 of bytes that the scheme verifies for the request and the headers it lists.
   */
  lemma AcceptedExactlyWhen(scheme: Scheme, header: string, r: Request, keyId: string)
    ensures Verified(scheme, header, r) == Some(keyId) <==>
      && Lookup(Parsed(header), "keyId") == Some(keyId)
      && ("date" in r.headers ==> scheme.recent(r.headers["date"]))
      && exists sig ::
           && Lookup(Parsed(header), "signature") == Some(Encode(sig))
           && scheme.verify(SigningString(scheme, r, Words(Lookup(Parsed(header), "headers").GetOr("date"))), sig)
  {
    hide Words, SigningString, Decode, Encode;
    var p := Parsed(header);
    if "signature" in p {
      forall sig ensures Decode(p["signature"]) == Some(sig) <==> p["signature"] == Encode(sig) {
        DecodeExactly(p["signature"], sig);
      }
    }
    if Verified(scheme, header, r) == Some(keyId) {
      var sig := Decode(p["signature"]).value;
      assert Lookup(p, "signature") == Some(Encode(sig));
    }
  }

  /** Without a key id, or without a signature, nothing is accepted. */
  lemma IncompleteIsRefused(scheme: Scheme, header: string, r: Request)
    requires "keyId" !in Parsed(header) || "signature" !in Parsed(header)
    ensures Verified(scheme, header, r) == None
  {
  }

  /** Whatever signature a header carries, it is accepted only if the scheme verifies it. */
  lemma SignatureDecides(scheme: Scheme, keyId: string, names: seq<string>, sig: seq<Byte>, r: Request)
    requires AllWords(names) && ',' !in Join(names, " ") && Clean(Join(names, " "))
    ensures Verified(scheme, Header(keyId, Join(names, " "), Encode(sig)), r) == Some(keyId) <==>
      && ("date" in r.headers ==> scheme.recent(r.headers["date"])) && Survives(keyId)
      && scheme.verify(SigningString(scheme, r, names), sig)
  {
    WordsOfJoin(names);
    PlainText(sig, ',');
    PlainText(sig, '"');
    DecodeEncode(sig);
    hide Words, SigningString, Decode, Encode, Parsed, Header, Survives, Join, AllWords;
    ParseHeader(keyId, Join(names, " "), Encode(sig));
  }

  // ---- what a signature binds ----

  lemma JoinThree(a: string, b: string, c: string, separator: string)
    ensures Join([a, b, c], separator) == a + separator + b + separator + c
  {
    JoinMore([a, b, c], separator);
    assert [a, b, c][1..] == [b, c] && [b, c][1..] == [c];
    JoinMore([b, c], separator);
  }

  lemma JoinFour(a: string, b: string, c: string, d: string, separator: string)
    ensures Join([a, b, c, d], separator) == a + separator + b + separator + c + separator + d
  {
    JoinMore([a, b, c, d], separator);
    assert [a, b, c, d][1..] == [b, c, d];
    JoinThree(b, c, d, separator);
  }

  lemma LinesSigned(scheme: Scheme, method_: string, path: string, host: string, date: string, digest: Option<string>)
    ensures SigningLines(scheme, Request(method_, path, SignedHeaders(host, date, digest)),
                         SignedNames(digest.Some?)) ==
            ["(request-target): " + scheme.lower(method_) + " " + path, "host: " + host, "date: " + date]
            + if digest.Some? then ["digest: " + digest.value] else []
  {
    assert |TARGET| == 16 && |"host"| == 4 && |"date"| == 4 && "host"[0] != "date"[0] && |"digest"| == 6;
    var r, names := Request(method_, path, SignedHeaders(host, date, digest)), SignedNames(digest.Some?);
    assert SigningLine(scheme, r, "host") == "host: " + host;
    assert SigningLine(scheme, r, "date") == "date: " + date;
    assert digest.Some? ==> SigningLine(scheme, r, "digest") == "digest: " + digest.value;
    assert SigningLine(scheme, r, TARGET) == "(request-target): " + scheme.lower(method_) + " " + path;
    hide SigningLine, SignedHeaders;
  }

  /** The text that a request is signed as. */
  lemma SigningText(scheme: Scheme, method_: string, path: string, host: string, date: string, digest: Option<string>)
    ensures SigningString(scheme, Request(method_, path, SignedHeaders(host, date, digest)), SignedNames(digest.Some?))
            == "(request-target): " + scheme.lower(method_) + " " + path + "\n" + "host: " + host + "\n"
               + "date: " + date + (if digest.Some? then "\n" + "digest: " + digest.value else "")
  {
    var first, second, third := "(request-target): " + scheme.lower(method_) + " " + path, "host: " + host,
                                "date: " + date;
    LinesSigned(scheme, method_, path, host, date, digest);
    hide SigningLines, SignedHeaders, SignedNames, Join;
    if digest.Some? {
      var fourth := "digest: " + digest.value;
      assert [first, second, third] + [fourth] == [first, second, third, fourth];
      JoinFour(first, second, third, fourth, "\n");
    } else {
      assert [first, second, third] + [] == [first, second, third];
      JoinThree(first, second, third, "\n");
    }
  }

  /** What comes before and after the first c is determined. */
  lemma CutsAgree(a: string, b: string, a': string, b': string, c: char)
    requires c !in a && c !in a' && a + [c] + b == a' + [c] + b'
    ensures a == a' && b == b'
  {
    SplitOnceAt(a, c, b);
    SplitOnceAt(a', c, b');
  }

  predicate OneLine(s: string) {
    '\n' !in s
  }

  /** The parts of a request that go into its signature: as header values, without line breaks. */
  datatype Signed = Signed(method_: string, path: string, host: string, date: string, digest: Option<string>)

  predicate IsPlain(scheme: Scheme, s: Signed) {
    && OneLine(scheme.lower(s.method_)) && ' ' !in scheme.lower(s.method_)
    && OneLine(s.path) && OneLine(s.host) && OneLine(s.date) && (s.digest.Some? ==> OneLine(s.digest.value))
  }

  function TextOf(scheme: Scheme, s: Signed): string {
    SigningString(scheme, Request(s.method_, s.path, SignedHeaders(s.host, s.date, s.digest)),
                  SignedNames(s.digest.Some?))
  }

  lemma PrefixCancels(p: string, a: string, b: string)
    requires p + a == p + b
    ensures a == b
  {
    assert a == (p + a)[|p|..] && b == (p + b)[|p|..];
  }

  function LastLines(s: Signed): string {
    "date: " + s.date + if s.digest.Some? then "\n" + "digest: " + s.digest.value else ""
  }

  lemma LastLinesBind(s: Signed, u: Signed)
    requires OneLine(s.date) && OneLine(u.date) && LastLines(s) == LastLines(u)
    ensures s.date == u.date && s.digest == u.digest
  {
    var d, e := "date: " + s.date, "date: " + u.date;
    assert OneLine(d) && OneLine(e);
    assert s.digest.Some? ==> LastLines(s)[|d|] == '\n';
    assert u.digest.Some? ==> LastLines(u)[|e|] == '\n';
    assert (s.digest.None? ==> LastLines(s) == d) && (u.digest.None? ==> LastLines(u) == e);
    if s.digest.Some? && u.digest.Some? {
      assert LastLines(s) == d + ['\n'] + ("digest: " + s.digest.value);
      assert LastLines(u) == e + ['\n'] + ("digest: " + u.digest.value);
      CutsAgree(d, "digest: " + s.digest.value, e, "digest: " + u.digest.value, '\n');
      PrefixCancels("digest: ", s.digest.value, u.digest.value);
    }
    assert d == e;
    PrefixCancels("date: ", s.date, u.date);
  }

  function TargetLine(scheme: Scheme, s: Signed): string {
    "(request-target): " + scheme.lower(s.method_) + " " + s.path
  }

  lemma TextInLines(scheme: Scheme, s: Signed)
    requires IsPlain(scheme, s)
    ensures OneLine(TargetLine(scheme, s)) && OneLine("host: " + s.host)
    ensures TextOf(scheme, s) == TargetLine(scheme, s) + ['\n'] + ("host: " + s.host + ['\n'] + LastLines(s))
  {
    SigningText(scheme, s.method_, s.path, s.host, s.date, s.digest);
    hide SigningString, SignedHeaders, SignedNames;
  }

  /** A signature is for one request: equal signing texts mean equal method, path, host, date and digest. */
  lemma SignatureBinds(scheme: Scheme, s: Signed, u: Signed)
    requires IsPlain(scheme, s) && IsPlain(scheme, u)
    ensures TextOf(scheme, s) == TextOf(scheme, u) <==>
      && scheme.lower(s.method_) == scheme.lower(u.method_) && s.path == u.path
      && s.host == u.host && s.date == u.date && s.digest == u.digest
  {
    TextInLines(scheme, s);
    TextInLines(scheme, u);
    var a, b, a', b' := TargetLine(scheme, s), "host: " + s.host, TargetLine(scheme, u), "host: " + u.host;
    if TextOf(scheme, s) == TextOf(scheme, u) {
      hide TextOf, LastLines;
      CutsAgree(a, b + ['\n'] + LastLines(s), a', b' + ['\n'] + LastLines(u), '\n');
      CutsAgree(b, LastLines(s), b', LastLines(u), '\n');
      hide OneLine;
      LastLinesBind(s, u);
      PrefixCancels("host: ", s.host, u.host);
      TargetBinds(scheme.lower(s.method_), s.path, scheme.lower(u.method_), u.path);
    }
  }

  lemma TargetBinds(m: string, path: string, m': string, path': string)
    requires ' ' !in m && ' ' !in m'
    requires "(request-target): " + m + " " + path == "(request-target): " + m' + " " + path'
    ensures m == m' && path == path'
  {
    assert "(request-target): " + m + " " + path == "(request-target): " + (m + [' '] + path);
    assert "(request-target): " + m' + " " + path' == "(request-target): " + (m' + [' '] + path');
    PrefixCancels("(request-target): ", m + [' '] + path, m' + [' '] + path');
    CutsAgree(m, path, m', path', ' ');
  }

  /** For any scheme that accepts its own signatures, a signed request verifies under its key id exactly when it is
      recent and the key id survives. */
  lemma SignedRequestVerifies(scheme: Scheme, keyId: string, signed: Request, digest: bool, r: Request)
    requires SameRequest(r, signed, digest) && "date" in signed.headers
    requires forall text :: scheme.verify(text, scheme.sign(text))
    ensures var names := SignedNames(digest);
            var header := Header(keyId, Join(names, " "), Encode(scheme.sign(SigningString(scheme, signed, names))));
            && (Verified(scheme, header, r) == Some(keyId) <==>
                scheme.recent(signed.headers["date"]) && Survives(keyId))
  {
    var names := SignedNames(digest);
    var text := SigningString(scheme, signed, names);
    var signature := Encode(scheme.sign(text));
    NamesAreWords(digest);
    WordsOfJoin(names);
    PlainText(scheme.sign(text), ',');
    PlainText(scheme.sign(text), '"');
    SameSigningString(scheme, r, signed, digest);
    ParseHeader(keyId, Join(names, " "), signature);
    DecodeEncode(scheme.sign(text));
    assert "date" in names && Lookup(r.headers, "date") == Lookup(signed.headers, "date");
  }
}
