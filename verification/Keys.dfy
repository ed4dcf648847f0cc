// Private keys at rest: a stream cipher over 32-byte chunks, written as v1:<nonce>:<ciphertext> in base64.

module Keys {

  import opened Common
  import opened Text
  import opened Base64

  const CHUNK := 32

  /** One HMAC-SHA256 output. */
  type Block = s: seq<Byte> | |s| == 32 witness seq(32, _ => 0)

  /** The keystream block for a secret, a nonce and a block index: any function will do. */
  type Keystream = (seq<Byte>, seq<Byte>, nat) -> Block

  // ---- exclusive or ----

  function XorBits(a: nat, b: nat, bits: nat): nat {
    if bits == 0 then 0 else (a + b) % 2 + 2 * XorBits(a / 2, b / 2, bits - 1)
  }

  function Power2(n: nat): nat {
    if n == 0 then 1 else 2 * Power2(n - 1)
  }

  lemma {:induction false} XorFits(a: nat, b: nat, bits: nat)
    ensures XorBits(a, b, bits) < Power2(bits)
  {
    if bits > 0 { XorFits(a / 2, b / 2, bits - 1); }
  }

  lemma Parity(a: nat, k: nat, high: nat)
    ensures ((a + k) % 2 + 2 * high) / 2 == high
    ensures ((a + k) % 2 + 2 * high + k) % 2 == a % 2
    ensures a == a % 2 + 2 * (a / 2)
  {
  }

  lemma {:induction false} XorTwice(a: nat, k: nat, bits: nat)
    requires a < Power2(bits)
    ensures XorBits(XorBits(a, k, bits), k, bits) == a
  {
    if bits > 0 {
      var high := XorBits(a / 2, k / 2, bits - 1);
      Parity(a, k, high);
      XorTwice(a / 2, k / 2, bits - 1);
      hide XorBits;
    }
  }

  function Xor(a: Byte, b: Byte): Byte {
    XorFits(a, b, 8);
    assert Power2(8) == 256;
    XorBits(a, b, 8)
  }

  lemma XorUndoes(a: Byte, k: Byte)
    ensures Xor(Xor(a, k), k) == a
  {
    assert Power2(8) == 256;
    XorTwice(a, k, 8);
  }

  /** Bit i of a, counted from the lowest. */
  predicate BitOf(a: nat, i: nat) {
    if i == 0 then a % 2 == 1 else BitOf(a / 2, i - 1)
  }

  lemma LowestBit(a: nat, k: nat, high: nat)
    ensures ((a + k) % 2 + 2 * high) % 2 == 1 <==> (a % 2 == 1) != (k % 2 == 1)
  {
  }

  lemma XorHalves(a: nat, k: nat, bits: nat)
    requires bits > 0
    ensures XorBits(a, k, bits) / 2 == XorBits(a / 2, k / 2, bits - 1)
    ensures XorBits(a, k, bits) % 2 == 1 <==> (a % 2 == 1) != (k % 2 == 1)
  {
    Parity(a, k, XorBits(a / 2, k / 2, bits - 1));
    LowestBit(a, k, XorBits(a / 2, k / 2, bits - 1));
  }

  lemma {:induction false} XorBit(a: nat, k: nat, bits: nat, i: nat)
    requires i < bits
    ensures BitOf(XorBits(a, k, bits), i) <==> BitOf(a, i) != BitOf(k, i)
    decreases i
  {
    hide XorBits;
    XorHalves(a, k, bits);
    if i > 0 { XorBit(a / 2, k / 2, bits - 1, i - 1); }
  }

  /** Of the eight bits, exactly those are set that are set in one of the two bytes and not in the other. */
  lemma XorIsExclusive(a: Byte, k: Byte, i: nat)
    requires i < 8
    ensures BitOf(Xor(a, k), i) <==> BitOf(a, i) != BitOf(k, i)
  {
    hide XorBits, BitOf;
    XorBit(a, k, 8, i);
  }

  // ---- the cipher ----

  /** Every byte against its keystream byte: block i / 32, position i % 32. */
  function Masked(s: seq<Byte>, secret: seq<Byte>, nonce: seq<Byte>, keystream: Keystream): (r: seq<Byte>) {
    seq<Byte>(|s|, i requires 0 <= i < |s| => Xor(s[i], keystream(secret, nonce, i / CHUNK)[i % CHUNK]))
  }

  lemma MaskedTwice(s: seq<Byte>, secret: seq<Byte>, nonce: seq<Byte>, keystream: Keystream)
    ensures Masked(Masked(s, secret, nonce, keystream), secret, nonce, keystream) == s
  {
    forall i | 0 <= i < |s| ensures Masked(Masked(s, secret, nonce, keystream), secret, nonce, keystream)[i] == s[i] {
      XorUndoes(s[i], keystream(secret, nonce, i / CHUNK)[i % CHUNK]);
    }
  }

  /** The loop over chunks_mut(32), the last chunk possibly shorter, with its inner loop over zipped bytes. */
  method MaskInPlace(buffer: array<Byte>, secret: seq<Byte>, nonce: seq<Byte>, keystream: Keystream)
    modifies buffer
    ensures buffer[..] == Masked(old(buffer[..]), secret, nonce, keystream)
    ensures forall i :: 0 <= i < buffer.Length ==>
              buffer[i] == Xor(old(buffer[i]), keystream(secret, nonce, i / 32)[i % 32])
  {
    ghost var was := buffer[..];
    var block := 0;
    while block * CHUNK < buffer.Length
      invariant forall i :: 0 <= i < buffer.Length && i < block * CHUNK ==>
              buffer[i] == Masked(was, secret, nonce, keystream)[i]
      invariant forall i :: block * CHUNK <= i < buffer.Length ==> buffer[i] == was[i]
      decreases buffer.Length - block * CHUNK
    {
      MaskChunk(buffer, block, secret, nonce, keystream, was);
      block := block + 1;
    }
  }

  method MaskChunk(buffer: array<Byte>, block: nat, secret: seq<Byte>, nonce: seq<Byte>, keystream: Keystream,
                   ghost was: seq<Byte>)
    requires |was| == buffer.Length && block * CHUNK < buffer.Length
    requires forall i :: 0 <= i < block * CHUNK ==> buffer[i] == Masked(was, secret, nonce, keystream)[i]
    requires forall i :: block * CHUNK <= i < buffer.Length ==> buffer[i] == was[i]
    modifies buffer
    ensures forall i :: 0 <= i < buffer.Length && i < (block + 1) * CHUNK ==>
            buffer[i] == Masked(was, secret, nonce, keystream)[i]
    ensures forall i :: (block + 1) * CHUNK <= i < buffer.Length ==> buffer[i] == was[i]
  {
    var start := block * CHUNK;
    var size := if buffer.Length - start < CHUNK then buffer.Length - start else CHUNK;
    var ks := keystream(secret, nonce, block);
    for j := 0 to size
      invariant forall i :: 0 <= i < start + j ==> buffer[i] == Masked(was, secret, nonce, keystream)[i]
      invariant forall i :: start + j <= i < buffer.Length ==> buffer[i] == was[i]
    {
      assert (start + j) / CHUNK == block && (start + j) % CHUNK == j;
      buffer[start + j] := Xor(buffer[start + j], ks[j]);
    }
  }

  // ---- the stored text ----

  function Envelope(nonce: seq<Byte>, ciphertext: seq<Byte>): string {
    "v1:" + Encode(nonce) + ":" + Encode(ciphertext)
  }

  function Opened(text: string): Option<(seq<Byte>, seq<Byte>)> {
    var parts := SplitIn3(text, ':');
    if |parts| != 3 || parts[0] != "v1" then None
    else
      match (Decode(parts[1]), Decode(parts[2]))
      case (Some(nonce), Some(ciphertext)) => Some((nonce, ciphertext))
      case _ => None
  }

  /** Exactly the envelopes open, each to its own nonce and ciphertext. */
  lemma OpenedExactly(text: string, nonce: seq<Byte>, ciphertext: seq<Byte>)
    ensures Opened(text) == Some((nonce, ciphertext)) <==> text == Envelope(nonce, ciphertext)
  {
    var a, b := Encode(nonce), Encode(ciphertext);
    PlainText(nonce, ':');
    assert Envelope(nonce, ciphertext) == "v1" + [':'] + a + [':'] + b;
    SplitIn3Exactly(text, ':', "v1", a, b);
    var parts := SplitIn3(text, ':');
    if |parts| == 3 {
      DecodeExactly(parts[1], nonce);
      DecodeExactly(parts[2], ciphertext);
      assert parts == [parts[0], parts[1], parts[2]];
    }
    DecodeExactly(a, nonce);
    DecodeExactly(b, ciphertext);
  }

  function Encrypted(pem: seq<Byte>, secret: seq<Byte>, nonce: seq<Byte>, keystream: Keystream): string {
    Envelope(nonce, Masked(pem, secret, nonce, keystream))
  }

  /** utf8 stands for the check of String::from_utf8. */
  function Decrypted(text: string, secret: seq<Byte>, keystream: Keystream, utf8: seq<Byte> -> bool)
    : Option<seq<Byte>>
  {
    match Opened(text)
    case None => None
    case Some((nonce, ciphertext)) =>
      var pem := Masked(ciphertext, secret, nonce, keystream);
      if utf8(pem) then Some(pem) else None
  }

  /** A key comes back as it went in. */
  lemma DecryptEncrypt(pem: seq<Byte>, secret: seq<Byte>, nonce: seq<Byte>, keystream: Keystream,
                       utf8: seq<Byte> -> bool)
    requires utf8(pem)
    ensures Decrypted(Encrypted(pem, secret, nonce, keystream), secret, keystream, utf8) == Some(pem)
  {
    OpenedExactly(Encrypted(pem, secret, nonce, keystream), nonce, Masked(pem, secret, nonce, keystream));
    MaskedTwice(pem, secret, nonce, keystream);
  }

  /** A text decrypts to a key exactly when it is an encryption of it under some nonce. */
  lemma DecryptsExactly(text: string, pem: seq<Byte>, secret: seq<Byte>, keystream: Keystream, utf8: seq<Byte> -> bool)
    requires utf8(pem)
    ensures Decrypted(text, secret, keystream, utf8) == Some(pem) <==>
            exists nonce :: text == Encrypted(pem, secret, nonce, keystream)
  {
    if Decrypted(text, secret, keystream, utf8) == Some(pem) {
      var (nonce, ciphertext) := Opened(text).value;
      OpenedExactly(text, nonce, ciphertext);
      MaskedTwice(ciphertext, secret, nonce, keystream);
      assert text == Encrypted(pem, secret, nonce, keystream);
    }
    forall nonce | text == Encrypted(pem, secret, nonce, keystream)
      ensures Decrypted(text, secret, keystream, utf8) == Some(pem)
    {
      DecryptEncrypt(pem, secret, nonce, keystream, utf8);
    }
  }

  method EncryptPrivateKey(pem: seq<Byte>, secret: seq<Byte>, nonce: seq<Byte>, keystream: Keystream)
    returns (text: string)
    ensures text == Encrypted(pem, secret, nonce, keystream)
    ensures text == "v1:" + Encode(nonce) + ":" + Encode(Masked(pem, secret, nonce, keystream))
  {
    var ciphertext := new Byte[|pem|](i requires 0 <= i < |pem| => pem[i]);
    assert ciphertext[..] == pem;
    MaskInPlace(ciphertext, secret, nonce, keystream);
    text := "v1:" + Encode(nonce) + ":" + Encode(ciphertext[..]);
  }

  method DecryptPrivateKey(text: string, secret: seq<Byte>, keystream: Keystream, utf8: seq<Byte> -> bool)
    returns (pem: Option<seq<Byte>>)
    ensures pem == Decrypted(text, secret, keystream, utf8)
  {
    var parts := SplitIn3(text, ':');
    if |parts| != 3 || parts[0] != "v1" { return None; }
    var nonce := Decode(parts[1]);
    if nonce.None? { return None; }
    var bytes := Decode(parts[2]);
    if bytes.None? { return None; }
    var s := bytes.value;
    var ciphertext := new Byte[|s|](i requires 0 <= i < |s| => s[i]);
    assert ciphertext[..] == s;
    MaskInPlace(ciphertext, secret, nonce.value, keystream);
    pem := if utf8(ciphertext[..]) then Some(ciphertext[..]) else None;
  }
}
