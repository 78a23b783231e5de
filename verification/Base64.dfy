/** Base64 (section 4 of RFC 4648) as the checkpoint uses it: `b64encode` and a strict `b64decode`. */
module Base64 {
  import opened Wrappers

  type Byte = b: int | 0 <= b < 256
  type Bytes = seq<Byte>
  type Sextet = n: int | 0 <= n < 64

  function Letter(n: Sextet): char {
    if n < 26 then ('A' as int + n) as char
    else if n < 52 then ('a' as int + n - 26) as char
    else if n < 62 then ('0' as int + n - 52) as char
    else if n == 62 then '+'
    else '/'
  }

  function Value(c: char): Option<Sextet> {
    if 'A' <= c <= 'Z' then Some(c as int - 'A' as int)
    else if 'a' <= c <= 'z' then Some(c as int - 'a' as int + 26)
    else if '0' <= c <= '9' then Some(c as int - '0' as int + 52)
    else if c == '+' then Some(62)
    else if c == '/' then Some(63)
    else None
  }

  /** Three bytes become four sextets; a final one or two bytes become two or three. */
  function Sextets(b: Bytes): (v: seq<Sextet>)
    ensures |v| == |b| / 3 * 4 + (if |b| % 3 == 0 then 0 else |b| % 3 + 1)
  {
    if |b| == 0 then []
    else if |b| == 1 then [b[0] / 4, b[0] % 4 * 16]
    else if |b| == 2 then [b[0] / 4, b[0] % 4 * 16 + b[1] / 16, b[1] % 16 * 4]
    else
      assert |b[3..]| / 3 == |b| / 3 - 1 && |b[3..]| % 3 == |b| % 3;
      [b[0] / 4, b[0] % 4 * 16 + b[1] / 16, b[1] % 16 * 4 + b[2] / 64, b[2] % 64] + Sextets(b[3..])
  }

  /** The unused low bits of a short final group are ignored. */
  function Join(v: seq<Sextet>): Bytes
    requires |v| % 4 != 1
  {
    if |v| == 0 then []
    else
      var p: int, q: int := v[0], v[1];
      if |v| == 2 then [p * 4 + q / 16]
      else
        var r: int := v[2];
        if |v| == 3 then [p * 4 + q / 16, q % 16 * 16 + r / 4]
        else [p * 4 + q / 16, q % 16 * 16 + r / 4, r % 4 * 64 + v[3]] + Join(v[4..])
  }

  function Letters(v: seq<Sextet>): (s: string)
    ensures |s| == |v|
  {
    if v == [] then [] else [Letter(v[0])] + Letters(v[1..])
  }

  function Values(s: string): (v: Option<seq<Sextet>>)
    ensures v.Some? ==> |v.value| == |s|
  {
    if s == [] then Some([])
    else
      var head, rest := Value(s[0]), Values(s[1..]);
      if head.Some? && rest.Some? then Some([head.value] + rest.value) else None
  }

  function Padding(length: nat): string {
    if length % 3 == 0 then "" else if length % 3 == 1 then "==" else "="
  }

  function Encode(b: Bytes): string {
    Letters(Sextets(b)) + Padding(|b|)
  }

  function PaddingOf(s: string): (pad: nat)
    ensures pad <= |s|
  {
    if |s| == 0 || s[|s| - 1] != '=' then 0
    else if |s| == 1 || s[|s| - 2] != '=' then 1
    else 2
  }

  /** Strict decoding: whole groups, padding only at the very end, no foreign character. */
  function Decode(s: string): Option<Bytes> {
    if |s| % 4 != 0 then None
    else
      match Values(s[..|s| - PaddingOf(s)])
      case None => None
      case Some(v) => Some(Join(v))
  }

  lemma LetterValue(n: Sextet)
    ensures Value(Letter(n)) == Some(n) && Letter(n) != '='
  {
  }

  lemma {:induction false} LettersValues(v: seq<Sextet>)
    ensures Values(Letters(v)) == Some(v)
    ensures forall i :: 0 <= i < |v| ==> Letters(v)[i] != '='
  {
    if v != [] {
      LetterValue(v[0]);
      LettersValues(v[1..]);
      assert Letters(v)[1..] == Letters(v[1..]);
      assert v == [v[0]] + v[1..];
    }
  }

  lemma {:induction false} JoinSextets(b: Bytes)
    ensures Join(Sextets(b)) == b
  {
    if |b| == 1 {
      Regroup(b[0], 0, 0);
    } else if |b| == 2 {
      Regroup(b[0], b[1], 0);
    } else if |b| > 2 {
      Regroup(b[0], b[1], b[2]);
      JoinSextets(b[3..]);
      assert Sextets(b)[4..] == Sextets(b[3..]);
      assert b == [b[0], b[1], b[2]] + b[3..];
    }
  }

  /** Splitting three bytes into four sextets and regrouping them loses nothing. */
  lemma Regroup(x: Byte, y: Byte, z: Byte)
    ensures x / 4 * 4 + (x % 4 * 16 + y / 16) / 16 == x
    ensures (x % 4 * 16 + y / 16) % 16 * 16 + (y % 16 * 4 + z / 64) / 4 == y
    ensures (y % 16 * 4 + z / 64) % 4 * 64 + z % 64 == z
    ensures x / 4 * 4 + x % 4 * 16 / 16 == x
    ensures (x % 4 * 16 + y / 16) % 16 * 16 + y % 16 * 4 / 4 == y
  {
    assert (x % 4 * 16 + y / 16) / 16 == x % 4 && (x % 4 * 16 + y / 16) % 16 == y / 16;
    assert (y % 16 * 4 + z / 64) / 4 == y % 16 && (y % 16 * 4 + z / 64) % 4 == z / 64;
  }

  lemma EncodeLength(b: Bytes)
    ensures |Encode(b)| == (|b| + 2) / 3 * 4
    ensures |Encode(b)| % 4 == 0
  {
    assert |Encode(b)| == 4 * ((|b| + 2) / 3);
  }

  lemma PaddingFound(front: string, pad: string)
    requires forall i :: 0 <= i < |front| ==> front[i] != '='
    requires pad in {"", "=", "=="} && (pad == "=" ==> front != "")
    ensures PaddingOf(front + pad) == |pad|
  {
  }

  lemma DecodeParts(front: string, pad: string, v: seq<Sextet>)
    requires Values(front) == Some(v) && |front + pad| % 4 == 0
    requires PaddingOf(front + pad) == |pad|
    ensures Decode(front + pad) == Some(Join(v))
  {
    assert (front + pad)[..|front|] == front;
  }

  lemma DecodeEncode(b: Bytes)
    ensures Decode(Encode(b)) == Some(b)
  {
    var v := Sextets(b);
    LettersValues(v);
    EncodeLength(b);
    PaddingFound(Letters(v), Padding(|b|));
    DecodeParts(Letters(v), Padding(|b|), v);
    JoinSextets(b);
  }

  /** The checkpoint's test for canonical text: it decodes, and encoding the bytes gives the text back. */
  predicate Canonical(s: string) {
    Decode(s).Some? && Encode(Decode(s).value) == s
  }

  /** Canonical texts are exactly the encoder's outputs, so each byte string has one. */
  lemma CanonicalIsEncoded(s: string)
    ensures Canonical(s) <==> exists b: Bytes :: Encode(b) == s
    ensures forall b: Bytes :: Encode(b) == s ==> Decode(s) == Some(b)
  {
    if Canonical(s) {
      var b := Decode(s).value;
      assert Encode(b) == s;
    }
    forall b: Bytes | Encode(b) == s ensures Decode(s) == Some(b) {
      DecodeEncode(b);
    }
  }

  /** Strict decoding alone would not do: two texts decode to the byte of "A", one of them canonical. */
  lemma DecodingAloneIsNotCanonical()
    ensures Decode("QQ==") == Some([65]) == Decode("QR==")
    ensures Canonical("QQ==") && !Canonical("QR==")
  {
    assert Encode([65]) == "QQ==" by {
      assert Sextets([65]) == [16, 16];
      assert Letters([16])[..] == "Q";
      assert Letters([16, 16]) == "Q" + Letters([16, 16][1..]);
    }
    DecodeEncode([65]);
    var tail: string, text: string := ['R'], ['Q', 'R'];
    assert tail[1..] == [] && text[1..] == tail;
    assert Value('Q') == Some(16) && Value('R') == Some(17);
    assert Values(tail).Some? && Values(tail).value == [17];
    assert Values(text).Some? && Values(text).value == [16, 17];
    DecodeParts(text, "==", Values(text).value);
    assert "QR==" == text + "==";
    assert Join([16, 17]) == [65];
    assert Decode("QR==").value == [65];
  }
}
