// Rate-limit descriptor keys: names joined by ':' and base64-encoded with
// padding (section 4 of RFC 4648). Go strings are byte sequences.
module DescriptorKeys {
  import opened Wrappers

  type Byte = c: char | c as int < 256
  type Bytes = seq<Byte>

  const COLON: Byte := ':'

  // ---------- base64 ----------

  function Digit(n: Sextet): char
  {
    if n < 26 then ('A' as int + n) as char
    else if n < 52 then ('a' as int + (n - 26)) as char
    else if n < 62 then ('0' as int + (n - 52)) as char
    else if n == 62 then '+' else '/'
  }

  function Value(c: char): Sextet
  {
    if 'A' <= c <= 'Z' then c as int - 'A' as int
    else if 'a' <= c <= 'z' then c as int - 'a' as int + 26
    else if '0' <= c <= '9' then c as int - '0' as int + 52
    else if c == '+' then 62 else 63
  }

  // Four six-bit groups of three bytes, and back.
  type Sextet = n: int | 0 <= n < 64
  type Octet = n: int | 0 <= n < 256

  function Cut(b0: Octet, b1: Octet, b2: Octet): (Sextet, Sextet, Sextet, Sextet) {
    (b0 / 4, b0 % 4 * 16 + b1 / 16, b1 % 16 * 4 + b2 / 64, b2 % 64)
  }

  function Glue(s: (Sextet, Sextet, Sextet, Sextet)): (Octet, Octet, Octet) {
    (s.0 * 4 + s.1 / 16, s.1 % 16 * 16 + s.2 / 4, s.2 % 4 * 64 + s.3)
  }

  lemma GlueCut(b0: Octet, b1: Octet, b2: Octet)
    ensures Glue(Cut(b0, b1, b2)) == (b0, b1, b2)
  {
    Split16(b0 % 4, b1 / 16);
    Split4(b1 % 16, b2 / 64);
  }

  lemma Split16(q: int, r: int)
    requires 0 <= r < 16
    ensures (q * 16 + r) / 16 == q && (q * 16 + r) % 16 == r
  {
  }

  lemma Split4(q: int, r: int)
    requires 0 <= r < 4
    ensures (q * 4 + r) / 4 == q && (q * 4 + r) % 4 == r
  {
  }

  function EncodeToString(b: Bytes): string
    decreases |b|
  {
    if |b| == 0 then ""
    else if |b| == 1 then
      var t := Cut(b[0] as int, 0, 0); [Digit(t.0), Digit(t.1), '=', '=']
    else if |b| == 2 then
      var t := Cut(b[0] as int, b[1] as int, 0); [Digit(t.0), Digit(t.1), Digit(t.2), '=']
    else
      var t := Cut(b[0] as int, b[1] as int, b[2] as int);
      [Digit(t.0), Digit(t.1), Digit(t.2), Digit(t.3)] + EncodeToString(b[3..])
  }

  function DecodeString(s: string): Option<Bytes>
    decreases |s|
  {
    if |s| == 0 then Some([])
    else if |s| < 4 then None
    else
      var v2: Sextet := if s[2] == '=' then 0 else Value(s[2]);
      var v3: Sextet := if s[3] == '=' then 0 else Value(s[3]);
      var b := Glue((Value(s[0]), Value(s[1]), v2, v3));
      if s[2] == '=' then (if |s| == 4 && s[3] == '=' then Some([b.0 as char]) else None)
      else if s[3] == '=' then (if |s| == 4 then Some([b.0 as char, b.1 as char]) else None)
      else match DecodeString(s[4..])
           case None => None
           case Some(t) => Some([b.0 as char, b.1 as char, b.2 as char] + t)
  }

  // Table 1 of section 4 of RFC 4648: the letters in order, upper case first, then
  // the figures and two more.
  lemma Alphabet(n: Sextet)
    ensures Digit(0) == 'A' && Digit(25) == 'Z' && Digit(26) == 'a' && Digit(51) == 'z'
    ensures Digit(52) == '0' && Digit(61) == '9' && Digit(62) == '+' && Digit(63) == '/'
    ensures n !in {25, 51, 61, 62, 63} ==> Digit(n + 1) as int == Digit(n) as int + 1
  {
  }

  // Test vectors of section 10 of RFC 4648.
  lemma TestVectors()
    ensures EncodeToString("f") == "Zg==" && EncodeToString("fo") == "Zm8=" && EncodeToString("foo") == "Zm9v"
    ensures EncodeToString("foobar") == "Zm9vYmFy"
  {
    var foobar: Bytes := "foobar";
    assert foobar[3..] == "bar" && foobar[3..][3..] == [];
    assert "foo"[3..] == [];
    assert EncodeToString("bar") == "YmFy" by { assert "bar"[3..] == []; }
  }

  lemma DigitValue(n: Sextet)
    ensures Value(Digit(n)) == n && Digit(n) != '='
  {
  }

  type Sextets = (Sextet, Sextet, Sextet, Sextet)

  lemma DigitValues(t: Sextets)
    ensures Value(Digit(t.0)) == t.0 && Value(Digit(t.1)) == t.1
    ensures Value(Digit(t.2)) == t.2 && Value(Digit(t.3)) == t.3
    ensures Digit(t.2) != '=' && Digit(t.3) != '='
  {
    DigitValue(t.0);
    DigitValue(t.1);
    DigitValue(t.2);
    DigitValue(t.3);
  }

  lemma DecodeGroup(t: Sextets, s: string, rest: string)
    requires s == [Digit(t.0), Digit(t.1), Digit(t.2), Digit(t.3)] + rest && DecodeString(rest).Some?
    ensures var b := Glue(t);
            DecodeString(s) == Some([b.0 as char, b.1 as char, b.2 as char] + DecodeString(rest).value)
  {
    DigitValues(t);
    hide Digit, Value, Glue;
    assert s[4..] == rest;
  }

  lemma DecodePadded(t: Sextets)
    ensures t.3 == 0 ==>
              DecodeString([Digit(t.0), Digit(t.1), Digit(t.2), '=']) == Some([Glue(t).0 as char, Glue(t).1 as char])
    ensures t.2 == t.3 == 0 ==>
              DecodeString([Digit(t.0), Digit(t.1), '=', '=']) == Some([Glue(t).0 as char])
  {
    DigitValues(t);
    hide Digit, Value, Glue;
  }

  lemma GroupRoundTrip(b: Bytes)
    requires |b| > 2 && DecodeString(EncodeToString(b[3..])) == Some(b[3..])
    ensures DecodeString(EncodeToString(b)) == Some(b)
  {
    hide Cut, Glue, Digit, DecodeString;
    var t := Cut(b[0] as int, b[1] as int, b[2] as int);
    GlueCut(b[0] as int, b[1] as int, b[2] as int);
    DecodeGroup(t, EncodeToString(b), EncodeToString(b[3..]));
    assert b == [b[0], b[1], b[2]] + b[3..];
  }

  lemma PaddedRoundTrip(b: Bytes)
    requires 1 <= |b| <= 2
    ensures DecodeString(EncodeToString(b)) == Some(b)
  {
    hide Cut, Glue, Digit, DecodeString;
    var n1: Octet := if |b| == 2 then b[1] as int else 0;
    var t := Cut(b[0] as int, n1, 0);
    GlueCut(b[0] as int, n1, 0);
    PaddingIsZero(b[0] as int, n1);
    DecodePadded(t);
    assert b == if |b| == 2 then [b[0], b[1]] else [b[0]];
  }

  lemma PaddingIsZero(b0: Octet, b1: Octet)
    ensures Cut(b0, b1, 0).3 == 0 && (b1 == 0 ==> Cut(b0, b1, 0).2 == 0)
  {
  }

  lemma {:induction false} Base64RoundTrip(b: Bytes)
    ensures DecodeString(EncodeToString(b)) == Some(b)
    decreases |b|
  {
    hide Cut, Glue;
    if |b| > 2 {
      Base64RoundTrip(b[3..]);
      GroupRoundTrip(b);
    } else if b != [] {
      PaddedRoundTrip(b);
    }
  }

  lemma Base64Injective(a: Bytes, b: Bytes)
    requires EncodeToString(a) == EncodeToString(b)
    ensures a == b
  {
    Base64RoundTrip(a);
    Base64RoundTrip(b);
  }

  // ---------- keys ----------

  // strings.Join(s, ":")
  function Join(parts: seq<Bytes>): Bytes {
    if |parts| == 0 then []
    else if |parts| == 1 then parts[0]
    else parts[0] + [COLON] + Join(parts[1..])
  }

  function GetDescriptorKey(parts: seq<Bytes>): string { EncodeToString(Join(parts)) }

  predicate ColonFree(b: Bytes) { COLON !in b }

  lemma JoinPair(g: Bytes, q: Bytes)
    ensures Join([g, q]) == g + [COLON] + q
  {
    assert [g, q][1..] == [q];
  }

  lemma JoinTriple(g: Bytes, q: Bytes, a: Bytes)
    ensures Join([g, q, a]) == g + [COLON] + q + [COLON] + a
  {
    assert [g, q, a][1..] == [q, a];
    JoinPair(q, a);
    assert g + [COLON] + (q + [COLON] + a) == g + [COLON] + q + [COLON] + a;
  }

  // The first colon tells where a colon-free head ends.
  lemma SplitAtColon(g: Bytes, q: Bytes, g': Bytes, q': Bytes)
    requires ColonFree(g) && ColonFree(g')
    requires g + [COLON] + q == g' + [COLON] + q'
    ensures g == g' && q == q'
  {
    var l, r := g + [COLON] + q, g' + [COLON] + q';
    assert forall k | 0 <= k < |g| :: l[k] == g[k];
    assert forall k | 0 <= k < |g'| :: r[k] == g'[k];
    assert l[|g|] == COLON && r[|g'|] == COLON;
    assert |g| == |g'|;
    assert g == l[..|g|] == r[..|g'|] == g';
    assert q == l[|g| + 1..] == r[|g'| + 1..] == q';
  }

  // A group/quota pair has a key of its own among all pairs exactly when
  // neither name contains a colon.
  ghost predicate OwnKey(g: Bytes, q: Bytes) {
    forall g': Bytes, q': Bytes ::
      GetDescriptorKey([g', q']) == GetDescriptorKey([g, q]) ==> g' == g && q' == q
  }

  lemma {:induction false} PairKeyUniqueIffColonFree(g: Bytes, q: Bytes)
    ensures OwnKey(g, q) <==> ColonFree(g) && ColonFree(q)
  {
    if ColonFree(g) && ColonFree(q) {
      forall g': Bytes, q': Bytes | GetDescriptorKey([g', q']) == GetDescriptorKey([g, q])
        ensures g' == g && q' == q
      {
        Base64Injective(Join([g', q']), Join([g, q]));
        JoinPair(g', q');
        JoinPair(g, q);
        OneColonSplit(g, q, g', q');
      }
    } else if !ColonFree(g) {
      var i :| 0 <= i < |g| && g[i] == COLON;
      var x, y := g[..i], g[i + 1..] + [COLON] + q;
      assert x + [COLON] + y == g + [COLON] + q;
      JoinPair(x, y);
      JoinPair(g, q);
      assert GetDescriptorKey([x, y]) == GetDescriptorKey([g, q]) && |x| < |g|;
    } else {
      var i :| 0 <= i < |q| && q[i] == COLON;
      var x, y := g + [COLON] + q[..i], q[i + 1..];
      assert x + [COLON] + y == g + [COLON] + q;
      JoinPair(x, y);
      JoinPair(g, q);
      assert GetDescriptorKey([x, y]) == GetDescriptorKey([g, q]) && |x| > |g|;
    }
  }

  lemma OneColonSplit(g: Bytes, q: Bytes, g': Bytes, q': Bytes)
    requires ColonFree(g) && ColonFree(q)
    requires g' + [COLON] + q' == g + [COLON] + q
    ensures g' == g && q' == q
  {
    var l, r := g + [COLON] + q, g' + [COLON] + q';
    assert forall k | 0 <= k < |g| :: l[k] == g[k];
    assert forall k | |g| < k < |l| :: l[k] == q[k - |g| - 1];
    assert r[|g'|] == COLON;
    assert |g| == |g'|;
    assert g == l[..|g|] == r[..|g'|] == g';
    assert q == l[|g| + 1..] == r[|g'| + 1..] == q';
  }
}
