/**
 * The percent-encoder and the canonical query string of src/common/storage/sigv4.ts.  A Dafny char is
 * a Unicode scalar value, so a string here is what `for (const ch of input)` iterates over.
 */
module SigV4 {
  import opened Wrappers
  import opened Sorting

  type Byte = n: int | 0 <= n < 256

  // ----- UTF-8 -----

  function Continuation(n: int): Byte {
    0x80 + n % 64
  }

  function Utf8(c: char): (bytes: seq<Byte>)
    ensures bytes != []
  {
    var n := c as int;
    var n1 := n / 64;
    var n2 := n1 / 64;
    if n < 0x80 then [n]
    else if n < 0x800 then [0xC0 + n1, Continuation(n)]
    else if n < 0x10000 then [0xE0 + n2, Continuation(n1), Continuation(n)]
    else [0xF0 + n2 / 64, Continuation(n2), Continuation(n1), Continuation(n)]
  }

  function Utf8All(s: string): seq<Byte> {
    if s == "" then [] else Utf8(s[0]) + Utf8All(s[1..])
  }

  /** How many bytes the character starting with this byte takes. */
  function Width(lead: Byte): nat {
    if lead < 0x80 then 1 else if lead < 0xE0 then 2 else if lead < 0xF0 then 3 else 4
  }

  /** The bits the continuation bytes carry, most significant first. */
  function Extend(high: int, tail: seq<Byte>): int
    decreases |tail|
  {
    if tail == [] then high
    else
      var low: int := tail[0];
      Extend(high * 64 + low - 0x80, tail[1..])
  }

  function Scalar(b: seq<Byte>): int
    requires b != []
  {
    var lead: int := b[0];
    var high: int :=
      if lead < 0x80 then lead else if lead < 0xE0 then lead - 0xC0
      else if lead < 0xF0 then lead - 0xE0 else lead - 0xF0;
    Extend(high, b[1..])
  }

  lemma ExtendStep(n: int, tail: seq<Byte>)
    ensures Extend(n / 64, [Continuation(n)] + tail) == Extend(n, tail)
  {
    assert ([Continuation(n)] + tail)[1..] == tail;
  }

  lemma ScalarOfUtf8(c: char)
    ensures |Utf8(c)| == Width(Utf8(c)[0]) && Scalar(Utf8(c)) == c as int
  {
    var n := c as int;
    var n1 := n / 64;
    var n2 := n1 / 64;
    if 0x80 <= n < 0x800 {
      ExtendStep(n, []);
      assert Utf8(c)[1..] == [Continuation(n)] + [];
    } else if 0x800 <= n < 0x10000 {
      ExtendStep(n1, [Continuation(n)]);
      ExtendStep(n, []);
      assert Utf8(c)[1..] == [Continuation(n1)] + [Continuation(n)];
    } else if n >= 0x10000 {
      ExtendStep(n2, [Continuation(n1), Continuation(n)]);
      ExtendStep(n1, [Continuation(n)]);
      ExtendStep(n, []);
      assert Utf8(c)[1..] == [Continuation(n2)] + [Continuation(n1), Continuation(n)];
    }
  }

  lemma SomeBytes(s: string)
    ensures |Utf8All(s)| == 0 <==> s == ""
  {
  }

  lemma {:induction false} Utf8Injective(s: string, t: string)
    requires Utf8All(s) == Utf8All(t)
    ensures s == t
  {
    SomeBytes(s);
    SomeBytes(t);
    if s != "" {
      var b := Utf8All(s);
      ScalarOfUtf8(s[0]);
      ScalarOfUtf8(t[0]);
      var w := Width(b[0]);
      assert b[0] == Utf8(s[0])[0] == Utf8(t[0])[0];
      assert b[..w] == Utf8(s[0]) == Utf8(t[0]);
      assert b[w..] == Utf8All(s[1..]) == Utf8All(t[1..]);
      Utf8Injective(s[1..], t[1..]);
      assert s == [s[0]] + s[1..] && t == [t[0]] + t[1..];
    }
  }

  // ----- the encoder -----

  predicate Unreserved(c: char) {
    'A' <= c <= 'Z' || 'a' <= c <= 'z' || '0' <= c <= '9' || c == '-' || c == '_' || c == '.' || c == '~'
  }

  function HexDigit(n: int): char
    requires 0 <= n < 16
  {
    "0123456789ABCDEF"[n]
  }

  /** `'%' + byte.toString(16).toUpperCase().padStart(2, '0')` */
  function PercentByte(b: Byte): string {
    ['%', HexDigit(b / 16), HexDigit(b % 16)]
  }

  function PercentBytes(bytes: seq<Byte>): string {
    if bytes == [] then "" else PercentByte(bytes[0]) + PercentBytes(bytes[1..])
  }

  function EncodeChar(c: char, encodeSlash: bool): string {
    if Unreserved(c) || (c == '/' && !encodeSlash) then [c] else PercentBytes(Utf8(c))
  }

  function Encode(s: string, encodeSlash: bool): string {
    if s == "" then "" else EncodeChar(s[0], encodeSlash) + Encode(s[1..], encodeSlash)
  }

  /** What the first n characters, and the first m bytes, have contributed. */
  function EncodeTo(s: string, encodeSlash: bool, n: nat): string
    requires n <= |s|
  {
    if n == 0 then "" else EncodeTo(s, encodeSlash, n - 1) + EncodeChar(s[n - 1], encodeSlash)
  }

  function PercentTo(bytes: seq<Byte>, m: nat): string
    requires m <= |bytes|
  {
    if m == 0 then "" else PercentTo(bytes, m - 1) + PercentByte(bytes[m - 1])
  }

  lemma {:induction false} PercentToAll(bytes: seq<Byte>, m: nat)
    requires m <= |bytes|
    ensures PercentTo(bytes, m) + PercentBytes(bytes[m..]) == PercentBytes(bytes)
  {
    if m == 0 {
      assert bytes[m..] == bytes;
    } else {
      PercentToAll(bytes, m - 1);
      assert bytes[m - 1..][1..] == bytes[m..];
    }
  }

  lemma {:induction false} EncodeToAll(s: string, encodeSlash: bool, n: nat)
    requires n <= |s|
    ensures EncodeTo(s, encodeSlash, n) + Encode(s[n..], encodeSlash) == Encode(s, encodeSlash)
  {
    if n == 0 {
      assert s[n..] == s;
    } else {
      EncodeToAll(s, encodeSlash, n - 1);
      assert s[n - 1..][1..] == s[n..];
    }
  }

  lemma PercentToWhole(bytes: seq<Byte>)
    ensures PercentTo(bytes, |bytes|) == PercentBytes(bytes)
  {
    PercentToAll(bytes, |bytes|);
    assert bytes[|bytes|..] == [];
  }

  lemma EncodeToWhole(s: string, encodeSlash: bool)
    ensures EncodeTo(s, encodeSlash, |s|) == Encode(s, encodeSlash)
  {
    EncodeToAll(s, encodeSlash, |s|);
    assert s[|s|..] == "";
  }

  /** `uriEncode`: the nested loops that build the result. */
  method UriEncode(input: string, encodeSlash: bool) returns (result: string)
    ensures result == Encode(input, encodeSlash)
  {
    result := "";
    for i := 0 to |input|
      invariant result == EncodeTo(input, encodeSlash, i)
    {
      var ch := input[i];
      if Unreserved(ch) {
        result := result + [ch];
      } else if ch == '/' && !encodeSlash {
        result := result + [ch];
      } else {
        ghost var before := result;
        var bytes := Utf8(ch);
        for j := 0 to |bytes|
          invariant result == before + PercentTo(bytes, j)
        {
          result := result + PercentByte(bytes[j]);
          assert before + PercentTo(bytes, j) + PercentByte(bytes[j]) == before + PercentTo(bytes, j + 1);
        }
        PercentToWhole(bytes);
      }
    }
    EncodeToWhole(input, encodeSlash);
  }

  // ----- the decoder (sections 2.1 and 2.3 of RFC 3986) -----

  function HexValue(c: char): Option<int> {
    if '0' <= c <= '9' then Some(c as int - '0' as int)
    else if 'A' <= c <= 'F' then Some(c as int - 'A' as int + 10)
    else None
  }

  function Decode(s: string): Option<seq<Byte>> {
    if s == "" then Some([])
    else if s[0] == '%' then
      if |s| < 3 || HexValue(s[1]).None? || HexValue(s[2]).None? then None
      else
        var b: Byte := HexValue(s[1]).value * 16 + HexValue(s[2]).value;
        match Decode(s[3..])
        case None => None
        case Some(rest) => Some([b] + rest)
    else if s[0] as int >= 0x80 then None
    else
      match Decode(s[1..])
      case None => None
      case Some(rest) => Some([s[0] as int] + rest)
  }

  lemma HexRoundTrip(n: int)
    requires 0 <= n < 16
    ensures HexValue(HexDigit(n)) == Some(n)
  {
  }

  lemma DecodeByte(b: Byte, rest: string, decoded: seq<Byte>)
    requires Decode(rest) == Some(decoded)
    ensures Decode(PercentByte(b) + rest) == Some([b] + decoded)
  {
    var s := PercentByte(b) + rest;
    HexRoundTrip(b / 16);
    HexRoundTrip(b % 16);
    assert s[0] == '%' && s[1] == HexDigit(b / 16) && s[2] == HexDigit(b % 16) && s[3..] == rest;
  }

  lemma PercentFirst(bytes: seq<Byte>, tail: string)
    requires bytes != []
    ensures PercentBytes(bytes) + tail == PercentByte(bytes[0]) + (PercentBytes(bytes[1..]) + tail)
  {
    var front, back := PercentByte(bytes[0]), PercentBytes(bytes[1..]);
    assert (front + back) + tail == front + (back + tail);
  }

  lemma ByteFirst(bytes: seq<Byte>, tail: seq<Byte>)
    requires bytes != []
    ensures bytes + tail == [bytes[0]] + (bytes[1..] + tail)
  {
  }

  lemma {:induction false} DecodeBytes(bytes: seq<Byte>, tail: string, decoded: seq<Byte>)
    requires Decode(tail) == Some(decoded)
    ensures Decode(PercentBytes(bytes) + tail) == Some(bytes + decoded)
  {
    if bytes == [] {
      assert PercentBytes(bytes) + tail == tail;
      assert bytes + decoded == decoded;
    } else {
      DecodeBytes(bytes[1..], tail, decoded);
      DecodeByte(bytes[0], PercentBytes(bytes[1..]) + tail, bytes[1..] + decoded);
      PercentFirst(bytes, tail);
      ByteFirst(bytes, decoded);
    }
  }

  /** Percent-decoding what was encoded yields exactly the UTF-8 bytes of the input. */
  lemma {:induction false} DecodeEncode(s: string, encodeSlash: bool)
    ensures Decode(Encode(s, encodeSlash)) == Some(Utf8All(s))
  {
    if s != "" {
      var rest := Encode(s[1..], encodeSlash);
      DecodeEncode(s[1..], encodeSlash);
      if Unreserved(s[0]) || (s[0] == '/' && !encodeSlash) {
        assert (EncodeChar(s[0], encodeSlash) + rest)[1..] == rest;
        assert Utf8(s[0]) == [s[0] as int];
      } else {
        DecodeBytes(Utf8(s[0]), rest, Utf8All(s[1..]));
      }
    }
  }

  /** What is not encoded: letters, digits and four signs of ASCII, and the slash unless it is to be encoded. */
  predicate Kept(c: char, encodeSlash: bool) {
    || (c in "ABCDEFGHIJKLMNOPQRSTUVWXYZ" || c in "abcdefghijklmnopqrstuvwxyz" || c in "0123456789" || c in "-_.~")
    || (c == '/' && !encodeSlash)
  }

  lemma KeptIs(c: char, encodeSlash: bool)
    ensures Kept(c, encodeSlash) <==> Unreserved(c) || (c == '/' && !encodeSlash)
  {
    InAlphabet('A', "ABCDEFGHIJKLMNOPQRSTUVWXYZ", c);
    InAlphabet('a', "abcdefghijklmnopqrstuvwxyz", c);
    InAlphabet('0', "0123456789", c);
  }

  /** A run of consecutive characters from `first` has exactly the characters of that range. */
  lemma InAlphabet(first: char, letters: string, c: char)
    requires forall i | 0 <= i < |letters| :: letters[i] as int == first as int + i
    ensures c in letters <==> first as int <= c as int < first as int + |letters|
  {
    if first as int <= c as int < first as int + |letters| {
      assert letters[c as int - first as int] == c;
    }
  }

  lemma {:induction false} PercentBytesLength(bytes: seq<Byte>)
    ensures |PercentBytes(bytes)| == 3 * |bytes|
  {
    if bytes != [] { PercentBytesLength(bytes[1..]); }
  }

  /** A text is left as it is exactly when all its characters are kept; every other character grows. */
  lemma {:induction false} KeptAsItIs(s: string, encodeSlash: bool)
    ensures |Encode(s, encodeSlash)| >= |s|
    ensures Encode(s, encodeSlash) == s <==> forall i | 0 <= i < |s| :: Kept(s[i], encodeSlash)
  {
    if s != "" {
      KeptAsItIs(s[1..], encodeSlash);
      KeptIs(s[0], encodeSlash);
      assert s == [s[0]] + s[1..];
      if Kept(s[0], encodeSlash) {
        assert Encode(s, encodeSlash)[1..] == Encode(s[1..], encodeSlash);
      } else {
        PercentBytesLength(Utf8(s[0]));
      }
    }
  }

  /** Hence no two strings encode alike. */
  lemma EncodeInjective(s: string, t: string, encodeSlash: bool)
    requires Encode(s, encodeSlash) == Encode(t, encodeSlash)
    ensures s == t
  {
    DecodeEncode(s, encodeSlash);
    DecodeEncode(t, encodeSlash);
    Utf8Injective(s, t);
  }

  /** With `encodeSlash`, only unreserved characters and percent signs come out. */
  predicate Safe(s: string) {
    forall i | 0 <= i < |s| :: Unreserved(s[i]) || s[i] == '%'
  }

  lemma SafeAppend(a: string, b: string)
    requires Safe(a) && Safe(b)
    ensures Safe(a + b)
  {
  }

  lemma {:induction false} PercentBytesSafe(bytes: seq<Byte>)
    ensures Safe(PercentBytes(bytes))
  {
    if bytes != [] {
      PercentBytesSafe(bytes[1..]);
      SafeAppend(PercentByte(bytes[0]), PercentBytes(bytes[1..]));
    }
  }

  lemma {:induction false} EncodeSafe(s: string)
    ensures Safe(Encode(s, true))
  {
    if s != "" {
      EncodeSafe(s[1..]);
      PercentBytesSafe(Utf8(s[0]));
    }
  }

  // ----- the canonical query string -----

  type Pair = (string, string)

  /** JavaScript's `<` on strings of ASCII characters. */
  predicate Before(a: string, b: string) {
    if b == "" then false
    else if a == "" then true
    else a[0] < b[0] || (a[0] == b[0] && Before(a[1..], b[1..]))
  }

  /** The strings agree up to position k, where the first one ends or has the smaller character. */
  predicate DiffersAt(a: string, b: string, k: nat) {
    k <= |a| && k < |b| && a[..k] == b[..k] && (k == |a| || a[k] < b[k])
  }

  lemma {:induction false} BeforeIff(a: string, b: string)
    ensures Before(a, b) <==> exists k: nat :: DiffersAt(a, b, k)
  {
    if a != "" && b != "" && a[0] == b[0] {
      BeforeIff(a[1..], b[1..]);
      if Before(a, b) {
        var k: nat :| DiffersAt(a[1..], b[1..], k);
        assert a[..k + 1] == [a[0]] + a[1..][..k] && b[..k + 1] == [b[0]] + b[1..][..k];
        assert DiffersAt(a, b, k + 1);
      }
      if k: nat :| DiffersAt(a, b, k) {
        assert a[1..][..k - 1] == a[..k][1..] && b[1..][..k - 1] == b[..k][1..];
        assert DiffersAt(a[1..], b[1..], k - 1);
      }
    } else if Before(a, b) {
      assert DiffersAt(a, b, 0);
    } else {
      assert forall k: nat | 0 < k <= |a| && k < |b| :: a[..k][0] == a[0] && b[..k][0] == b[0];
    }
  }

  lemma {:induction false} BeforeIrreflexive(a: string)
    ensures !Before(a, a)
  {
    if a != "" { BeforeIrreflexive(a[1..]); }
  }

  lemma {:induction false} BeforeTransitive(a: string, b: string, c: string)
    ensures Before(a, b) && Before(b, c) ==> Before(a, c)
  {
    if a != "" && b != "" && c != "" { BeforeTransitive(a[1..], b[1..], c[1..]); }
  }

  lemma {:induction false} BeforeTotal(a: string, b: string)
    ensures a == b || Before(a, b) || Before(b, a)
  {
    if a != "" && b != "" {
      BeforeTotal(a[1..], b[1..]);
      assert a == [a[0]] + a[1..] && b == [b[0]] + b[1..];
    }
  }

  function EncodePairs(params: seq<Pair>): seq<Pair> {
    seq(|params|, i requires 0 <= i < |params| => (Encode(params[i].0, true), Encode(params[i].1, true)))
  }

  function KeyBefore(): (Pair, Pair) -> bool {
    (a: Pair, b: Pair) => Before(a.0, b.0)
  }

  lemma KeyBeforeIsWeakOrder()
    ensures WeakOrder(KeyBefore())
  {
    forall x: Pair ensures !KeyBefore()(x, x) { BeforeIrreflexive(x.0); }
    forall x: Pair, y: Pair, z: Pair ensures KeyBefore()(x, y) && KeyBefore()(y, z) ==> KeyBefore()(x, z) {
      BeforeTransitive(x.0, y.0, z.0);
    }
    forall x: Pair, y: Pair, z: Pair | !KeyBefore()(y, x) && !KeyBefore()(z, y) ensures !KeyBefore()(z, x) {
      BeforeTotal(x.0, y.0);
      BeforeTotal(y.0, z.0);
      BeforeTransitive(z.0, x.0, y.0);
    }
  }

  function SortedPairs(params: seq<Pair>): seq<Pair> {
    Sort(KeyBefore(), EncodePairs(params))
  }

  function PrintPair(p: Pair): string {
    p.0 + "=" + p.1
  }

  function PrintPairs(pairs: seq<Pair>): string {
    if pairs == [] then ""
    else if |pairs| == 1 then PrintPair(pairs[0])
    else PrintPair(pairs[0]) + ("&" + PrintPairs(pairs[1..]))
  }

  function CanonicalQueryString(params: seq<Pair>): string {
    PrintPairs(SortedPairs(params))
  }

  /** The text before the first occurrence of a separator, and the text after it if there is one. */
  function Cut(s: string, sep: char): (string, Option<string>) {
    if s == "" then ("", None)
    else if s[0] == sep then ("", Some(s[1..]))
    else var r := Cut(s[1..], sep); ([s[0]] + r.0, r.1)
  }

  lemma {:induction false} CutShrinks(s: string, sep: char)
    ensures Cut(s, sep).1.Some? ==> |Cut(s, sep).1.value| < |s|
  {
    if s != "" && s[0] != sep { CutShrinks(s[1..], sep); }
  }

  /** Splitting at every '&', and each piece at its first '='. */
  function SplitQuery(s: string): Option<seq<Pair>>
    decreases |s|
  {
    var piece := Cut(s, '&');
    var pair := Cut(piece.0, '=');
    if pair.1.None? then None
    else if piece.1.None? then Some([(pair.0, pair.1.value)])
    else
      CutShrinks(s, '&');
      match SplitQuery(piece.1.value)
      case None => None
      case Some(rest) => Some([(pair.0, pair.1.value)] + rest)
  }

  predicate Without(s: string, sep: char) {
    forall i | 0 <= i < |s| :: s[i] != sep
  }

  lemma {:induction false} CutFinds(a: string, sep: char, b: string)
    requires Without(a, sep)
    ensures Cut(a + ([sep] + b), sep) == (a, Some(b))
  {
    var s := a + ([sep] + b);
    if a == "" {
      assert s == [sep] + b;
      assert s[1..] == b;
    } else {
      assert s[1..] == a[1..] + ([sep] + b);
      CutFinds(a[1..], sep, b);
      assert a == [a[0]] + a[1..];
    }
  }

  lemma {:induction false} CutMisses(a: string, sep: char)
    requires Without(a, sep)
    ensures Cut(a, sep) == (a, None)
  {
    if a != "" {
      CutMisses(a[1..], sep);
      assert a == [a[0]] + a[1..];
    }
  }

  predicate SafePair(p: Pair) {
    Safe(p.0) && Safe(p.1)
  }

  lemma SplitPair(p: Pair)
    requires SafePair(p)
    ensures Cut(PrintPair(p), '=') == (p.0, Some(p.1)) && Without(PrintPair(p), '&')
  {
    CutFinds(p.0, '=', p.1);
    assert PrintPair(p) == p.0 + (['='] + p.1);
  }

  lemma {:induction false} SplitPrinted(pairs: seq<Pair>)
    requires pairs != [] && forall i | 0 <= i < |pairs| :: SafePair(pairs[i])
    ensures SplitQuery(PrintPairs(pairs)) == Some(pairs)
  {
    SplitPair(pairs[0]);
    if |pairs| == 1 {
      CutMisses(PrintPair(pairs[0]), '&');
      assert pairs == [pairs[0]];
    } else {
      var rest := PrintPairs(pairs[1..]);
      CutFinds(PrintPair(pairs[0]), '&', rest);
      assert "&" + rest == ['&'] + rest;
      SplitPrinted(pairs[1..]);
      assert pairs == [pairs[0]] + pairs[1..];
    }
  }

  /** A pair that percent-decodes to the UTF-8 bytes of the key and of the value, in this order. */
  predicate Spells(encoded: Pair, p: Pair) {
    Decode(encoded.0) == Some(Utf8All(p.0)) && Decode(encoded.1) == Some(Utf8All(p.1))
  }

  lemma PairsSpell(params: seq<Pair>)
    ensures |EncodePairs(params)| == |params|
    ensures forall i | 0 <= i < |params| :: Spells(EncodePairs(params)[i], params[i])
  {
    forall i | 0 <= i < |params| ensures Spells(EncodePairs(params)[i], params[i]) {
      DecodeEncode(params[i].0, true);
      DecodeEncode(params[i].1, true);
    }
  }

  /**
   * Splitting the canonical query string recovers the encoded pairs, all of them, in key order; each of
   * them spells the key and the value it comes from.
   */
  lemma QueryRoundTrip(params: seq<Pair>)
    requires params != []
    ensures |EncodePairs(params)| == |params|
    ensures forall i | 0 <= i < |params| :: Spells(EncodePairs(params)[i], params[i])
    ensures SplitQuery(CanonicalQueryString(params)) == Some(SortedPairs(params))
    ensures Sorted(KeyBefore(), SortedPairs(params)) && multiset(SortedPairs(params)) == multiset(EncodePairs(params))
  {
    PairsSpell(params);
    hide Spells;
    KeyBeforeIsWeakOrder();
    SortSorts(KeyBefore(), EncodePairs(params));
    var sorted := SortedPairs(params);
    forall i | 0 <= i < |sorted| ensures SafePair(sorted[i]) {
      assert sorted[i] in multiset(sorted);
      var j :| 0 <= j < |params| && sorted[i] == EncodePairs(params)[j];
      EncodeSafe(params[j].0);
      EncodeSafe(params[j].1);
    }
    assert sorted != [] by { assert EncodePairs(params)[0] in multiset(sorted); }
    SplitPrinted(sorted);
  }

  /** Encoding loses nothing: two lists encode to the same pairs exactly when they hold the same pairs. */
  lemma {:induction false} EncodePairsReflects(p: seq<Pair>, q: seq<Pair>)
    ensures multiset(EncodePairs(p)) == multiset(EncodePairs(q)) <==> multiset(p) == multiset(q)
  {
    if p == [] {
      if q != [] {
        assert q[0] in multiset(q);
        assert EncodePairs(q)[0] in multiset(EncodePairs(q));
      }
    } else if exists j | 0 <= j < |q| :: q[j] == p[0] {
      var j :| 0 <= j < |q| && q[j] == p[0];
      EncodePairsReflects(p[1..], q[..j] + q[j + 1..]);
      CancelOne(p, q, j);
      RemoveBoth(p, q, j);
    } else {
      OnlyInFirst(p, q);
    }
  }

  lemma EncodeWithout(p: seq<Pair>, i: nat)
    requires i < |p|
    ensures EncodePairs(p[..i] + p[i + 1..]) == EncodePairs(p)[..i] + EncodePairs(p)[i + 1..]
    ensures i == 0 ==> EncodePairs(p[1..]) == EncodePairs(p)[1..]
  {
  }

  lemma RemoveBoth(p: seq<Pair>, q: seq<Pair>, j: nat)
    requires p != [] && j < |q| && q[j] == p[0]
    ensures multiset(EncodePairs(p[1..])) == multiset(EncodePairs(q[..j] + q[j + 1..]))
            <==> multiset(EncodePairs(p)) == multiset(EncodePairs(q))
  {
    EncodeWithout(p, 0);
    EncodeWithout(q, j);
    CancelOne(EncodePairs(p), EncodePairs(q), j);
  }

  lemma OnlyInFirst(p: seq<Pair>, q: seq<Pair>)
    requires p != [] && p[0] !in q
    ensures multiset(p) != multiset(q) && multiset(EncodePairs(p)) != multiset(EncodePairs(q))
  {
    assert p[0] in multiset(p) && p[0] !in multiset(q);
    var e := EncodePairs(p)[0];
    assert e in multiset(EncodePairs(p));
    if e in multiset(EncodePairs(q)) {
      var j :| 0 <= j < |q| && EncodePairs(q)[j] == e;
      EncodeInjective(p[0].0, q[j].0, true);
      EncodeInjective(p[0].1, q[j].1, true);
      assert false;
    }
  }

  /** Equal canonical query strings come from the same parameters, in whatever order. */
  lemma QueryDeterminesParams(params: seq<Pair>, other: seq<Pair>)
    requires CanonicalQueryString(params) == CanonicalQueryString(other)
    ensures multiset(params) == multiset(other)
  {
    if params != [] { QueryRoundTrip(params); }
    if other != [] { QueryRoundTrip(other); }
    EncodePairsReflects(params, other);
  }

  predicate KeysDecideValues(params: seq<Pair>) {
    forall i, j | 0 <= i < |params| && 0 <= j < |params| && params[i].0 == params[j].0 :: params[i].1 == params[j].1
  }

  /** Unless one key has two values, the string is a function of the parameters and not of their order. */
  lemma QueryIgnoresOrder(params: seq<Pair>, other: seq<Pair>)
    requires KeysDecideValues(params)
    ensures CanonicalQueryString(params) == CanonicalQueryString(other) <==> multiset(params) == multiset(other)
  {
    if multiset(params) == multiset(other) {
      EncodePairsReflects(params, other);
      KeyBeforeIsWeakOrder();
      SortSorts(KeyBefore(), EncodePairs(params));
      SortSorts(KeyBefore(), EncodePairs(other));
      KeysSeparate(params);
      hide Sort, EncodePairs, Sorted, Separates, WeakOrder, KeysDecideValues;
      SortedUnique(KeyBefore(), SortedPairs(params), SortedPairs(other));
    } else if CanonicalQueryString(params) == CanonicalQueryString(other) {
      QueryDeterminesParams(params, other);
    }
  }

  lemma KeysSeparate(params: seq<Pair>)
    requires KeysDecideValues(params)
    requires multiset(SortedPairs(params)) == multiset(EncodePairs(params))
    ensures Separates(KeyBefore(), SortedPairs(params))
  {
    var a := SortedPairs(params);
    forall i, j | 0 <= i < |a| && 0 <= j < |a|
      ensures a[i] == a[j] || KeyBefore()(a[i], a[j]) || KeyBefore()(a[j], a[i])
    {
      assert a[i] in multiset(a) && a[j] in multiset(a);
      SeparatedByKey(params, a[i], a[j]);
    }
  }

  lemma SeparatedByKey(params: seq<Pair>, p: Pair, q: Pair)
    requires KeysDecideValues(params) && p in multiset(EncodePairs(params)) && q in multiset(EncodePairs(params))
    ensures p == q || Before(p.0, q.0) || Before(q.0, p.0)
  {
    var i :| 0 <= i < |params| && p == EncodePairs(params)[i];
    var j :| 0 <= j < |params| && q == EncodePairs(params)[j];
    BeforeTotal(p.0, q.0);
    if p.0 == q.0 { EncodeInjective(params[i].0, params[j].0, true); }
  }

  // ----- when the order does matter -----

  function FirstWith(s: seq<Pair>, key: string): Option<Pair> {
    if s == [] then None else if s[0].0 == key then Some(s[0]) else FirstWith(s[1..], key)
  }

  lemma {:induction false} InsertFirst(x: Pair, s: seq<Pair>, key: string)
    ensures FirstWith(Insert(KeyBefore(), x, s), key) == if x.0 == key then Some(x) else FirstWith(s, key)
  {
    if s != [] && KeyBefore()(s[0], x) {
      InsertFirst(x, s[1..], key);
      BeforeIrreflexive(x.0);
    }
  }

  /** The sort is stable: of the pairs with one key, the first stays first. */
  lemma {:induction false} SortFirst(s: seq<Pair>, key: string)
    ensures FirstWith(Sort(KeyBefore(), s), key) == FirstWith(s, key)
  {
    if s != [] {
      SortFirst(s[1..], key);
      InsertFirst(s[0], Sort(KeyBefore(), s[1..]), key);
    }
  }

  lemma {:induction false} FirstAt(s: seq<Pair>, k: nat, key: string)
    requires k < |s| && s[k].0 == key && forall l | 0 <= l < k :: s[l].0 != key
    ensures FirstWith(s, key) == Some(s[k])
  {
    if k > 0 { FirstAt(s[1..], k - 1, key); }
  }

  lemma {:induction false} FirstIndex(s: seq<Pair>, i: nat, key: string) returns (k: nat)
    requires i < |s| && s[i].0 == key
    ensures k < |s| && s[k].0 == key && forall l | 0 <= l < k :: s[l].0 != key
  {
    if s[0].0 == key {
      k := 0;
    } else {
      k := FirstIndex(s[1..], i - 1, key);
      k := k + 1;
    }
  }

  /** The canonical string tells which value of a repeated key came first. */
  lemma FirstShows(params: seq<Pair>, k: nat)
    requires k < |params| && forall l | 0 <= l < k :: params[l].0 != params[k].0
    ensures FirstWith(SortedPairs(params), Encode(params[k].0, true)) == Some(EncodePairs(params)[k])
  {
    var key := Encode(params[k].0, true);
    forall l | 0 <= l < k ensures EncodePairs(params)[l].0 != key {
      if EncodePairs(params)[l].0 == key { EncodeInjective(params[l].0, params[k].0, true); }
    }
    FirstAt(EncodePairs(params), k, key);
    SortFirst(EncodePairs(params), key);
  }

  /** Two values under one key: the parameters can be rearranged into a different canonical string. */
  lemma OrderMatters(params: seq<Pair>) returns (other: seq<Pair>)
    requires !KeysDecideValues(params)
    ensures multiset(other) == multiset(params) && CanonicalQueryString(other) != CanonicalQueryString(params)
  {
    var i, j :| 0 <= i < |params| && 0 <= j < |params| && params[i].0 == params[j].0 && params[i].1 != params[j].1;
    var k := FirstIndex(params, i, params[i].0);
    var m := if params[i].1 != params[k].1 then i else j;
    other := params[k := params[m]][m := params[k]];
    DifferentFirst(params, other, k);
  }

  lemma DifferentFirst(params: seq<Pair>, other: seq<Pair>, k: nat)
    requires k < |params| == |other| && params[k].0 == other[k].0 && params[k].1 != other[k].1
    requires forall l | 0 <= l < k :: params[l].0 != params[k].0 && other[l].0 != params[k].0
    ensures CanonicalQueryString(other) != CanonicalQueryString(params)
  {
    FirstShows(params, k);
    FirstShows(other, k);
    if CanonicalQueryString(other) == CanonicalQueryString(params) {
      SameSorted(params, other);
      EncodeInjective(params[k].1, other[k].1, true);
      assert false;
    }
  }

  lemma SameSorted(params: seq<Pair>, other: seq<Pair>)
    requires params != [] && other != [] && CanonicalQueryString(other) == CanonicalQueryString(params)
    ensures SortedPairs(params) == SortedPairs(other)
  {
    QueryRoundTrip(params);
    QueryRoundTrip(other);
  }

  /** Exactly when the canonical string does not depend on the order of the parameters. */
  lemma OrderIsIrrelevantIff(params: seq<Pair>)
    ensures (forall other | multiset(other) == multiset(params) ::
               CanonicalQueryString(other) == CanonicalQueryString(params))
            <==> KeysDecideValues(params)
  {
    if KeysDecideValues(params) {
      forall other | multiset(other) == multiset(params)
        ensures CanonicalQueryString(other) == CanonicalQueryString(params)
      {
        QueryIgnoresOrder(params, other);
      }
    } else {
      var other := OrderMatters(params);
    }
  }

  /** The smallest such parameters: one key with two values. */
  lemma RepeatedKey()
    ensures var params := [("a", "1"), ("a", "2")];
            !KeysDecideValues(params)
            && exists other ::
                 multiset(other) == multiset(params) && CanonicalQueryString(other) != CanonicalQueryString(params)
  {
    var params := [("a", "1"), ("a", "2")];
    assert params[0].0 == params[1].0 && params[0].1 != params[1].1;
    var other := OrderMatters(params);
  }
}
