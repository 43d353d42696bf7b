/**
 The Base64 codec that turns a parcel into text and back.

 The two methods keep the shape of the code: three- and four-byte working buffers, bit
 masks, a running counter and an output that is appended to. Each is proved equal to a
 function on values, and the round trips are proved about those functions.
 */
module Base64 {

  const UPPER: string := "ABCDEFGHIJKLMNOPQRSTUVWXYZ"
  const LOWER: string := "abcdefghijklmnopqrstuvwxyz"
  const REST: string := "0123456789+/"
  const BASE_64_CHARS: string := UPPER + LOWER + REST
  const INT_MAX: nat := 0x7fff_ffff
  const UINT_MAX: nat := 0xffff_ffff

  // ---------------------------------------------------------------- alphabet

  /** The letters, digits and two signs of the alphabet, by character class. */
  predicate IsBase64(c: char) {
    'A' <= c <= 'Z' || 'a' <= c <= 'z' || '0' <= c <= '9' || c == '+' || c == '/'
  }

  /** The character written for a six-bit value. */
  function Symbol(v: bv8): char
    requires v < 64
  {
    BASE_64_CHARS[v as int]
  }

  function FindFrom(c: char, from: nat): bv8
    requires from <= 64
    decreases 64 - from
  {
    if from == 64 then 0xff
    else if BASE_64_CHARS[from] == c then from as bv8
    else FindFrom(c, from + 1)
  }

  /** The position of a character in the alphabet, cut to eight bits: a character that is
      not there gives "not found", whose low eight bits are 0xff. */
  function Find(c: char): bv8 {
    FindFrom(c, 0)
  }

  function AlphabetCode(i: nat): nat
    requires i < 64
  {
    if i < 26 then 0x41 + i
    else if i < 52 then 0x61 + (i - 26)
    else if i < 62 then 0x30 + (i - 52)
    else if i == 62 then 0x2b else 0x2f
  }

  lemma UpperCodes(i: nat)
    requires i < 26
    ensures UPPER[i] as int == 0x41 + i
  {
  }

  lemma LowerCodes(i: nat)
    requires i < 26
    ensures LOWER[i] as int == 0x61 + i
  {
  }

  lemma RestCodes(i: nat)
    requires i < 12
    ensures REST[i] as int == AlphabetCode(52 + i)
  {
  }

  lemma AlphabetCodes(i: nat)
    requires i < 64
    ensures |UPPER| == 26 && |LOWER| == 26 && |BASE_64_CHARS| == 64
    ensures BASE_64_CHARS[i] as int == AlphabetCode(i)
  {
    if i < 26 {
      UpperCodes(i);
    } else if i < 52 {
      LowerCodes(i - 26);
    } else {
      RestCodes(i - 52);
    }
  }

  lemma {:induction false} FindsFirst(c: char, from: nat, i: nat)
    requires from <= i < 64 && c as int == AlphabetCode(i)
    ensures FindFrom(c, from) == i as bv8
    decreases i - from
  {
    AlphabetCodes(from);
    if from < i {
      FindsFirst(c, from + 1, i);
    }
  }

  lemma BvOfInt(i: nat)
    requires i < 64
    ensures (i as bv8) as int == i
  {
  }

  lemma IntOfBv(v: bv8) returns (i: nat)
    requires v < 64
    ensures i == v as int && i < 64 && i as bv8 == v
  {
    i := v as int;
  }

  lemma ClassOfCode(c: char, i: nat)
    requires i < 64 && c as int == AlphabetCode(i)
    ensures IsBase64(c)
  {
  }

  /** Looking up a written symbol gives back its value. */
  lemma FindOfSymbol(v: bv8)
    requires v < 64
    ensures IsBase64(Symbol(v)) && Find(Symbol(v)) == v
  {
    var i := IntOfBv(v);
    AlphabetCodes(i);
    ClassOfCode(BASE_64_CHARS[i], i);
    FindsFirst(BASE_64_CHARS[i], 0, i);
  }

  function IndexOf(c: char): (i: nat)
    requires IsBase64(c)
    ensures i < 64 && AlphabetCode(i) == c as int
  {
    if 'A' <= c <= 'Z' then c as int - 0x41
    else if 'a' <= c <= 'z' then c as int - 0x61 + 26
    else if '0' <= c <= '9' then c as int - 0x30 + 52
    else if c == '+' then 62 else 63
  }

  /** Every character that passes the class test is in the alphabet. */
  lemma SymbolOfFind(c: char)
    requires IsBase64(c)
    ensures Find(c) < 64 && Symbol(Find(c)) == c
  {
    var i := IndexOf(c);
    FindsFirst(c, 0, i);
    BvOfInt(i);
    AlphabetCodes(i);
  }

  // ------------------------------------------------------------ bit fiddling

  function E0(a: bv8): bv8 { (a & 0xfc) >> 2 }
  function E1(a: bv8, b: bv8): bv8 { ((a & 0x03) << 4) + ((b & 0xf0) >> 4) }
  function E2(b: bv8, c: bv8): bv8 { ((b & 0x0f) << 2) + ((c & 0xc0) >> 6) }
  function E3(c: bv8): bv8 { c & 0x3f }

  function D0(w: bv8, x: bv8): bv8 { (w << 2) + ((x & 0x30) >> 4) }
  function D1(x: bv8, y: bv8): bv8 { ((x & 0xf) << 4) + ((y & 0x3c) >> 2) }
  function D2(y: bv8, z: bv8): bv8 { ((y & 0x3) << 6) + z }

  function Four(a: bv8, b: bv8, c: bv8): (q: seq<bv8>)
    ensures |q| == 4 && AllSextets(q)
  {
    [E0(a), E1(a, b), E2(b, c), E3(c)]
  }

  function Three(w: bv8, x: bv8, y: bv8, z: bv8): seq<bv8> {
    [D0(w, x), D1(x, y), D2(y, z)]
  }

  /** The 24-bit group of three bytes, first byte first, as section 4 of RFC 4648 reads it. */
  function GroupOfBytes(a: bv8, b: bv8, c: bv8): bv24 {
    ((a as bv24) << 16) | ((b as bv24) << 8) | (c as bv24)
  }

  function GroupOfSextets(w: bv8, x: bv8, y: bv8, z: bv8): bv24 {
    ((w as bv24) << 18) | ((x as bv24) << 12) | ((y as bv24) << 6) | (z as bv24)
  }

  /** The masks and shifts of the encoder cut the group into its four six-bit pieces. */
  lemma EncoderCutsGroup(a: bv8, b: bv8, c: bv8)
    ensures GroupOfSextets(E0(a), E1(a, b), E2(b, c), E3(c)) == GroupOfBytes(a, b, c)
  {
  }

  predicate AllSextets(v: seq<bv8>) {
    forall i :: 0 <= i < |v| ==> v[i] < 64
  }

  lemma ThreeOfFour(a: bv8, b: bv8, c: bv8)
    ensures var q := Four(a, b, c); Three(q[0], q[1], q[2], q[3]) == [a, b, c]
  {
  }

  lemma FourOfThree(w: bv8, x: bv8, y: bv8, z: bv8)
    requires w < 64 && x < 64 && y < 64 && z < 64
    ensures var b := Three(w, x, y, z); Four(b[0], b[1], b[2]) == [w, x, y, z]
  {
  }

  lemma ShortGroupBits(w: bv8, x: bv8, y: bv8)
    requires w < 64 && x < 64 && y < 64
    ensures E0(D0(w, x)) == w && E1(D0(w, x), D1(x, y)) == x
    ensures E2(D1(x, y), 0) == y <==> y & 0x03 == 0
    ensures E1(D0(w, x), 0) == x <==> x & 0x0f == 0
  {
  }

  lemma FourOfTwo(w: bv8, x: bv8, y: bv8)
    requires w < 64 && x < 64 && y < 64
    ensures Sextets([D0(w, x), D1(x, y)]) == [w, x, y] <==> y & 0x03 == 0
  {
    ShortGroupBits(w, x, y);
    var b := [D0(w, x), D1(x, y)];
    assert Sextets(b) == [w, x, E2(b[1], 0)];
    assert Sextets(b)[2] == E2(b[1], 0);
  }

  lemma FourOfOne(w: bv8, x: bv8)
    requires w < 64 && x < 64
    ensures Sextets([D0(w, x)]) == [w, x] <==> x & 0x0f == 0
  {
    ShortGroupBits(w, x, 0);
    var b := [D0(w, x)];
    assert Sextets(b) == [w, E1(b[0], 0)];
    assert Sextets(b)[1] == E1(b[0], 0);
  }

  // -------------------------------------------------- bytes and six-bit values

  /** The six-bit values of a byte string. A short last group takes its missing bytes as
      zero and keeps one value more than it has bytes. */
  function Sextets(b: seq<bv8>): (v: seq<bv8>)
    ensures AllSextets(v)
  {
    if |b| == 0 then []
    else if |b| == 1 then Four(b[0], 0, 0)[..2]
    else if |b| == 2 then Four(b[0], b[1], 0)[..3]
    else Four(b[0], b[1], b[2]) + Sextets(b[3..])
  }

  /** The bytes of a run of six-bit values. A lone last value gives nothing. */
  function Bytes(v: seq<bv8>): seq<bv8> {
    if |v| <= 1 then []
    else if |v| == 2 then [D0(v[0], v[1])]
    else if |v| == 3 then [D0(v[0], v[1]), D1(v[1], v[2])]
    else Three(v[0], v[1], v[2], v[3]) + Bytes(v[4..])
  }

  lemma {:induction false} BytesOfSextets(b: seq<bv8>)
    ensures Bytes(Sextets(b)) == b
  {
    if |b| >= 3 {
      ThreeOfFour(b[0], b[1], b[2]);
      BytesOfSextets(b[3..]);
      assert Sextets(b)[4..] == Sextets(b[3..]);
      assert b == [b[0], b[1], b[2]] + b[3..];
    } else if |b| > 0 {
      var second := if |b| == 2 then b[1] else 0;
      ThreeOfFour(b[0], second, 0);
      assert b == if |b| == 2 then [b[0], b[1]] else [b[0]];
    }
  }

  /** No bit of the last group falls outside the bytes that the group makes. */
  predicate CleanTail(v: seq<bv8>) {
    if |v| >= 4 then CleanTail(v[4..])
    else if |v| == 3 then v[2] & 0x03 == 0
    else if |v| == 2 then v[1] & 0x0f == 0
    else |v| == 0
  }

  lemma SextetsCons(g: seq<bv8>, rest: seq<bv8>)
    requires |g| == 3
    ensures Sextets(g + rest) == Four(g[0], g[1], g[2]) + Sextets(rest)
  {
    assert (g + rest)[3..] == rest;
  }

  lemma FourOfGroup(v: seq<bv8>)
    requires AllSextets(v) && |v| >= 4
    ensures var g := Three(v[0], v[1], v[2], v[3]); Four(g[0], g[1], g[2]) == v[..4]
  {
    FourOfThree(v[0], v[1], v[2], v[3]);
  }

  lemma SextetsOfGroup(v: seq<bv8>)
    requires AllSextets(v) && |v| >= 4
    ensures Sextets(Bytes(v)) == v[..4] + Sextets(Bytes(v[4..]))
  {
    var g := Three(v[0], v[1], v[2], v[3]);
    SextetsCons(g, Bytes(v[4..]));
    FourOfGroup(v);
  }

  lemma {:induction false} SextetsOfBytes(v: seq<bv8>)
    requires AllSextets(v)
    ensures Sextets(Bytes(v)) == v <==> CleanTail(v)
  {
    if |v| >= 4 {
      SextetsOfBytes(v[4..]);
      SextetsOfGroup(v);
      assert v == v[..4] + v[4..];
      assert Sextets(Bytes(v))[4..] == Sextets(Bytes(v[4..]));
    } else if |v| == 3 {
      FourOfTwo(v[0], v[1], v[2]);
      assert v == [v[0], v[1], v[2]];
    } else if |v| == 2 {
      FourOfOne(v[0], v[1]);
      assert v == [v[0], v[1]];
    }
  }

  lemma {:induction false} SextetCount(b: seq<bv8>)
    ensures |Sextets(b)| == 4 * (|b| / 3) + (if |b| % 3 == 0 then 0 else |b| % 3 + 1)
  {
    if |b| >= 3 {
      SextetCount(b[3..]);
    }
  }

  lemma {:induction false} ByteCount(v: seq<bv8>)
    ensures |Bytes(v)| == 3 * (|v| / 4) + (if |v| % 4 == 0 then 0 else |v| % 4 - 1)
  {
    if |v| >= 4 {
      ByteCount(v[4..]);
    }
  }

  // ------------------------------------------------ six-bit values and symbols

  predicate InAlphabet(s: string) {
    forall i :: 0 <= i < |s| ==> IsBase64(s[i])
  }

  function Symbols(v: seq<bv8>): (s: string)
    requires AllSextets(v)
    ensures |s| == |v|
  {
    seq(|v|, i requires 0 <= i < |v| => Symbol(v[i]))
  }

  function Values(s: string): (v: seq<bv8>)
    requires InAlphabet(s)
    ensures |v| == |s|
  {
    seq(|s|, i requires 0 <= i < |s| => Find(s[i]))
  }

  lemma ValuesOfSymbols(v: seq<bv8>)
    requires AllSextets(v)
    ensures InAlphabet(Symbols(v)) && Values(Symbols(v)) == v
  {
    forall i | 0 <= i < |v|
      ensures IsBase64(Symbols(v)[i]) && Find(Symbols(v)[i]) == v[i]
    {
      FindOfSymbol(v[i]);
    }
  }

  lemma SymbolsOfValues(s: string)
    requires InAlphabet(s)
    ensures AllSextets(Values(s)) && Symbols(Values(s)) == s
  {
    forall i | 0 <= i < |s|
      ensures Values(s)[i] < 64 && Symbol(Values(s)[i]) == s[i]
    {
      SymbolOfFind(s[i]);
    }
  }

  // -------------------------------------------------------- the codec on values

  /** One pad for each byte missing from the last group of three. */
  function Pads(n: nat): (p: string)
    ensures forall i :: 0 <= i < |p| ==> p[i] == '='
  {
    if n % 3 == 1 then "==" else if n % 3 == 2 then "=" else ""
  }

  lemma DividedByFour(n: nat, q: nat, r: nat)
    requires r < 4 && n == 4 * q + r
    ensures n / 4 == q && n % 4 == r
  {
  }

  lemma DividedByThree(n: nat, q: nat, r: nat)
    requires r < 3 && n == 3 * q + r
    ensures n / 3 == q && n % 3 == r
  {
  }

  lemma PadsFillQuad(n: nat)
    ensures |Pads(n)| <= 2 && (4 * (n / 3) + (if n % 3 == 0 then 0 else n % 3 + 1) + |Pads(n)|) % 4 == 0
  {
    var q := n / 3;
    DividedByFour(4 * q, q, 0);
    DividedByFour(4 * q + 4, q + 1, 0);
  }

  lemma PadsComplete(q: nat, r: nat, p: nat)
    requires r < 4 && p <= 2 && (4 * q + r + p) % 4 == 0
    ensures if p == 0 then r == 0 else r == 4 - p
  {
  }

  lemma PadsOfLength(k: nat, p: nat)
    requires p <= 2 && (k + p) % 4 == 0
    ensures |Pads(3 * (k / 4) + (if k % 4 == 0 then 0 else k % 4 - 1))| == p
  {
    var q, r := k / 4, k % 4;
    assert k == 4 * q + r;
    PadsComplete(q, r, p);
    var n := if r == 0 then 3 * q else 3 * q + (r - 1);
    DividedByThree(n, q, if r == 0 then 0 else r - 1);
    assert n % 3 == if p == 0 then 0 else 3 - p;
  }

  function Encode(b: seq<bv8>): string {
    Symbols(Sextets(b)) + Pads(|b|)
  }

  /** How many leading characters belong to the alphabet. */
  function PrefixLen(s: string): (k: nat)
    ensures k <= |s| && InAlphabet(s[..k])
    ensures k < |s| ==> !IsBase64(s[k])
  {
    if s == [] || !IsBase64(s[0]) then 0 else 1 + PrefixLen(s[1..])
  }

  function Decode(s: string): seq<bv8> {
    Bytes(Values(s[..PrefixLen(s)]))
  }

  lemma {:induction false} PrefixLenIs(s: string, k: nat)
    requires k <= |s| && InAlphabet(s[..k]) && (k < |s| ==> !IsBase64(s[k]))
    ensures PrefixLen(s) == k
  {
    if k > 0 {
      assert s[..k][0] == s[0];
      assert s[1..][..k - 1] == s[..k][1..];
      PrefixLenIs(s[1..], k - 1);
    }
  }

  lemma EncodedPrefix(b: seq<bv8>)
    ensures var k := |Sextets(b)|;
      && k <= |Encode(b)| && PrefixLen(Encode(b)) == k
      && InAlphabet(Encode(b)[..k]) && Values(Encode(b)[..k]) == Sextets(b)
  {
    var t := Symbols(Sextets(b));
    ValuesOfSymbols(Sextets(b));
    assert Encode(b)[..|t|] == t;
    PrefixLenIs(Encode(b), |t|);
  }

  /** Decoding an encoding gives the bytes back, the empty string included. */
  lemma RoundTrip(b: seq<bv8>)
    ensures Decode(Encode(b)) == b
  {
    EncodedPrefix(b);
    BytesOfSextets(b);
  }

  /** On any text the result is that of the longest alphabet prefix, whatever follows it,
      and its length is fixed by the length of that prefix alone. */
  lemma DecodeReadsPrefix(s: string, t: string)
    requires s[..PrefixLen(s)] == t[..PrefixLen(t)]
    ensures Decode(s) == Decode(t)
    ensures var k := PrefixLen(s); |Decode(s)| == 3 * (k / 4) + (if k % 4 == 0 then 0 else k % 4 - 1)
  {
    ByteCount(Values(s[..PrefixLen(s)]));
  }

  /** The canonical texts of section 4 of RFC 4648: whole quads, at most two pads, all at
      the end, and no stray bit in the last symbol before a pad (section 3.5). */
  predicate Canonical(s: string) {
    var k := PrefixLen(s);
    && |s| % 4 == 0
    && |s| - k <= 2
    && (forall i :: k <= i < |s| ==> s[i] == '=')
    && CleanTail(Values(s[..k]))
  }

  lemma SextetsAreClean(b: seq<bv8>)
    ensures CleanTail(Sextets(b))
  {
    BytesOfSextets(b);
    SextetsOfBytes(Sextets(b));
  }

  lemma EncodeIsCanonical(b: seq<bv8>)
    ensures Canonical(Encode(b))
  {
    EncodedPrefix(b);
    SextetCount(b);
    PadsFillQuad(|b|);
    SextetsAreClean(b);
  }

  lemma SamePads(p: string, n: nat)
    requires |p| == |Pads(n)| && forall i :: 0 <= i < |p| ==> p[i] == '='
    ensures p == Pads(n)
  {
  }

  lemma PadsOfRun(s: string, k: nat, v: seq<bv8>)
    requires k == |v| && k <= |s| <= k + 2 && |s| % 4 == 0
    requires forall i :: k <= i < |s| ==> s[i] == '='
    ensures s[k..] == Pads(|Bytes(v)|)
  {
    ByteCount(v);
    PadsOfLength(k, |s| - k);
    SamePads(s[k..], |Bytes(v)|);
  }

  lemma CanonicalInverse(s: string)
    requires Canonical(s)
    ensures Encode(Decode(s)) == s
  {
    var k := PrefixLen(s);
    SymbolsOfValues(s[..k]);
    SextetsOfBytes(Values(s[..k]));
    PadsOfRun(s, k, Values(s[..k]));
    assert s == s[..k] + s[k..];
  }

  /** Exactly the canonical texts survive decoding and encoding again. */
  lemma CanonicalIff(s: string)
    ensures Encode(Decode(s)) == s <==> Canonical(s)
  {
    EncodeIsCanonical(Decode(s));
    if Canonical(s) {
      CanonicalInverse(s);
    }
  }

  // ------------------------------------------------------- the two code paths

  lemma EncodeGroup(b: seq<bv8>)
    requires |b| >= 3
    ensures Encode(b) == Symbols(Four(b[0], b[1], b[2])) + Encode(b[3..])
  {
    var q, rest := Four(b[0], b[1], b[2]), Sextets(b[3..]);
    assert Symbols(q + rest) == Symbols(q) + Symbols(rest);
    assert Pads(|b|) == Pads(|b[3..]|);
  }

  lemma EncodeTail(b: seq<bv8>)
    requires 0 < |b| < 3
    ensures var second := if |b| == 2 then b[1] else 0;
      Encode(b) == Symbols(Four(b[0], second, 0))[..|b| + 1] + (if |b| == 1 then "==" else "=")
  {
  }

  /** Splits the three buffered bytes into four six-bit values. */
  method FillSextets(charArray3: array<bv8>, charArray4: array<bv8>)
    requires charArray3.Length == 3 && charArray4.Length == 4
    modifies charArray4
    ensures charArray4[..] == Four(charArray3[0], charArray3[1], charArray3[2])
  {
    charArray4[0] := (charArray3[0] & 0xfc) >> 2;
    charArray4[1] := ((charArray3[0] & 0x03) << 4) + ((charArray3[1] & 0xf0) >> 4);
    charArray4[2] := ((charArray3[1] & 0x0f) << 2) + ((charArray3[2] & 0xc0) >> 6);
    charArray4[3] := charArray3[2] & 0x3f;
  }

  /** Appends the symbols of the first `n` buffered values. */
  method AppendSymbols(ret: string, charArray4: array<bv8>, n: nat) returns (out: string)
    requires n <= charArray4.Length && AllSextets(charArray4[..])
    ensures out == ret + Symbols(charArray4[..])[..n]
  {
    out := ret;
    var j := 0;
    while j < n
      invariant j <= n && out == ret + Symbols(charArray4[..])[..j]
    {
      out := out + [BASE_64_CHARS[charArray4[j] as int]];
      j := j + 1;
    }
  }

  /** Writes out a full group: the output plus the text of what is left stays the same. */
  method FlushGroup(ret: string, charArray3: array<bv8>, charArray4: array<bv8>, ghost left: seq<bv8>)
    returns (out: string)
    requires charArray3.Length == 3 && charArray4.Length == 4
    requires |left| >= 3 && charArray3[..] == left[..3]
    modifies charArray4
    ensures out + Encode(left[3..]) == ret + Encode(left)
  {
    FillSextets(charArray3, charArray4);
    out := AppendSymbols(ret, charArray4, 4);
    EncodeGroup(left);
    assert left[0] == charArray3[0] && left[1] == charArray3[1] && left[2] == charArray3[2];
  }

  /** Writes out a last group of `n` bytes with its pads. */
  method FlushTail(ret: string, charArray3: array<bv8>, charArray4: array<bv8>, n: nat) returns (out: string)
    requires charArray3.Length == 3 && charArray4.Length == 4 && 0 < n < 3
    modifies charArray3, charArray4
    ensures out == ret + Encode(old(charArray3[..n]))
  {
    ghost var left := charArray3[..n];
    var j := n;
    while j < 3
      invariant n <= j <= 3
      invariant charArray3[..n] == left
      invariant forall x :: n <= x < j ==> charArray3[x] == 0
    {
      charArray3[j] := 0;
      j := j + 1;
    }
    FillSextets(charArray3, charArray4);
    EncodeTail(left);
    assert left[0] == charArray3[0] && (n == 2 ==> left[1] == charArray3[1]);
    out := AppendSymbols(ret, charArray4, n + 1);
    var i := n;
    while i < 3
      invariant n <= i <= 3
      invariant out + (if i == 1 then "==" else if i == 2 then "=" else "") == ret + Encode(left)
    {
      out := out + "=";
      i := i + 1;
    }
  }

  method PutByte(charArray3: array<bv8>, i: nat, byte: bv8, ghost waiting: seq<bv8>)
    requires i < charArray3.Length && charArray3[..i] == waiting
    modifies charArray3
    ensures charArray3[..i + 1] == waiting + [byte]
  {
    charArray3[i] := byte;
    assert charArray3[..i + 1] == charArray3[..i] + [byte];
  }

  lemma SliceGrows(b: seq<bv8>, from: nat, to: nat)
    requires from <= to < |b|
    ensures b[from..to + 1] == b[from..to] + [b[to]]
  {
  }

  method Base64Encode(toEncode: array?<bv8>, len: nat) returns (ret: string)
    requires len <= UINT_MAX
    requires toEncode != null ==> len <= toEncode.Length
    ensures ret == if toEncode == null then "" else Encode(toEncode[..len])
  {
    ret := "";
    if len == 0 || toEncode == null {
      return;
    }
    ghost var b := toEncode[..len];
    var length, next, i := len, 0, 0;
    var charArray3 := new bv8[3];
    var charArray4 := new bv8[4];
    while length > 0
      invariant next + length == len && i <= next && i < 3
      invariant charArray3[..i] == b[next - i..next]
      invariant ret + Encode(b[next - i..]) == Encode(b)
      invariant toEncode[..len] == b
    {
      SliceGrows(b, next - i, next);
      PutByte(charArray3, i, toEncode[next], b[next - i..next]);
      next, i := next + 1, i + 1;
      if i == 3 {
        ghost var left := b[next - 3..];
        assert left[..3] == b[next - 3..next] && left[3..] == b[next..];
        ret := FlushGroup(ret, charArray3, charArray4, left);
        i := 0;
      }
      length := length - 1;
    }
    assert b[next - i..] == b[next - i..next];
    if i > 0 {
      ret := FlushTail(ret, charArray3, charArray4, i);
    }
  }

  lemma {:induction false} BytesAppend(u: seq<bv8>, v: seq<bv8>, groups: nat)
    requires |u| == 4 * groups
    ensures Bytes(u + v) == Bytes(u) + Bytes(v)
    decreases groups
  {
    if groups == 0 {
      assert u + v == v;
    } else {
      assert (u + v)[4..] == u[4..] + v;
      BytesAppend(u[4..], v, groups - 1);
    }
  }

  lemma RunAppend(s: string, from: nat, to: nat, groups: nat)
    requires from <= to <= |s| && from == 4 * groups && InAlphabet(s[..to])
    ensures InAlphabet(s[..from]) && InAlphabet(s[from..to])
    ensures Bytes(Values(s[..to])) == Bytes(Values(s[..from])) + Bytes(Values(s[from..to]))
  {
    forall i | from <= i < to
      ensures IsBase64(s[i])
    {
      assert s[..to][i] == s[i];
    }
    assert forall i :: 0 <= i < from ==> s[..from][i] == s[..to][i];
    BytesAppend(Values(s[..from]), Values(s[from..to]), groups);
    assert Values(s[..to]) == Values(s[..from]) + Values(s[from..to]);
  }

  /** Joins the four buffered values into three bytes. */
  method FillBytes(charArray4: array<bv8>, charArray3: array<bv8>)
    requires charArray3.Length == 3 && charArray4.Length == 4
    modifies charArray3
    ensures charArray3[..] == Three(charArray4[0], charArray4[1], charArray4[2], charArray4[3])
  {
    charArray3[0] := D0(charArray4[0], charArray4[1]);
    charArray3[1] := D1(charArray4[1], charArray4[2]);
    charArray3[2] := D2(charArray4[2], charArray4[3]);
  }

  /** Looks up every buffered character; a zero that only fills the buffer is not in the
      alphabet and becomes 0xff. */
  method LookUp(letters: string, charArray4: array<bv8>)
    requires |letters| == 4 && charArray4.Length == 4
    modifies charArray4
    ensures charArray4[..] == [Find(letters[0]), Find(letters[1]), Find(letters[2]), Find(letters[3])]
  {
    var j := 0;
    while j < 4
      invariant 0 <= j <= 4
      invariant forall x :: 0 <= x < j ==> charArray4[x] == Find(letters[x])
    {
      charArray4[j] := Find(letters[j]);
      j := j + 1;
    }
  }

  /** Joins a full buffer. */
  method FlushQuad(ret: seq<bv8>, letters: string, charArray4: array<bv8>, charArray3: array<bv8>)
    returns (out: seq<bv8>)
    requires charArray3.Length == 3 && charArray4.Length == 4 && |letters| == 4 && InAlphabet(letters)
    modifies charArray3, charArray4
    ensures out == ret + Bytes(Values(letters))
  {
    LookUp(letters, charArray4);
    FillBytes(charArray4, charArray3);
    out := ret + charArray3[..];
  }

  /** Joins a last buffer of `n` characters. Only the first `n - 1` bytes are kept, and they
      do not depend on the 0xff that the look-up leaves in the unused cells. */
  method FlushLast(ret: seq<bv8>, letters: string, charArray4: array<bv8>, charArray3: array<bv8>, n: nat)
    returns (out: seq<bv8>)
    requires charArray3.Length == 3 && |letters| == 4 && charArray4.Length == 4
    requires 0 < n < 4 && InAlphabet(letters[..n])
    modifies charArray3, charArray4
    ensures out == ret + Bytes(Values(letters[..n]))
  {
    var filled, j := letters, n;
    while j < 4
      invariant n <= j <= 4 && |filled| == 4
      invariant filled[..n] == letters[..n]
    {
      filled := filled[j := '\0'];
      j := j + 1;
    }
    assert forall x :: 0 <= x < n ==> filled[x] == filled[..n][x] == letters[..n][x];
    LookUp(filled, charArray4);
    FillBytes(charArray4, charArray3);
    out := ret + charArray3[..n - 1];
  }

  lemma PrefixGrows(s: string, to: nat)
    requires to < |s| && InAlphabet(s[..to]) && IsBase64(s[to])
    ensures InAlphabet(s[..to + 1])
  {
    assert s[..to + 1] == s[..to] + [s[to]];
  }

  /** Where the decoder stands: `groups` whole groups are written out and the `i` characters
      before `index` wait in the buffer. */
  ghost predicate Progress(s: string, index: nat, i: nat, groups: nat, cells: string, ret: seq<bv8>) {
    && i <= |cells| == 4 && index == 4 * groups + i && index <= |s|
    && InAlphabet(s[..index]) && cells[..i] == s[4 * groups..index]
    && InAlphabet(s[..4 * groups]) && ret == Bytes(Values(s[..4 * groups]))
  }

  method PutLetter(basicString: string, index: nat, i: nat, ghost groups: nat, letters: array<char>,
    ghost ret: seq<bv8>)
    requires letters.Length == 4 && i < 4 && Progress(basicString, index, i, groups, letters[..], ret)
    requires index < |basicString| && IsBase64(basicString[index])
    modifies letters
    ensures Progress(basicString, index + 1, i + 1, groups, letters[..], ret)
  {
    PrefixGrows(basicString, index);
    letters[i] := basicString[index];
    assert letters[..][..i + 1] == letters[..][..i] + [basicString[index]];
  }

  lemma GroupDone(s: string, index: nat, groups: nat, cells: string, ret: seq<bv8>)
    requires Progress(s, index, 4, groups, cells, ret)
    ensures InAlphabet(cells) && Progress(s, index, 0, groups + 1, cells, ret + Bytes(Values(cells)))
  {
    RunAppend(s, 4 * groups, index, groups);
    assert cells == cells[..4];
    assert s[4 * (groups + 1)..index] == [];
  }

  lemma TailLeft(s: string, index: nat, i: nat, groups: nat, cells: string, ret: seq<bv8>)
    requires Progress(s, index, i, groups, cells, ret)
    ensures InAlphabet(cells[..i]) && ret + Bytes(Values(cells[..i])) == Bytes(Values(s[..index]))
  {
    RunAppend(s, 4 * groups, index, groups);
  }

  /** One turn of the loop: a letter more in the buffer, which is written out when full. */
  method TakeLetter(
    basicString: string, index: nat, i: nat, ghost groups: nat, letters: array<char>, charArray4: array<bv8>,
    charArray3: array<bv8>, ret: seq<bv8>)
    returns (out: seq<bv8>, next: nat, ghost done: nat)
    requires charArray3.Length == 3 && charArray4.Length == 4 && letters.Length == 4 && i < 4
    requires Progress(basicString, index, i, groups, letters[..], ret)
    requires index < |basicString| && IsBase64(basicString[index])
    modifies letters, charArray4, charArray3
    ensures next < 4 && Progress(basicString, index + 1, next, done, letters[..], out)
  {
    PutLetter(basicString, index, i, groups, letters, ret);
    out, next, done := ret, i + 1, groups;
    if next == 4 {
      GroupDone(basicString, index + 1, groups, letters[..], ret);
      out := FlushQuad(ret, letters[..], charArray4, charArray3);
      next, done := 0, groups + 1;
    }
  }

  method FlushRest(
    basicString: string, index: nat, i: nat, ghost groups: nat, letters: array<char>, charArray4: array<bv8>,
    charArray3: array<bv8>, ret: seq<bv8>)
    returns (out: seq<bv8>)
    requires charArray3.Length == 3 && charArray4.Length == 4 && letters.Length == 4 && i < 4
    requires Progress(basicString, index, i, groups, letters[..], ret)
    modifies charArray4, charArray3
    ensures InAlphabet(basicString[..index]) && out == Bytes(Values(basicString[..index]))
  {
    TailLeft(basicString, index, i, groups, letters[..], ret);
    out := ret;
    if i > 0 {
      out := FlushLast(ret, letters[..], charArray4, charArray3, i);
    }
  }

  /** Decodes up to the first character outside the alphabet. The code keeps characters and
      their positions in one buffer; here `letters` holds the characters and `charArray4`
      the positions. */
  method DecodePrefix(basicString: string) returns (ret: seq<bv8>, index: nat)
    requires |basicString| <= INT_MAX
    ensures index <= |basicString| && InAlphabet(basicString[..index])
    ensures index < |basicString| ==> !IsBase64(basicString[index])
    ensures ret == Bytes(Values(basicString[..index]))
  {
    ret, index := [], 0;
    var i, len := 0, |basicString|;
    var charArray3 := new bv8[3];
    var charArray4 := new bv8[4];
    var letters := new char[4];
    ghost var groups := 0;
    while true
      invariant i < 4 && len == |basicString| - index
      invariant Progress(basicString, index, i, groups, letters[..], ret)
      decreases |basicString| - index
    {
      var more := len != 0;
      len := len - 1;
      if !more || basicString[index] == '=' || !IsBase64(basicString[index]) {
        break;
      }
      ret, i, groups := TakeLetter(basicString, index, i, groups, letters, charArray4, charArray3, ret);
      index := index + 1;
    }
    ret := FlushRest(basicString, index, i, groups, letters, charArray4, charArray3, ret);
  }

  method Base64Decode(basicString: string) returns (ret: seq<bv8>)
    requires |basicString| <= INT_MAX
    ensures ret == Decode(basicString)
  {
    ret := [];
    if basicString == "" {
      return;
    }
    var index;
    ret, index := DecodePrefix(basicString);
    PrefixLenIs(basicString, index);
  }
}
