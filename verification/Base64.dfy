/**
 base64url without padding (sections 3.2 and 5 of RFC 4648): what each sextet and each byte
 is, the two loops that compute them, and exactly how far each undoes the other.
 */
module Base64 {
  import opened Wrappers

  type Byte = bv8
  type Sextet = bv6

  // ── the alphabet ──

  /** n characters in code order. */
  function Run(from: char, n: nat): (s: string)
    requires from as int + n < 128
    ensures |s| == n
  {
    seq(n, i requires 0 <= i < n => (from as int + i) as char)
  }

  const ALPHA: string := Run('A', 26) + Run('a', 26) + Run('0', 10) + "-_"

  lemma AlphabetText()
    ensures ALPHA == "ABCDEFGHIJKLMNOPQRSTUVWXYZabcdefghijklmnopqrstuvwxyz0123456789-_"
  {
    assert Run('A', 26) == "ABCDEFGHIJKLMNOPQRSTUVWXYZ" && Run('a', 26) == "abcdefghijklmnopqrstuvwxyz";
    assert Run('A', 26) + Run('a', 26) == "ABCDEFGHIJKLMNOPQRSTUVWXYZabcdefghijklmnopqrstuvwxyz";
    assert Run('0', 10) + "-_" == "0123456789-_";
  }

  /** `position`: the first place of c in s. */
  function Position(s: string, c: char): (p: Option<nat>)
    ensures p.Some? <==> c in s
    ensures p.Some? ==> p.value < |s| && s[p.value] == c
  {
    if s == [] then None
    else if s[0] == c then Some(0)
    else match Position(s[1..], c)
      case None => None
      case Some(p) => Some(p + 1)
  }

  function Symbol(v: Sextet): (c: char) {
    ALPHA[v as int]
  }

  predicate InAlphabet(s: string) {
    forall i :: 0 <= i < |s| ==> s[i] in ALPHA
  }

  lemma ThereAndBack(p: nat)
    requires p < 64
    ensures (p as Sextet) as int == p
  {
  }

  function Lookup(c: char): (v: Option<Sextet>)
    ensures v.Some? <==> c in ALPHA
    ensures v.Some? ==> Symbol(v.value) == c
  {
    match Position(ALPHA, c)
    case None => None
    case Some(p) =>
      ThereAndBack(p);
      Some(p as Sextet)
  }

  function Value(c: char): (v: Sextet)
    requires c in ALPHA
    ensures Symbol(v) == c
  {
    Lookup(c).value
  }

  /** The place of a symbol read off its character. */
  function Rank(c: char): (v: int) {
    if 'A' <= c <= 'Z' then c as int - 65
    else if 'a' <= c <= 'z' then c as int - 71
    else if '0' <= c <= '9' then c as int + 4
    else if c == '-' then 62 else 63
  }

  lemma RankOfSymbol(v: Sextet)
    ensures Rank(Symbol(v)) == v as int
  {
  }

  lemma SameNumber(v: Sextet, w: Sextet)
    requires v as int == w as int
    ensures v == w
  {
  }

  lemma SymbolsDiffer(v: Sextet, w: Sextet)
    requires Symbol(v) == Symbol(w)
    ensures v == w
  {
    RankOfSymbol(v);
    RankOfSymbol(w);
    hide Symbol, Rank;
    SameNumber(v, w);
  }

  lemma ValueOfSymbol(v: Sextet)
    ensures Symbol(v) in ALPHA && Value(Symbol(v)) == v
  {
    SymbolsDiffer(v, Value(Symbol(v)));
  }

  lemma PadIsNoSymbol(v: Sextet)
    ensures Symbol(v) != '='
  {
  }

  // ── what each sextet and each byte is ──

  /** Byte i, or zero past the end. */
  function At(b: seq<Byte>, i: nat): (v: Byte) {
    if i < |b| then b[i] else 0
  }

  /** The r-th six bits of three bytes. */
  function Cut(a: Byte, b: Byte, c: Byte, r: nat): (v: Sextet) {
    match r
    case 0 => (a >> 2) as Sextet
    case 1 => (((a & 3) << 4) | (b >> 4)) as Sextet
    case 2 => (((b & 15) << 2) | (c >> 6)) as Sextet
    case _ => (c & 63) as Sextet
  }

  /** The k-th eight bits of four sextets. */
  function Join(p: Sextet, q: Sextet, r: Sextet, s: Sextet, k: nat): (v: Byte) {
    match k
    case 0 => (p as Byte << 2) | (q as Byte >> 4)
    case 1 => (q as Byte << 4) | (r as Byte >> 2)
    case _ => (r as Byte << 6) | s as Byte
  }

  lemma CutOfJoin(p: Sextet, q: Sextet, r: Sextet, s: Sextet)
    ensures var a, b, c := Join(p, q, r, s, 0), Join(p, q, r, s, 1), Join(p, q, r, s, 2);
            Cut(a, b, c, 0) == p && Cut(a, b, c, 1) == q && Cut(a, b, c, 2) == r && Cut(a, b, c, 3) == s
  {
  }

  lemma JoinOfCut(a: Byte, b: Byte, c: Byte)
    ensures var p, q, r, s := Cut(a, b, c, 0), Cut(a, b, c, 1), Cut(a, b, c, 2), Cut(a, b, c, 3);
            Join(p, q, r, s, 0) == a && Join(p, q, r, s, 1) == b && Join(p, q, r, s, 2) == c
  {
  }

  /** Three bytes as twenty-four bits. */
  function Pack(a: Byte, b: Byte, c: Byte): (n: bv32) {
    (a as bv32 << 16) | (b as bv32 << 8) | c as bv32
  }

  /** The r-th of the four sextets packed in n. */
  function Unpack(n: bv32, r: nat): (v: Sextet) {
    match r
    case 0 => ((n >> 18) & 63) as Sextet
    case 1 => ((n >> 12) & 63) as Sextet
    case 2 => ((n >> 6) & 63) as Sextet
    case _ => (n & 63) as Sextet
  }

  lemma PackCuts(a: Byte, b: Byte, c: Byte, r: nat)
    ensures Unpack(Pack(a, b, c), r) == Cut(a, b, c, r)
  {
  }

  /** One step of the accumulator, whose high bits fall off the top. */
  function Feed(bits: bv32, v: Sextet): (r: bv32) {
    (bits << 6) | v as bv32
  }

  /** The byte above the `nbits` low bits. */
  function ReadOff(bits: bv32, nbits: bv32): (v: Byte)
    requires nbits <= 24
  {
    ((bits >> nbits) & 0xff) as Byte
  }

  /** The bits still unread, `nbits` of them, are the low bits of the last sextet. */
  predicate Unread(bits: bv32, nbits: bv32, last: Sextet) {
    match nbits
    case 6 => bits & 63 == last as bv32
    case 4 => bits & 15 == last as bv32 & 15
    case 2 => bits & 3 == last as bv32 & 3
    case _ => nbits == 0
  }

  lemma FeedLeaves(bits: bv32, v: Sextet)
    ensures var r := Feed(bits, v); Unread(r, 6, v) && Unread(r, 4, v) && Unread(r, 2, v) && Unread(r, 0, v)
  {
  }

  lemma FeedFirst(bits: bv32, u: Sextet, v: Sextet)
    requires Unread(bits, 6, u)
    ensures ReadOff(Feed(bits, v), 4) == Join(u, v, 0, 0, 0)
  {
  }

  lemma FeedSecond(bits: bv32, u: Sextet, v: Sextet)
    requires Unread(bits, 4, u)
    ensures ReadOff(Feed(bits, v), 2) == Join(0, u, v, 0, 1)
  {
  }

  lemma FeedThird(bits: bv32, u: Sextet, v: Sextet)
    requires Unread(bits, 2, u)
    ensures ReadOff(Feed(bits, v), 0) == Join(0, 0, u, v, 2)
  {
  }

  // ── the codec ──

  /** Bits 6j to 6j+5 of the byte string, zeros past its end. */
  function SextetAt(b: seq<Byte>, j: nat): (v: Sextet) {
    var i := j / 4 * 3;
    Cut(At(b, i), At(b, i + 1), At(b, i + 2), j % 4)
  }

  /** ceil(4n / 3): six bits at a time until 8n bits are covered. */
  function SextetCount(n: nat): (k: nat)
    ensures 8 * n <= 6 * k < 8 * n + 6
  {
    (4 * n + 2) / 3
  }

  function Encode(b: seq<Byte>): (s: string) {
    seq(SextetCount(|b|), j requires 0 <= j => Symbol(SextetAt(b, j)))
  }

  /** Sextet j, or zero past the end. */
  function ValueAt(s: string, j: nat): (v: Sextet)
    requires InAlphabet(s)
  {
    if j < |s| then Value(s[j]) else 0
  }

  /** Bits 8k to 8k+7 of the sextet string. */
  function ByteAt(s: string, k: nat): (v: Byte)
    requires InAlphabet(s)
  {
    var j := k / 3 * 4;
    Join(ValueAt(s, j), ValueAt(s, j + 1), ValueAt(s, j + 2), ValueAt(s, j + 3), k % 3)
  }

  /** floor(3 * length / 4) bytes, whatever the length; None outside the alphabet. */
  function Decode(s: string): (r: Option<seq<Byte>>) {
    if InAlphabet(s) then Some(seq(3 * |s| / 4, k requires 0 <= k => ByteAt(s, k))) else None
  }

  // ── the encoding loop ──

  /** One group of four: the twenty-four bits cut in four, pads for the missing bytes. */
  method EncodeChunk(chunk: seq<Byte>) returns (s: string)
    requires 0 < |chunk| <= 3
    ensures |s| == 4
    ensures forall r :: 0 <= r < 4 ==>
        s[r] == if r <= |chunk| then Symbol(Cut(chunk[0], At(chunk, 1), At(chunk, 2), r)) else '='
  {
    hide Symbol, Cut, Pack, Unpack;
    var n := Pack(chunk[0], At(chunk, 1), At(chunk, 2));
    forall r: nat ensures Unpack(n, r) == Cut(chunk[0], At(chunk, 1), At(chunk, 2), r) {
      PackCuts(chunk[0], At(chunk, 1), At(chunk, 2), r);
    }
    s := [Symbol(Unpack(n, 0)), Symbol(Unpack(n, 1))];
    s := s + [if |chunk| > 1 then Symbol(Unpack(n, 2)) else '='];
    s := s + [if |chunk| > 2 then Symbol(Unpack(n, 3)) else '='];
  }

  /** What the loop has built after the groups so far: symbols, then pads. */
  ghost predicate Padded(out: string, b: seq<Byte>) {
    forall j :: 0 <= j < |out| ==> out[j] == if j < SextetCount(|b|) then Symbol(SextetAt(b, j)) else '='
  }

  lemma GroupFits(b: seq<Byte>, g: nat, out: string, chunk: seq<Byte>, four: string)
    requires 3 * g < |b| && |out| == 4 * g && Padded(out, b)
    requires chunk == b[3 * g..if 3 * g + 3 <= |b| then 3 * g + 3 else |b|]
    requires |four| == 4
    requires forall r :: 0 <= r < 4 ==>
        four[r] == if r <= |chunk| then Symbol(Cut(chunk[0], At(chunk, 1), At(chunk, 2), r)) else '='
    ensures Padded(out + four, b)
  {
    hide Cut, Symbol;
    forall r | 0 <= r < 4
      ensures four[r] == if 4 * g + r < SextetCount(|b|) then Symbol(SextetAt(b, 4 * g + r)) else '='
    {
      assert (4 * g + r) / 4 == g && (4 * g + r) % 4 == r;
    }
    hide SextetAt;
    forall j | 0 <= j < |out + four|
        ensures (out + four)[j] == if j < SextetCount(|b|) then Symbol(SextetAt(b, j)) else '=' {
      if j >= |out| { assert (out + four)[j] == four[j - 4 * g]; }
    }
  }

  method B64UrlEncode(bytes: seq<Byte>) returns (out: string)
    ensures out == Encode(bytes)
  {
    out := "";
    var g := 0;
    while 3 * g < |bytes|
      invariant |out| == 4 * g && 3 * g <= |bytes| + 2
      invariant Padded(out, bytes)
    {
      hide Cut, Symbol, Padded;
      var chunk := bytes[3 * g..if 3 * g + 3 <= |bytes| then 3 * g + 3 else |bytes|];
      var four := EncodeChunk(chunk);
      GroupFits(bytes, g, out, chunk, four);
      out := out + four;
      g := g + 1;
    }
    while out != "" && out[|out| - 1] == '='
      invariant SextetCount(|bytes|) <= |out|
      invariant Padded(out, bytes)
      decreases |out|
    {
      hide Symbol, SextetAt;
      if |out| == SextetCount(|bytes|) { PadIsNoSymbol(SextetAt(bytes, |out| - 1)); }
      out := out[..|out| - 1];
    }
  }

  // ── the decoding loop ──

  /** How many bits are unread after i sextets: 6i modulo 8. */
  function BitsLeft(i: nat): (n: bv32) {
    match i % 4
    case 0 => 0
    case 1 => 6
    case 2 => 4
    case _ => 2
  }

  ghost predicate Leftover(bits: bv32, nbits: bv32, text: string, i: nat)
    requires i <= |text| && InAlphabet(text[..i])
  {
    nbits == BitsLeft(i) && (i > 0 ==> Unread(bits, nbits, Value(text[i - 1])))
  }

  /** The byte completed by a group's r-th sextet v after the sextet u. */
  function Completed(u: Sextet, v: Sextet, r: nat): (b: Byte) {
    match r
    case 1 => Join(u, v, 0, 0, 0)
    case 2 => Join(0, u, v, 0, 1)
    case _ => Join(0, 0, u, v, 2)
  }

  lemma ReadsCompleted(bits: bv32, u: Sextet, v: Sextet, i: nat)
    requires i % 4 != 0 && Unread(bits, BitsLeft(i), u)
    ensures BitsLeft(i + 1) <= 24 && ReadOff(Feed(bits, v), BitsLeft(i + 1)) == Completed(u, v, i % 4)
  {
    hide Feed, Unread, ReadOff, Join;
    match i % 4
    case 1 => FeedFirst(bits, u, v);
    case 2 => FeedSecond(bits, u, v);
    case _ => FeedThird(bits, u, v);
  }

  /** The byte completed at sextet i needs that sextet and the one before. */
  lemma ByteJoins(s: string, i: nat)
    requires i < |s| && InAlphabet(s[..i + 1]) && i % 4 != 0
    ensures ByteAt(s[..i + 1], 3 * i / 4) == Completed(Value(s[i - 1]), Value(s[i]), i % 4)
  {
    hide Value, Join;
    var k := 3 * i / 4;
    assert k / 3 == i / 4 && k % 3 == i % 4 - 1;
    var t := s[..i + 1];
    var j := i - i % 4;
    assert k / 3 * 4 == j;
    JoinIgnores(ValueAt(t, j), ValueAt(t, j + 1), ValueAt(t, j + 2), ValueAt(t, j + 3));
  }

  lemma JoinIgnores(p: Sextet, q: Sextet, r: Sextet, s: Sextet)
    ensures Join(p, q, r, s, 0) == Join(p, q, 0, 0, 0) && Join(p, q, r, s, 1) == Join(0, q, r, 0, 1)
        && Join(p, q, r, s, 2) == Join(0, 0, r, s, 2)
  {
  }

  /** One turn of the loop: the byte pushed, if any, is the next one, and the leftover is kept. */
  lemma Turn(bits: bv32, nbits: bv32, text: string, i: nat)
    requires i < |text| && InAlphabet(text[..i + 1]) && InAlphabet(text[..i]) && Leftover(bits, nbits, text, i)
    ensures var bits' := Feed(bits, Value(text[i]));
            && Leftover(bits', BitsLeft(i + 1), text, i + 1)
            && (i % 4 != 0 ==> ReadOff(bits', BitsLeft(i + 1)) == ByteAt(text[..i + 1], 3 * i / 4))
  {
    hide Feed, Value, ByteAt, Unread, ReadOff, Completed, ALPHA;
    FeedLeaves(bits, Value(text[i]));
    if i % 4 != 0 {
      ByteJoins(text, i);
      ReadsCompleted(bits, Value(text[i - 1]), Value(text[i]), i);
    }
  }

  lemma CountBits(i: nat)
    ensures if i % 4 == 0 then BitsLeft(i) + 6 < 8 && BitsLeft(i + 1) == BitsLeft(i) + 6
            else BitsLeft(i) + 6 >= 8 && BitsLeft(i + 1) == BitsLeft(i) + 6 - 8
  {
  }

  /** One more sextet completes a byte, unless it opens a group. */
  lemma DecodeGrows(s: string, i: nat)
    requires i < |s| && InAlphabet(s[..i + 1])
    ensures InAlphabet(s[..i])
    ensures Decode(s[..i + 1]).value
         == Decode(s[..i]).value + if i % 4 == 0 then [] else [ByteAt(s[..i + 1], 3 * i / 4)]
  {
    hide ByteAt;
    var t := s[..i + 1];
    assert t[..i] == s[..i];
    assert InAlphabet(t[..i]) by { assert forall k :: 0 <= k < i ==> t[..i][k] == t[k]; }
    hide InAlphabet;
    assert 3 * (i + 1) / 4 == 3 * i / 4 + if i % 4 == 0 then 0 else 1;
    forall k | 0 <= k < 3 * i / 4 ensures ByteAt(t[..i], k) == ByteAt(t, k) { ByteAtPrefix(t, i, k); }
  }

  lemma ByteAtPrefix(s: string, n: nat, k: nat)
    requires InAlphabet(s) && n <= |s| && k < 3 * n / 4
    ensures InAlphabet(s[..n]) && ByteAt(s[..n], k) == ByteAt(s, k)
  {
    hide Value;
  }

  /** The accumulator is never masked; only its low bits are ever read. */
  method B64UrlDecode(text: string) returns (out: Option<seq<Byte>>)
    ensures out == Decode(text)
  {
    var bits: bv32, nbits: bv32, bytes, i := 0, 0, [], 0;
    while i < |text|
      invariant 0 <= i <= |text| && InAlphabet(text[..i])
      invariant nbits == BitsLeft(i) && Leftover(bits, nbits, text, i)
      invariant bytes == Decode(text[..i]).value
    {
      hide Decode, Leftover, ByteAt, ReadOff, Feed, BitsLeft;
      var v := Lookup(text[i]);
      if v == None {
        OutsideRefused(text, i);
        return None;
      }
      AlphabetGrows(text, i);
      Turn(bits, nbits, text, i);
      DecodeGrows(text, i);
      CountBits(i);
      bits := Feed(bits, v.value);
      nbits := nbits + 6;
      if nbits >= 8 {
        nbits := nbits - 8;
        bytes := bytes + [ReadOff(bits, nbits)];
      }
      i := i + 1;
    }
    assert text[..|text|] == text;
    out := Some(bytes);
  }

  lemma OutsideRefused(s: string, i: nat)
    requires i < |s| && s[i] !in ALPHA
    ensures Decode(s) == None
  {
  }

  lemma AlphabetGrows(s: string, i: nat)
    requires i < |s| && InAlphabet(s[..i]) && s[i] in ALPHA
    ensures InAlphabet(s[..i + 1])
  {
    assert s[..i + 1] == s[..i] + [s[i]];
  }

  // ── decode after encode ──

  lemma EncodedAlphabet(b: seq<Byte>)
    ensures InAlphabet(Encode(b))
    ensures forall j: nat {:trigger ValueAt(Encode(b), j)} :: ValueAt(Encode(b), j) == SextetAt(b, j)
  {
    hide Symbol, SextetAt;
    forall j | 0 <= j < SextetCount(|b|) ensures Encode(b)[j] in ALPHA { ValueOfSymbol(SextetAt(b, j)); }
    forall j: nat ensures ValueAt(Encode(b), j) == SextetAt(b, j) {
      if j < SextetCount(|b|) { ValueOfSymbol(SextetAt(b, j)); } else { PastEndIsZero(b, j); }
    }
  }

  lemma PastEndIsZero(b: seq<Byte>, j: nat)
    requires j >= SextetCount(|b|)
    ensures SextetAt(b, j) == 0
  {
    var i := j / 4 * 3;
    assert if j % 4 < 2 then i >= |b| else if j % 4 == 2 then i + 1 >= |b| else i + 2 >= |b|;
  }

  lemma SextetsOfGroup(b: seq<Byte>, g: nat, r: nat)
    requires r < 4
    ensures SextetAt(b, 4 * g + r) == Cut(At(b, 3 * g), At(b, 3 * g + 1), At(b, 3 * g + 2), r)
  {
    hide Cut;
    assert (4 * g + r) / 4 == g && (4 * g + r) % 4 == r;
  }

  lemma BytesOfGroup(s: string, g: nat, m: nat)
    requires InAlphabet(s) && m < 3
    ensures ByteAt(s, 3 * g + m)
        == Join(ValueAt(s, 4 * g), ValueAt(s, 4 * g + 1), ValueAt(s, 4 * g + 2), ValueAt(s, 4 * g + 3), m)
  {
    hide Join, ValueAt;
    assert (3 * g + m) / 3 == g && (3 * g + m) % 3 == m;
  }

  lemma ByteOfEncoding(b: seq<Byte>, k: nat)
    ensures InAlphabet(Encode(b)) && ByteAt(Encode(b), k) == At(b, k)
  {
    hide Join, Cut, Encode, ValueAt, ByteAt, At, SextetAt;
    EncodedAlphabet(b);
    var g, m := k / 3, k % 3;
    assert k == 3 * g + m;
    JoinOfCut(At(b, 3 * g), At(b, 3 * g + 1), At(b, 3 * g + 2));
    BytesOfGroup(Encode(b), g, m);
    SextetsOfGroup(b, g, 0);
    SextetsOfGroup(b, g, 1);
    SextetsOfGroup(b, g, 2);
    SextetsOfGroup(b, g, 3);
  }

  /** DECODE UNDOES ENCODE, and the text is ceil(4n / 3) characters long. */
  lemma DecodeEncode(b: seq<Byte>)
    ensures Decode(Encode(b)) == Some(b)
    ensures 3 * |Encode(b)| >= 4 * |b| > 3 * |Encode(b)| - 3
  {
    hide ByteAt, Symbol, SextetAt;
    EncodedAlphabet(b);
    assert 3 * |Encode(b)| / 4 == |b|;
    hide Encode, InAlphabet;
    forall k: nat | k < |b| ensures ByteAt(Encode(b), k) == b[k] { ByteOfEncoding(b, k); }
    assert Decode(Encode(b)).value == b;
  }

  /** ENCODE IS ONE-TO-ONE. */
  lemma EncodeInjective(a: seq<Byte>, b: seq<Byte>)
    requires Encode(a) == Encode(b)
    ensures a == b
  {
    DecodeEncode(a);
    DecodeEncode(b);
    hide Encode, Decode;
  }

  // ── encode after decode ──

  /** The texts an encoder writes: a possible length, and no stray bits in the last symbol. */
  predicate Canonical(s: string) {
    && InAlphabet(s) && |s| % 4 != 1
    && (|s| % 4 == 2 ==> Value(s[|s| - 1]) & 15 == 0)
    && (|s| % 4 == 3 ==> Value(s[|s| - 1]) & 3 == 0)
  }

  /** The last sextet's bits that reach no byte. */
  predicate Tidy(v: Sextet, r: nat) {
    match r
    case 2 => v & 15 == 0
    case 3 => v & 3 == 0
    case _ => true
  }

  lemma TwoSurvive(p: Sextet, q: Sextet)
    ensures Cut(Join(p, q, 0, 0, 0), 0, 0, 0) == p
    ensures Cut(Join(p, q, 0, 0, 0), 0, 0, 1) == q <==> Tidy(q, 2)
  {
  }

  lemma ThreeSurvive(p: Sextet, q: Sextet, r: Sextet)
    ensures Cut(Join(p, q, r, 0, 0), Join(p, q, r, 0, 1), 0, 0) == p
        && Cut(Join(p, q, r, 0, 0), Join(p, q, r, 0, 1), 0, 1) == q
    ensures Cut(Join(p, q, r, 0, 0), Join(p, q, r, 0, 1), 0, 2) == r <==> Tidy(r, 3)
  {
  }

  /** Byte m of group g, as far as it exists, is joined from the group's sextets. */
  ghost predicate JoinedAt(s: string, b: seq<Byte>, g: nat, m: nat)
    requires InAlphabet(s)
  {
    At(b, 3 * g + m)
    == if 4 * g + m + 1 < |s|
       then Join(ValueAt(s, 4 * g), ValueAt(s, 4 * g + 1), ValueAt(s, 4 * g + 2), ValueAt(s, 4 * g + 3), m)
       else 0
  }

  ghost predicate Joined(s: string, b: seq<Byte>, g: nat)
    requires InAlphabet(s)
  {
    JoinedAt(s, b, g, 0) && JoinedAt(s, b, g, 1) && JoinedAt(s, b, g, 2)
  }

  lemma DecodedGroup(s: string, g: nat, m: nat)
    requires InAlphabet(s) && m < 3
    ensures JoinedAt(s, Decode(s).value, g, m)
  {
    hide ByteAt, Join, ValueAt;
    BytesOfGroup(s, g, m);
    assert 3 * g + m < 3 * |s| / 4 <==> 4 * g + m + 1 < |s|;
  }

  lemma FullGroup(s: string, b: seq<Byte>, g: nat, r: nat)
    requires InAlphabet(s) && Joined(s, b, g) && r < 4 && 4 * g + 4 <= |s|
    ensures SextetAt(b, 4 * g + r) == ValueAt(s, 4 * g + r)
  {
    SextetsOfGroup(b, g, r);
    CutOfJoin(ValueAt(s, 4 * g), ValueAt(s, 4 * g + 1), ValueAt(s, 4 * g + 2), ValueAt(s, 4 * g + 3));
    hide Join, Cut, ValueAt, At, SextetAt, InAlphabet;
  }

  lemma GroupOfTwo(s: string, b: seq<Byte>, g: nat)
    requires InAlphabet(s) && Joined(s, b, g) && |s| == 4 * g + 2
    ensures SextetAt(b, 4 * g) == ValueAt(s, 4 * g)
    ensures SextetAt(b, 4 * g + 1) == ValueAt(s, 4 * g + 1) <==> Tidy(ValueAt(s, 4 * g + 1), 2)
  {
    SextetsOfGroup(b, g, 0);
    SextetsOfGroup(b, g, 1);
    TwoSurvive(ValueAt(s, 4 * g), ValueAt(s, 4 * g + 1));
    assert ValueAt(s, 4 * g + 2) == 0 && ValueAt(s, 4 * g + 3) == 0;
    hide Join, Cut, ValueAt, At, SextetAt, InAlphabet, Tidy;
  }

  lemma GroupOfThree(s: string, b: seq<Byte>, g: nat)
    requires InAlphabet(s) && Joined(s, b, g) && |s| == 4 * g + 3
    ensures SextetAt(b, 4 * g) == ValueAt(s, 4 * g)
    ensures SextetAt(b, 4 * g + 1) == ValueAt(s, 4 * g + 1)
    ensures SextetAt(b, 4 * g + 2) == ValueAt(s, 4 * g + 2) <==> Tidy(ValueAt(s, 4 * g + 2), 3)
  {
    SextetsOfGroup(b, g, 0);
    SextetsOfGroup(b, g, 1);
    SextetsOfGroup(b, g, 2);
    ThreeSurvive(ValueAt(s, 4 * g), ValueAt(s, 4 * g + 1), ValueAt(s, 4 * g + 2));
    assert ValueAt(s, 4 * g + 3) == 0;
    hide Join, Cut, ValueAt, At, SextetAt, InAlphabet, Tidy;
  }

  /** Sextet j survives the trip through bytes. */
  ghost predicate Survives(s: string, j: nat)
    requires InAlphabet(s) && j < |s|
  {
    SextetAt(Decode(s).value, j) == Value(s[j])
  }

  lemma PlaceSurvives(s: string, b: seq<Byte>, g: nat, r: nat)
    requires InAlphabet(s) && Joined(s, b, g) && |s| % 4 != 1 && r < 4 && 4 * g + r < |s|
    ensures SextetAt(b, 4 * g + r) == ValueAt(s, 4 * g + r)
        <==> (4 * g + r == |s| - 1 ==> Tidy(ValueAt(s, 4 * g + r), |s| % 4))
  {
    hide InAlphabet, Joined, SextetAt, ValueAt;
    if 4 * g + 4 <= |s| {
      FullGroup(s, b, g, r);
      assert 4 * g + r == |s| - 1 ==> |s| % 4 == 0;
    } else if |s| == 4 * g + 2 {
      GroupOfTwo(s, b, g);
      hide Tidy;
    } else {
      GroupOfThree(s, b, g);
      hide Tidy;
    }
  }

  /** All but the last survive; the last does when it is tidy. */
  lemma SextetSurvives(s: string, j: nat)
    requires InAlphabet(s) && |s| % 4 != 1 && j < |s|
    ensures Survives(s, j) <==> (j == |s| - 1 ==> Tidy(Value(s[j]), |s| % 4))
  {
    var b := Decode(s).value;
    hide JoinedAt, SextetAt, Decode, Value, Tidy, InAlphabet;
    DecodedGroup(s, j / 4, 0);
    DecodedGroup(s, j / 4, 1);
    DecodedGroup(s, j / 4, 2);
    PlaceSurvives(s, b, j / 4, j % 4);
    hide Joined;
    assert 4 * (j / 4) + j % 4 == j;
  }

  lemma SymbolMatches(s: string, j: nat)
    requires InAlphabet(s) && j < |s| && j < |Encode(Decode(s).value)|
    ensures Encode(Decode(s).value)[j] == s[j] <==> Survives(s, j)
  {
    var b := Decode(s).value;
    assert Encode(b)[j] == Symbol(SextetAt(b, j));
    hide Encode, Decode, SextetAt, Symbol, Value, InAlphabet;
    if Symbol(SextetAt(b, j)) == s[j] { SymbolsDiffer(SextetAt(b, j), Value(s[j])); }
  }

  lemma SameText(s: string)
    requires InAlphabet(s)
    ensures Encode(Decode(s).value) == s <==> |s| % 4 != 1 && forall j :: 0 <= j < |s| ==> Survives(s, j)
  {
    hide ByteAt, Survives, InAlphabet, SextetAt, Symbol;
    var t := Encode(Decode(s).value);
    assert |t| == |s| <==> |s| % 4 != 1;
    hide Encode, Decode;
    if |t| == |s| {
      forall j | 0 <= j < |s| ensures t[j] == s[j] <==> Survives(s, j) { SymbolMatches(s, j); }
    }
  }

  /**
   ENCODE UNDOES DECODE exactly on the canonical texts: sections 3.2 and 3.5 of RFC 4648.
   On every other text the decoder accepts, it forgets something.
   */
  lemma EncodeDecode(s: string)
    ensures Decode(s).Some? <==> InAlphabet(s)
    ensures InAlphabet(s) ==> |Decode(s).value| == 3 * |s| / 4
    ensures InAlphabet(s) && Encode(Decode(s).value) == s <==> Canonical(s)
  {
    hide ByteAt, Value;
    if InAlphabet(s) {
      SameText(s);
      if |s| % 4 != 1 {
        forall j | 0 <= j < |s| ensures Survives(s, j) <==> (j == |s| - 1 ==> Tidy(Value(s[j]), |s| % 4)) {
          SextetSurvives(s, j);
        }
      }
      hide Encode, Survives;
    }
  }
}
