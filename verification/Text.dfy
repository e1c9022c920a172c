/**
 Strings as the services compare and build them: the ordering a `BTreeMap<String, _>`
 or `Vec<String>::sort` uses, and the hyphenated text of a uuid.
 */
module Text {

  // ── lexicographic order ──

  predicate StrLess(a: string, b: string) {
    b != [] && (a == [] || a[0] < b[0] || (a[0] == b[0] && StrLess(a[1..], b[1..])))
  }

  lemma {:induction false} StrLessTotal(a: string, b: string)
    ensures StrLess(a, b) || StrLess(b, a) || a == b
    decreases a
  {
    if a != [] && b != [] && a[0] == b[0] {
      StrLessTotal(a[1..], b[1..]);
      if a[1..] == b[1..] {
        assert a == [a[0]] + a[1..] && b == [b[0]] + b[1..];
      }
    }
  }

  lemma {:induction false} StrLessTransitive(a: string, b: string, c: string)
    requires StrLess(a, b) && StrLess(b, c)
    ensures StrLess(a, c)
    decreases a
  {
    if a != [] && a[0] == b[0] && b[0] == c[0] {
      StrLessTransitive(a[1..], b[1..], c[1..]);
    }
  }

  lemma {:induction false} StrLessIrreflexive(a: string)
    ensures !StrLess(a, a)
  {
    if a != [] {
      StrLessIrreflexive(a[1..]);
    }
  }

  lemma StrLessAsymmetric(a: string, b: string)
    requires StrLess(a, b)
    ensures !StrLess(b, a) && a != b
  {
    StrLessIrreflexive(a);
    if StrLess(b, a) {
      StrLessTransitive(a, b, a);
    }
  }

  // ── sorting a list of strings ──

  predicate Sorted(s: seq<string>) {
    forall i, j :: 0 <= i < j < |s| ==> !StrLess(s[j], s[i])
  }

  function Insert(x: string, s: seq<string>): (r: seq<string>) {
    if s == [] || !StrLess(s[0], x) then [x] + s else [s[0]] + Insert(x, s[1..])
  }

  function Sort(s: seq<string>): (r: seq<string>) {
    if s == [] then [] else Insert(s[0], Sort(s[1..]))
  }

  lemma {:induction false} InsertSorts(x: string, s: seq<string>)
    requires Sorted(s)
    ensures Sorted(Insert(x, s))
    ensures multiset(Insert(x, s)) == multiset(s) + multiset{x}
  {
    if s == [] || !StrLess(s[0], x) {
      forall j | 0 <= j < |s| ensures !StrLess(s[j], x) {
        if StrLess(s[j], x) {
          StrLessTotal(s[0], x);
          if s[0] != x { StrLessTransitive(s[j], x, s[0]); }
        }
      }
    } else {
      InsertSorts(x, s[1..]);
      var r := Insert(x, s[1..]);
      assert s == [s[0]] + s[1..];
      forall j | 0 <= j < |r| ensures !StrLess(r[j], s[0]) {
        assert r[j] in multiset(r);
        if r[j] == x { StrLessAsymmetric(s[0], x); } else { assert r[j] in s[1..]; }
      }
    }
  }

  lemma {:induction false} SortSorts(s: seq<string>)
    ensures Sorted(Sort(s)) && multiset(Sort(s)) == multiset(s)
  {
    if s != [] {
      SortSorts(s[1..]);
      InsertSorts(s[0], Sort(s[1..]));
      assert s == [s[0]] + s[1..];
    }
  }

  lemma HeadIsLeast(s: seq<string>, x: string)
    requires Sorted(s) && x in s
    ensures !StrLess(x, s[0])
  {
    if x == s[0] { StrLessIrreflexive(x); }
  }

  lemma SortedTail(s: seq<string>)
    requires Sorted(s) && s != []
    ensures Sorted(s[1..]) && multiset(s[1..]) == multiset(s) - multiset{s[0]}
  {
    assert s == [s[0]] + s[1..];
    forall i, j | 0 <= i < j < |s[1..]| ensures !StrLess(s[1..][j], s[1..][i]) {
      assert s[1..][j] == s[j + 1] && s[1..][i] == s[i + 1];
    }
  }

  /** A sorted arrangement of a multiset of strings is unique. */
  lemma {:induction false} SortedUnique(a: seq<string>, b: seq<string>)
    requires Sorted(a) && Sorted(b) && multiset(a) == multiset(b)
    ensures a == b
    decreases |a|
  {
    assert |a| == |multiset(a)| == |multiset(b)| == |b|;
    if a != [] {
      var x, y := a[0], b[0];
      assert x in multiset(a) && y in multiset(b);
      assert x in b && y in a;
      HeadIsLeast(a, y);
      HeadIsLeast(b, x);
      StrLessTotal(x, y);
      SortedTail(a);
      SortedTail(b);
      SortedUnique(a[1..], b[1..]);
      assert a == [x] + a[1..] && b == [y] + b[1..];
    }
  }

  /** Sorting forgets the order the list was given in. */
  lemma SortIgnoresOrder(a: seq<string>, b: seq<string>)
    requires multiset(a) == multiset(b)
    ensures Sort(a) == Sort(b)
  {
    SortSorts(a);
    SortSorts(b);
    SortedUnique(Sort(a), Sort(b));
  }

  // ── trimming ──

  predicate IsSpace(c: char) {
    c == ' ' || ('\t' <= c <= '\r') || c == '\U{0085}' || c == '\U{00A0}' || c == '\U{1680}'
        || ('\U{2000}' <= c <= '\U{200A}')
    || c == '\U{2028}' || c == '\U{2029}' || c == '\U{202F}' || c == '\U{205F}' || c == '\U{3000}'
  }

  function TrimStart(s: string): (r: string) {
    if s != [] && IsSpace(s[0]) then TrimStart(s[1..]) else s
  }

  function TrimEnd(s: string): (r: string) {
    if s != [] && IsSpace(s[|s| - 1]) then TrimEnd(s[..|s| - 1]) else s
  }

  function Trim(s: string): (r: string) {
    TrimEnd(TrimStart(s))
  }

  predicate Blank(s: string) {
    forall c :: c in s ==> IsSpace(c)
  }

  /** t is s without the white space around it. */
  ghost predicate Bare(s: string, t: string) {
    && (exists pre, post :: s == pre + t + post && Blank(pre) && Blank(post))
    && (t != "" ==> !IsSpace(t[0]) && !IsSpace(t[|t| - 1]))
  }

  /** The characters of the White_Space property of Unicode. */
  const WHITE_SPACE :=
    "\t\n\U{b}\U{c}\r \U{85}\U{a0}\U{1680}\U{2000}\U{2001}\U{2002}\U{2003}\U{2004}\U{2005}"
    + "\U{2006}\U{2007}\U{2008}\U{2009}\U{200a}\U{2028}\U{2029}\U{202f}\U{205f}\U{3000}"

  lemma SpaceIffWhite(c: char)
    ensures IsSpace(c) <==> c in WHITE_SPACE
  {
  }

  lemma {:induction false} TrimStartCuts(s: string) returns (pre: string)
    ensures s == pre + TrimStart(s) && Blank(pre)
    ensures TrimStart(s) != "" ==> !IsSpace(TrimStart(s)[0])
  {
    hide IsSpace;
    pre := "";
    if s != [] && IsSpace(s[0]) {
      var rest := TrimStartCuts(s[1..]);
      pre := [s[0]] + rest;
    }
  }

  lemma {:induction false} TrimEndCuts(s: string) returns (post: string)
    ensures s == TrimEnd(s) + post && Blank(post)
    ensures TrimEnd(s) != "" ==> !IsSpace(TrimEnd(s)[|TrimEnd(s)| - 1])
  {
    hide IsSpace;
    post := "";
    if s != [] && IsSpace(s[|s| - 1]) {
      var rest := TrimEndCuts(s[..|s| - 1]);
      post := rest + [s[|s| - 1]];
    }
  }

  /** Trimming leaves what stands between the white space, and nothing else would do. */
  lemma TrimIsBare(s: string)
    ensures Bare(s, Trim(s))
  {
    hide IsSpace, Blank;
    var pre := TrimStartCuts(s);
    var mid := TrimStart(s);
    var post := TrimEndCuts(mid);
    assert s == pre + Trim(s) + post;
  }

  lemma TrimEmptyIffBlank(s: string)
    ensures Trim(s) == "" <==> Blank(s)
  {
    hide IsSpace;
    TrimIsBare(s);
    var t := Trim(s);
    hide Trim;
    var pre, post :| s == pre + t + post && Blank(pre) && Blank(post);
    if t != "" { assert t[0] in s; }
  }

  // ── uuids ──

  /** A uuid is a 128-bit number; its byte order is its numeric order. */
  type Uuid = n: nat | n < 0x1_0000_0000_0000_0000_0000_0000_0000_0000

  function HexDigit(d: nat): (c: char)
    requires d < 16
  {
    "0123456789abcdef"[d]
  }

  function Hex(n: nat, width: nat): (s: string)
    ensures |s| == width
  {
    if width == 0 then "" else Hex(n / 16, width - 1) + [HexDigit(n % 16)]
  }

  function Pow16(k: nat): (p: nat)
    ensures p > 0
  {
    if k == 0 then 1 else 16 * Pow16(k - 1)
  }

  lemma {:induction false} HexInjective(m: nat, n: nat, width: nat)
    requires m < Pow16(width) && n < Pow16(width)
    requires Hex(m, width) == Hex(n, width)
    ensures m == n
    decreases width
  {
    if width > 0 {
      var a, b := Hex(m / 16, width - 1), Hex(n / 16, width - 1);
      assert (a + [HexDigit(m % 16)])[..width - 1] == a;
      assert (b + [HexDigit(n % 16)])[..width - 1] == b;
      assert (a + [HexDigit(m % 16)])[width - 1] == (b + [HexDigit(n % 16)])[width - 1];
      assert m % 16 == n % 16;
      HexInjective(m / 16, n / 16, width - 1);
    }
  }

  /** The 8-4-4-4-12 form `Uuid::to_string` prints. */
  function UuidText(u: Uuid): (s: string)
    ensures |s| == 36
  {
    var h := Hex(u, 32);
    h[..8] + "-" + h[8..12] + "-" + h[12..16] + "-" + h[16..20] + "-" + h[20..]
  }

  lemma UuidTextInjective(a: Uuid, b: Uuid)
    requires UuidText(a) == UuidText(b)
    ensures a == b
  {
    var s, t := UuidText(a), UuidText(b);
    var h, k := Hex(a, 32), Hex(b, 32);
    assert h[..8] == s[..8] == t[..8] == k[..8];
    assert h[8..12] == s[9..13] == t[9..13] == k[8..12];
    assert h[12..16] == s[14..18] == t[14..18] == k[12..16];
    assert h[16..20] == s[19..23] == t[19..23] == k[16..20];
    assert h[20..] == s[24..] == t[24..] == k[20..];
    assert h == h[..8] + h[8..12] + h[12..16] + h[16..20] + h[20..];
    assert k == k[..8] + k[8..12] + k[12..16] + k[16..20] + k[20..];
    Pow16At32();
    HexInjective(a, b, 32);
  }

  lemma {:induction false} Pow16Splits(j: nat, k: nat)
    ensures Pow16(j + k) == Pow16(j) * Pow16(k)
  {
    if j > 0 {
      Pow16Splits(j - 1, k);
    }
  }

  // ── what the order and the text are ──

  /** Alike up to k, and there a ends or has the smaller character. */
  ghost predicate DifferAt(a: string, b: string, k: nat) {
    k <= |a| && k < |b| && a[..k] == b[..k] && (k == |a| || a[k] < b[k])
  }

  lemma DifferLater(a: string, b: string, k: nat)
    requires a != [] && b != [] && a[0] == b[0]
    ensures DifferAt(a[1..], b[1..], k) <==> DifferAt(a, b, k + 1)
  {
    if k < |a| && k + 1 < |b| {
      assert a[..k + 1] == [a[0]] + a[1..][..k] && b[..k + 1] == [b[0]] + b[1..][..k];
      assert a[1..][..k] == a[..k + 1][1..] && b[1..][..k] == b[..k + 1][1..];
    }
  }

  lemma DifferFirst(a: string, b: string, k: nat)
    requires DifferAt(a, b, k)
    ensures k > 0 ==> a[0] == b[0]
  {
    if k > 0 { assert a[0] == a[..k][0] && b[0] == b[..k][0]; }
  }

  lemma {:induction false} StrLessIs(a: string, b: string)
    ensures StrLess(a, b) <==> exists k: nat :: DifferAt(a, b, k)
    decreases a
  {
    if k: nat :| DifferAt(a, b, k) { DifferFirst(a, b, k); }
    if a != [] && b != [] && a[0] == b[0] {
      StrLessIs(a[1..], b[1..]);
      if k: nat :| DifferAt(a[1..], b[1..], k) { DifferLater(a, b, k); }
      if k: nat :| DifferAt(a, b, k) {
        if k > 0 { DifferLater(a, b, k - 1); }
      }
    } else if StrLess(a, b) {
      assert DifferAt(a, b, 0);
    }
  }

  function DigitValue(c: char): (d: int) {
    if '0' <= c <= '9' then c as int - '0' as int else c as int - 'a' as int + 10
  }

  function ReadHex(s: string): (n: int) {
    if s == "" then 0 else 16 * ReadHex(s[..|s| - 1]) + DigitValue(s[|s| - 1])
  }

  lemma DigitsRead(d: nat)
    requires d < 16
    ensures DigitValue(HexDigit(d)) == d && (d >= 10 ==> HexDigit(d) in "abcdef")
  {
  }

  lemma {:induction false} HexReads(n: nat, width: nat)
    requires n < Pow16(width)
    ensures ReadHex(Hex(n, width)) == n
    decreases width
  {
    if width > 0 {
      HexReads(n / 16, width - 1);
      DigitsRead(n % 16);
      var h := Hex(n / 16, width - 1);
      assert Hex(n, width)[..width - 1] == h && Hex(n, width)[width - 1] == HexDigit(n % 16);
      hide Hex, HexDigit, DigitValue;
      assert Hex(n, width) != "";
    }
  }

  /** A UUID'S TEXT: thirty-two digits, the number they read as in base sixteen, in groups of 8, 4, 4, 4 and 12. */
  lemma UuidTextIs(u: Uuid)
    ensures var s := UuidText(u);
            && s[8] == s[13] == s[18] == s[23] == '-'
            && ReadHex(s[..8] + s[9..13] + s[14..18] + s[19..23] + s[24..]) == u
  {
    var s := UuidText(u);
    var h := Hex(u, 32);
    hide Hex, ReadHex, Pow16;
    assert s[..8] == h[..8] && s[9..13] == h[8..12] && s[14..18] == h[12..16] && s[19..23] == h[16..20]
        && s[24..] == h[20..];
    assert h == h[..8] + h[8..12] + h[12..16] + h[16..20] + h[20..];
    Pow16At32();
    HexReads(u, 32);
  }

  lemma Pow16At32()
    ensures Pow16(32) == 0x1_0000_0000_0000_0000_0000_0000_0000_0000
  {
    assert Pow16(8) == 0x1_0000_0000;
    Pow16Splits(8, 8);
    Pow16Splits(16, 16);
  }
}
