/** Text helpers shared by the other modules: whitespace trimming, number and identifier
    formatting, and comma joining, each with the fact that makes it usable as an identity. */
module Text {

  // ---------------------------------------------------------------------------------------
  // Trimming
  // ---------------------------------------------------------------------------------------

  /** The characters Go's unicode.IsSpace accepts. */
  predicate IsSpace(c: char) {
    '\t' <= c <= '\r' || c == ' ' || c == '\U{0085}' || c == '\U{00A0}' || c == '\U{1680}'
    || '\U{2000}' <= c <= '\U{200A}' || c == '\U{2028}' || c == '\U{2029}' || c == '\U{202F}'
    || c == '\U{205F}' || c == '\U{3000}'
  }

  function TrimLeft(s: string): string {
    if s != [] && IsSpace(s[0]) then TrimLeft(s[1..]) else s
  }

  function TrimRight(s: string): string {
    if s != [] && IsSpace(s[|s| - 1]) then TrimRight(s[..|s| - 1]) else s
  }

  function Trim(s: string): string {
    TrimRight(TrimLeft(s))
  }

  lemma {:induction false} TrimRightKeepsHead(s: string)
    requires s != [] && !IsSpace(s[0])
    ensures TrimRight(s) != [] && !IsSpace(TrimRight(s)[0])
    ensures !IsSpace(TrimRight(s)[|TrimRight(s)| - 1])
  {
    if IsSpace(s[|s| - 1]) {
      TrimRightKeepsHead(s[..|s| - 1]);
    }
  }

  lemma {:induction false} TrimLeftStops(s: string)
    ensures TrimLeft(s) == [] || !IsSpace(TrimLeft(s)[0])
  {
    if s != [] && IsSpace(s[0]) {
      TrimLeftStops(s[1..]);
    }
  }

  /** Trimming twice is trimming once, so a key that was trimmed before it is looked up is the key
      the lookup itself would compute. */
  lemma TrimIdempotent(s: string)
    ensures Trim(Trim(s)) == Trim(s)
  {
    TrimLeftStops(s);
    if TrimLeft(s) != [] {
      TrimRightKeepsHead(TrimLeft(s));
    }
  }

  lemma TrimUnpadded(s: string)
    requires s != "" && !IsSpace(s[0]) && !IsSpace(s[|s| - 1])
    ensures Trim(s) == s
  {
  }

  predicate AllSpace(s: string) {
    forall c :: c in s ==> IsSpace(c)
  }

  lemma {:induction false} TrimLeftDrops(s: string) returns (front: string)
    ensures AllSpace(front) && s == front + TrimLeft(s)
  {
    if s != [] && IsSpace(s[0]) {
      var rest := TrimLeftDrops(s[1..]);
      front := [s[0]] + rest;
    } else {
      front := [];
    }
  }

  lemma {:induction false} TrimRightDrops(s: string) returns (back: string)
    ensures AllSpace(back) && s == TrimRight(s) + back
    ensures TrimRight(s) == [] || !IsSpace(TrimRight(s)[|TrimRight(s)| - 1])
  {
    if s != [] && IsSpace(s[|s| - 1]) {
      var rest := TrimRightDrops(s[..|s| - 1]);
      back := rest + [s[|s| - 1]];
    } else {
      back := [];
    }
  }

  /** Trimming takes the blanks off both ends and nothing else: what is left neither starts nor ends with
      one. */
  lemma TrimMeans(s: string) returns (front: string, back: string)
    ensures s == front + Trim(s) + back && AllSpace(front) && AllSpace(back)
    ensures Trim(s) == [] || (!IsSpace(Trim(s)[0]) && !IsSpace(Trim(s)[|Trim(s)| - 1]))
  {
    front := TrimLeftDrops(s);
    back := TrimRightDrops(TrimLeft(s));
    TrimLeftStops(s);
    if TrimLeft(s) != [] {
      TrimRightKeepsHead(TrimLeft(s));
    }
  }

  /** The blanks of ASCII, and some of the characters that are none. */
  lemma AsciiBlanks(c: char)
    requires c < '\U{0080}'
    ensures IsSpace(c) <==> c == ' ' || c == '\t' || c == '\n' || c == '\U{000B}' || c == '\U{000C}' || c == '\r'
  {
  }

  // ---------------------------------------------------------------------------------------
  // Case folding against an ASCII lower-case text
  // ---------------------------------------------------------------------------------------

  /** Simple case folding onto lower-case ASCII: A-Z, and the two non-ASCII characters that fold
      to an ASCII letter (long s and the Kelvin sign). */
  function FoldChar(c: char): char {
    if 'A' <= c <= 'Z' then (c as int + 32) as char
    else if c == '\U{017F}' then 's'
    else if c == '\U{212A}' then 'k'
    else c
  }

  function Fold(s: string): string {
    seq(|s|, i requires 0 <= i < |s| => FoldChar(s[i]))
  }

  /** Against a digest in lower-case hexadecimal, folding forgives capital letters and nothing else. */
  lemma FoldMeans(text: string, digest: string)
    requires forall c :: c in digest ==> '0' <= c <= '9' || 'a' <= c <= 'f'
    ensures Fold(text) == Fold(digest)
       <==> |text| == |digest|
            && forall i :: 0 <= i < |text| ==>
                 text[i] == digest[i] || ('A' <= text[i] <= 'F' && text[i] as int + 32 == digest[i] as int)
  {
    if Fold(text) == Fold(digest) {
      assert |Fold(text)| == |text| && |Fold(digest)| == |digest|;
      forall i | 0 <= i < |text|
        ensures text[i] == digest[i] || ('A' <= text[i] <= 'F' && text[i] as int + 32 == digest[i] as int)
      {
        assert digest[i] in digest;
        assert Fold(text)[i] == FoldChar(text[i]) && Fold(digest)[i] == FoldChar(digest[i]);
      }
    } else if |text| == |digest| {
      var i :| 0 <= i < |text| && Fold(text)[i] != Fold(digest)[i];
      assert digest[i] in digest;
    }
  }

  // ---------------------------------------------------------------------------------------
  // Numbers in a positional notation
  // ---------------------------------------------------------------------------------------

  const DIGITS: string := "0123456789abcdef"

  function DigitValue(c: char): nat {
    if '0' <= c <= '9' then c as int - '0' as int
    else if 'a' <= c <= 'f' then c as int - 'a' as int + 10
    else 0
  }

  predicate IsDigit(c: char) {
    '0' <= c <= '9' || 'a' <= c <= 'f'
  }

  lemma DigitRoundTrip(d: nat)
    requires d < 16
    ensures DigitValue(DIGITS[d]) == d && IsDigit(DIGITS[d])
  {
  }

  /** The two notations in use. */
  predicate IsBase(base: nat) {
    base == 10 || base == 16
  }

  function Quotient(n: nat, base: nat): (q: nat)
    requires IsBase(base)
    ensures n >= base ==> q < n
  {
    if base == 10 then n / 10 else n / 16
  }

  function Remainder(n: nat, base: nat): (r: nat)
    requires IsBase(base)
    ensures r < base
  {
    if base == 10 then n % 10 else n % 16
  }

  function Shifted(n: nat, base: nat): nat {
    if base == 10 then 10 * n else 16 * n
  }

  /** n written in base `base`, most significant digit first, at least one digit. */
  function Numeral(n: nat, base: nat): (s: string)
    requires IsBase(base)
    ensures s != [] && forall c :: c in s ==> IsDigit(c)
  {
    DigitRoundTrip(Remainder(n, base));
    if n < base then [DIGITS[n]] else Numeral(Quotient(n, base), base) + [DIGITS[Remainder(n, base)]]
  }

  /** Reads a numeral, skipping any character that is not a digit. */
  function Value(s: string, base: nat): nat {
    if s == [] then 0
    else
      var high := Value(s[..|s| - 1], base);
      var c := s[|s| - 1];
      if IsDigit(c) then Shifted(high, base) + DigitValue(c) else high
  }

  lemma DigitsReadBack(n: nat, digits: string, base: nat, r: nat)
    requires IsBase(base) && r < base && n == Shifted(Value(digits, base), base) + r
    ensures Value(digits + [DIGITS[r]], base) == n
  {
    DigitRoundTrip(r);
    assert (digits + [DIGITS[r]])[..|digits|] == digits;
  }

  lemma {:induction false} NumeralRoundTrip(n: nat, base: nat)
    requires IsBase(base)
    ensures Value(Numeral(n, base), base) == n
  {
    if n < base {
      DigitsReadBack(n, "", base, n);
      assert "" + [DIGITS[n]] == [DIGITS[n]];
    } else {
      NumeralRoundTrip(Quotient(n, base), base);
      DigitsReadBack(n, Numeral(Quotient(n, base), base), base, Remainder(n, base));
    }
  }

  // ---------------------------------------------------------------------------------------
  // Identifiers
  // ---------------------------------------------------------------------------------------

  /** Thirty-two hexadecimal digits (more only past 128 bits, which no identifier reaches). */
  function Hex32(id: nat): (s: string)
    ensures |s| >= 32 && forall c :: c in s ==> IsDigit(c)
  {
    var h := Numeral(id, 16);
    seq(if |h| < 32 then 32 - |h| else 0, _ => '0') + h
  }

  /** The canonical text of a UUID, whose sixteen bytes are read as one big-endian number. */
  function UuidText(id: nat): string {
    var h := Hex32(id);
    h[..8] + "-" + h[8..12] + "-" + h[12..16] + "-" + h[16..20] + "-" + h[20..]
  }

  lemma {:induction false} ValueSkips(a: string, mid: string, b: string, base: nat)
    requires forall c :: c in mid ==> !IsDigit(c)
    ensures Value(a + mid + b, base) == Value(a + b, base)
    decreases |b|, |mid|
  {
    if b == [] {
      assert a + b == a && a + mid + b == a + mid;
      if mid == [] {
        assert a + mid == a;
      } else {
        assert (a + mid)[..|a + mid| - 1] == a + mid[..|mid| - 1] + [];
        ValueSkips(a, mid[..|mid| - 1], [], base);
        assert a + [] == a;
      }
    } else {
      var init := b[..|b| - 1];
      assert (a + mid + b)[..|a + mid + b| - 1] == a + mid + init;
      assert (a + b)[..|a + b| - 1] == a + init;
      ValueSkips(a, mid, init, base);
    }
  }

  lemma {:induction false} ValueOfZeros(k: nat, s: string, base: nat)
    ensures Value(seq(k, _ => '0') + s, base) == Value(s, base)
    decreases |s|, k
  {
    var zeros := seq(k, _ => '0');
    if s == [] {
      assert zeros + s == zeros;
      if k > 0 {
        assert zeros[..k - 1] == seq(k - 1, _ => '0') == seq(k - 1, _ => '0') + s;
        ValueOfZeros(k - 1, s, base);
      }
    } else {
      assert (zeros + s)[..k + |s| - 1] == zeros + s[..|s| - 1];
      ValueOfZeros(k, s[..|s| - 1], base);
    }
  }

  lemma DropDash(a: string, b: string)
    ensures Value(a + "-" + b, 16) == Value(a + b, 16)
  {
    ValueSkips(a, "-", b, 16);
  }

  lemma Hex32RoundTrip(id: nat)
    ensures Value(Hex32(id), 16) == id
  {
    var n := Numeral(id, 16);
    NumeralRoundTrip(id, 16);
    ValueOfZeros(if |n| < 32 then 32 - |n| else 0, n, 16);
  }

  lemma Regroup(a: string, b: string, c: string, d: string, e: string)
    ensures Value(a + "-" + b + "-" + c + "-" + d + "-" + e, 16) == Value(a + b + c + d + e, 16)
  {
    DropDash(a + "-" + b + "-" + c + "-" + d, e);
    assert a + "-" + b + "-" + c + "-" + d + e == a + "-" + b + "-" + c + "-" + (d + e);
    DropDash(a + "-" + b + "-" + c, d + e);
    assert a + "-" + b + "-" + c + (d + e) == a + "-" + b + "-" + (c + (d + e));
    DropDash(a + "-" + b, c + (d + e));
    assert a + "-" + b + (c + (d + e)) == a + "-" + (b + (c + (d + e)));
    DropDash(a, b + (c + (d + e)));
    assert a + (b + (c + (d + e))) == a + b + c + d + e;
  }

  lemma UuidRoundTrip(id: nat)
    ensures Value(UuidText(id), 16) == id
  {
    var h := Hex32(id);
    Hex32RoundTrip(id);
    Regroup(h[..8], h[8..12], h[12..16], h[16..20], h[20..]);
    assert h[..8] + h[8..12] + h[12..16] + h[16..20] + h[20..] == h;
  }

  lemma UuidTextPlain(id: nat, c: char)
    requires c in UuidText(id)
    ensures IsDigit(c) || c == '-'
  {
    var h := Hex32(id);
    var a, b, d, e, f := h[..8], h[8..12], h[12..16], h[16..20], h[20..];
    assert c in a || c in b || c in d || c in e || c in f || c == '-';
    assert c != '-' ==> c in h;
  }

  /** Two identifiers with the same text are the same identifier. */
  lemma UuidTextInjective(a: nat, b: nat)
    requires UuidText(a) == UuidText(b)
    ensures a == b
  {
    UuidRoundTrip(a);
    UuidRoundTrip(b);
  }

  lemma HexOneMore(n: nat, digits: string, d: nat, c: char)
    requires n > 0 && d < 16 && Numeral(n, 16) == digits && DIGITS[d] == c
    ensures Numeral(16 * n + d, 16) == digits + [c]
  {
    assert (16 * n + d) / 16 == n && (16 * n + d) % 16 == d;
  }

  function Power16(k: nat): nat {
    if k == 0 then 1 else 16 * Power16(k - 1)
  }

  lemma {:induction false} NumeralLength(n: nat, digits: nat)
    requires digits > 0 && n < Power16(digits)
    ensures |Numeral(n, 16)| <= digits
  {
    if n >= 16 {
      NumeralLength(n / 16, digits - 1);
    }
  }

  /** Where character i of the text stands among the digits. */
  lemma UuidTextAt(id: nat, i: nat)
    requires |Hex32(id)| == 32 && i < 36
    ensures |UuidText(id)| == 36
    ensures if i == 8 || i == 13 || i == 18 || i == 23 then UuidText(id)[i] == '-' else UuidText(id)[i] in Hex32(id)
  {
    var h := Hex32(id);
    var a, b, c, d, e := h[..8], h[8..12], h[12..16], h[16..20], h[20..];
    assert UuidText(id) == a + "-" + b + "-" + c + "-" + d + "-" + e;
    if i < 8 {
      assert UuidText(id)[i] == h[i];
    } else if 8 < i < 13 {
      assert UuidText(id)[i] == h[i - 1];
    } else if 13 < i < 18 {
      assert UuidText(id)[i] == h[i - 2];
    } else if 18 < i < 23 {
      assert UuidText(id)[i] == h[i - 3];
    } else if 23 < i {
      assert UuidText(id)[i] == h[i - 4];
    }
  }

  /** The text of an identifier of 128 bits: lower-case hexadecimal digits in groups of 8, 4, 4, 4 and 12,
      which read together give the number back. */
  lemma UuidTextMeans(id: nat)
    requires id < Power16(32)
    ensures |UuidText(id)| == 36 && Value(UuidText(id), 16) == id
    ensures forall i :: 0 <= i < 36 ==>
              var c := UuidText(id)[i];
              if i == 8 || i == 13 || i == 18 || i == 23 then c == '-' else '0' <= c <= '9' || 'a' <= c <= 'f'
  {
    NumeralLength(id, 32);
    UuidRoundTrip(id);
    UuidTextAt(id, 0);
    forall i | 0 <= i < 36
      ensures var c := UuidText(id)[i];
              if i == 8 || i == 13 || i == 18 || i == 23 then c == '-' else '0' <= c <= '9' || 'a' <= c <= 'f'
    {
      UuidTextAt(id, i);
    }
  }

  lemma DeadBeef()
    ensures Numeral(0xdead_beef, 16) == "deadbeef"
  {
    assert Numeral(0xd, 16) == "d";
    HexOneMore(0xd, "d", 0xe, 'e');
    HexOneMore(0xde, "de", 0xa, 'a');
    HexOneMore(0xdea, "dea", 0xd, 'd');
    HexOneMore(0xdead, "dead", 0xb, 'b');
    HexOneMore(0xdeadb, "deadb", 0xe, 'e');
    HexOneMore(0xdeadbe, "deadbe", 0xe, 'e');
    HexOneMore(0xdeadbee, "deadbee", 0xf, 'f');
  }

  lemma Grouped(h: string, a: string, b: string, c: string, d: string, e: string)
    requires h == a + b + c + d + e && |a| == 8 && |b| == |c| == |d| == 4
    ensures h[..8] == a && h[8..12] == b && h[12..16] == c && h[16..20] == d && h[20..] == e
  {
  }

  lemma PaddedDeadBeef()
    ensures Hex32(0xdead_beef) == "00000000" + "0000" + "0000" + "0000" + "0000deadbeef"
  {
    DeadBeef();
  }

  /** The most significant digit comes first, and short numbers are filled up with zeros. */
  lemma UuidTextExample()
    ensures UuidText(0xdead_beef) == "00000000" + "-" + "0000" + "-" + "0000" + "-" + "0000" + "-" + "0000deadbeef"
  {
    PaddedDeadBeef();
    Grouped(Hex32(0xdead_beef), "00000000", "0000", "0000", "0000", "0000deadbeef");
  }

  function Decimal(n: nat): string {
    Numeral(n, 10)
  }

  // ---------------------------------------------------------------------------------------
  // Joining
  // ---------------------------------------------------------------------------------------

  function Join(parts: seq<string>, sep: char): string {
    if parts == [] then ""
    else if |parts| == 1 then parts[0]
    else parts[0] + [sep] + Join(parts[1..], sep)
  }

  /** One more part at the end of a list. */
  lemma {:induction false} JoinOneMore(parts: seq<string>, part: string, sep: char)
    requires parts != []
    ensures Join(parts + [part], sep) == Join(parts, sep) + [sep] + part
  {
    if |parts| == 1 {
      assert (parts + [part])[1..] == [part] && (parts + [part])[0] == parts[0];
    } else {
      assert (parts + [part])[1..] == parts[1..] + [part] && (parts + [part])[0] == parts[0];
      JoinOneMore(parts[1..], part, sep);
      assert parts[0] + [sep] + (Join(parts[1..], sep) + [sep] + part)
          == (parts[0] + [sep] + Join(parts[1..], sep)) + [sep] + part;
    }
  }

  /** Splitting a text at its first separator is unambiguous. */
  lemma SplitUnique(a: string, b: string, x: string, y: string, sep: char)
    requires sep !in a && sep !in b
    requires a + [sep] + x == b + [sep] + y
    ensures a == b && x == y
  {
    var s := a + [sep] + x;
    assert s[|a|] == sep && s[|b|] == sep;
    assert forall i | 0 <= i < |a| :: s[i] == a[i] && a[i] != sep;
    assert forall i | 0 <= i < |b| :: s[i] == b[i] && b[i] != sep;
    assert |a| == |b|;
    assert a == s[..|a|] == b;
    assert x == s[|a| + 1..] == y;
  }

  /** Parts that can be joined by sep and told apart again. */
  predicate Plain(parts: seq<string>, sep: char) {
    forall i :: 0 <= i < |parts| ==> sep !in parts[i] && parts[i] != ""
  }

  lemma JoinHead(p: seq<string>, sep: char)
    requires p != [] && Plain(p, sep)
    ensures Join(p, sep) != ""
    ensures sep in Join(p, sep) <==> |p| > 1
    ensures |p| > 1 ==> Join(p, sep) == p[0] + [sep] + Join(p[1..], sep)
  {
    if |p| > 1 {
      assert (p[0] + [sep] + Join(p[1..], sep))[|p[0]|] == sep;
    }
  }

  /** A joined list of non-empty, separator-free parts determines the list. */
  lemma {:induction false} JoinInjective(p: seq<string>, q: seq<string>, sep: char)
    requires Plain(p, sep) && Plain(q, sep) && Join(p, sep) == Join(q, sep)
    ensures p == q
  {
    if p != [] { JoinHead(p, sep); }
    if q != [] { JoinHead(q, sep); }
    if |p| > 1 && |q| > 1 {
      SplitUnique(p[0], q[0], Join(p[1..], sep), Join(q[1..], sep), sep);
      JoinInjective(p[1..], q[1..], sep);
      assert p == [p[0]] + p[1..] && q == [q[0]] + q[1..];
    }
  }
}
