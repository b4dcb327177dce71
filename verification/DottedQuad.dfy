/** Reading a dotted-quad address the way the switch and the hardware receiver do: four calls
    of `strtoul` (section 7.22.1.4 of ISO/IEC 9899:2011), each starting one character after
    the end of the previous number. */
module DottedQuad {
  import opened Digits

  const ULONG_LIMIT := 0x1_0000_0000_0000_0000

  predicate IsSpace(c: char) {
    c == ' ' || c == '\t' || c == '\n' || c == '\r' || c as int == 11 || c as int == 12
  }

  function SkipSpace(s: string, pos: nat): (p: nat)
    requires pos <= |s|
    ensures pos <= p <= |s|
    decreases |s| - pos
  {
    if pos < |s| && IsSpace(s[pos]) then SkipSpace(s, pos + 1) else pos
  }

  function SkipDigits(s: string, pos: nat): (p: nat)
    requires pos <= |s|
    ensures pos <= p <= |s| && forall i :: pos <= i < p ==> IsDigit(s[i])
    ensures p < |s| ==> !IsDigit(s[p])
    decreases |s| - pos
  {
    if pos < |s| && IsDigit(s[pos]) then SkipDigits(s, pos + 1) else pos
  }

  predicate AllDigits(s: string) { forall i :: 0 <= i < |s| ==> IsDigit(s[i]) }

  /** The value of a string of decimal digits. */
  function Decimal(digits: string): nat
    requires AllDigits(digits)
  {
    if digits == "" then 0
    else
      var n := |digits| - 1;
      10 * Decimal(digits[..n]) + Value(digits[n])
  }

  /** The value and the position where reading stopped: white space, a sign and digits; with
      no digits the value is zero and nothing has been read; a value out of range saturates,
      and a minus sign negates modulo the range. */
  function Strtoul(s: string, pos: nat): (r: (nat, nat))
    requires pos <= |s|
    ensures pos <= r.1 <= |s|
  {
    var p := SkipSpace(s, pos);
    var q := if p < |s| && (s[p] == '+' || s[p] == '-') then p + 1 else p;
    var e := SkipDigits(s, q);
    if e == q then (0, pos)
    else
      var v := Decimal(s[q..e]);
      if v >= ULONG_LIMIT then (ULONG_LIMIT - 1, e)
      else if s[p] == '-' then ((ULONG_LIMIT - v) % ULONG_LIMIT, e)
      else (v, e)
  }

  /** The next `count` numbers, as bytes, each read one character after the end of the one
      before.  Fewer: the text ends before a separator, and the code would read beyond it. */
  function ReadBytes(s: string, pos: nat, count: nat): (bytes: seq<nat>)
    requires pos <= |s| && count > 0
    ensures 0 < |bytes| <= count
    decreases count
  {
    var (n, end) := Strtoul(s, pos);
    [n % 256] + if count == 1 || end == |s| then [] else ReadBytes(s, end + 1, count - 1)
  }

  /** The value of bytes, most significant first. */
  function Word(bytes: seq<nat>): nat {
    if bytes == [] then 0 else Word(bytes[..|bytes| - 1]) * 256 + bytes[|bytes| - 1]
  }

  lemma ReadStep(s: string, pos: nat, count: nat, n: nat, end: nat)
    requires pos <= |s| && count > 0 && Strtoul(s, pos) == (n, end)
    ensures end <= |s|
    ensures count == 1 || end == |s| ==> ReadBytes(s, pos, count) == [n % 256]
    ensures count > 1 && end < |s| ==> ReadBytes(s, pos, count) == [n % 256] + ReadBytes(s, end + 1, count - 1)
  {
    hide Strtoul;
  }

  /** The address as the code stores it: byte i of a little-endian word.  If the text ends too
      early, the bytes read so far are in place. */
  method ReadAddress(s: string) returns (bytes: array<nat>, ok: bool)
    ensures fresh(bytes) && bytes.Length == 4
    ensures var r := ReadBytes(s, 0, 4);
            (ok <==> |r| == 4) && forall i :: 0 <= i < |r| ==> bytes[3 - i] == r[i]
  {
    hide Strtoul, ReadBytes;
    bytes := new nat[4](_ => 0);
    ok := false;
    var (a, end) := Strtoul(s, 0);
    ReadStep(s, 0, 4, a, end);
    bytes[3] := a % 256;
    if end == |s| {
      return;
    }
    var (b, end2) := Strtoul(s, end + 1);
    ReadStep(s, end + 1, 3, b, end2);
    bytes[2] := b % 256;
    if end2 == |s| {
      return;
    }
    var (c, end3) := Strtoul(s, end2 + 1);
    ReadStep(s, end2 + 1, 2, c, end3);
    bytes[1] := c % 256;
    if end3 == |s| {
      return;
    }
    var (d, end4) := Strtoul(s, end3 + 1);
    ReadStep(s, end3 + 1, 1, d, end4);
    bytes[0] := d % 256;
    ok := true;
  }

  // ---------- What is read, other than printed numbers ----------

  /** Whether a text has only digits from one position to another. */
  ghost predicate DigitsBetween(s: string, i: nat, j: nat) {
    i <= j <= |s| && forall k :: i <= k < j ==> '0' <= s[k] <= '9'
  }

  lemma {:induction false} SkipSpaceTo(s: string, pos: nat, p: nat)
    requires pos <= p <= |s| && (forall k :: pos <= k < p ==> s[k] in {' ', '\t', '\n', '\r', '\U{000B}', '\U{000C}'})
    requires p < |s| ==> s[p] !in {' ', '\t', '\n', '\r', '\U{000B}', '\U{000C}'}
    ensures SkipSpace(s, pos) == p
    decreases p - pos
  {
    if pos < p {
      SkipSpaceTo(s, pos + 1, p);
    }
  }

  /** White space, then a sign or none, then at least one digit: the value is that of the digits,
      negated modulo 2^64 after a minus sign, and the greatest value if they are too large;
      reading stops behind the digits. */
  lemma StrtoulIs(s: string, pos: nat, p: nat, q: nat, e: nat)
    requires pos <= p <= q < e <= |s| && DigitsBetween(s, q, e) && (e < |s| ==> !('0' <= s[e] <= '9'))
    requires forall k :: pos <= k < p ==> s[k] in {' ', '\t', '\n', '\r', '\U{000B}', '\U{000C}'}
    requires q == p || (q == p + 1 && (s[p] == '+' || s[p] == '-'))
    ensures var v := Decimal(s[q..e]);
            Strtoul(s, pos) ==
            (if v >= 0x1_0000_0000_0000_0000 then 0xFFFF_FFFF_FFFF_FFFF
             else if q > p && s[p] == '-' && v > 0 then 0x1_0000_0000_0000_0000 - v
             else v,
             e)
  {
    SkipSpaceTo(s, pos, p);
    SkipDigitsTo(s, q, e);
    hide Decimal, SkipSpace, SkipDigits;
  }

  /** With no digit in that place nothing is read. */
  lemma StrtoulReadsNothing(s: string, pos: nat, p: nat, q: nat)
    requires pos <= p <= q <= |s| && (q < |s| ==> !('0' <= s[q] <= '9'))
    requires forall k :: pos <= k < p ==> s[k] in {' ', '\t', '\n', '\r', '\U{000B}', '\U{000C}'}
    requires if q == p then p < |s| ==> s[p] !in {' ', '\t', '\n', '\r', '\U{000B}', '\U{000C}', '+', '-'}
             else q == p + 1 && (s[p] == '+' || s[p] == '-')
    ensures Strtoul(s, pos) == (0, pos)
  {
    SkipSpaceTo(s, pos, p);
    SkipDigitsTo(s, q, q);
    hide Decimal, SkipSpace, SkipDigits;
  }

  /** Digits are decimal, the most significant first. */
  lemma DecimalIs(digits: string, c: char)
    requires AllDigits(digits) && '0' <= c <= '9'
    ensures AllDigits(digits + [c]) && Decimal(digits + [c]) == 10 * Decimal(digits) + (c as int - 48)
    ensures Decimal("") == 0
  {
    assert (digits + [c])[..|digits|] == digits;
  }

  /** The parts of an address are bytes of a word, the first one the most significant. */
  lemma WordIs(a: nat, b: nat, c: nat, d: nat)
    ensures Word([a, b, c, d]) == 0x100_0000 * a + 0x1_0000 * b + 0x100 * c + d
  {
    assert [a, b, c, d][..3] == [a, b, c] && [a, b, c][..2] == [a, b] && [a, b][..1] == [a] && [a][..0] == [];
    assert Word([a]) == a;
    assert Word([a, b]) == 0x100 * a + b;
    assert Word([a, b, c]) == 0x100 * Word([a, b]) + c;
  }

  // ---------- Printing ----------

  function Print(n: nat): (s: string)
    ensures s != "" && AllDigits(s)
  {
    var last := [Digit(n % 10)];
    if n < 10 then last else Print(n / 10) + last
  }

  /** Numbers separated by dots. */
  function PrintDotted(bytes: seq<nat>): string {
    if bytes == [] then ""
    else if |bytes| == 1 then Print(bytes[0])
    else Print(bytes[0]) + "." + PrintDotted(bytes[1..])
  }

  /** The bytes of a 32-bit address, most significant first. */
  function BytesOf(a: nat): seq<nat> {
    [a / 0x100_0000 % 256, a / 0x1_0000 % 256, a / 0x100 % 256, a % 256]
  }

  lemma {:induction false} DecimalOfPrint(n: nat)
    ensures Decimal(Print(n)) == n
  {
    var s := Print(n);
    ValueOfDigit(n % 10);
    if n < 10 {
      assert s[..0] == "";
    } else {
      DecimalOfPrint(n / 10);
      assert s[..|s| - 1] == Print(n / 10);
    }
  }

  lemma {:induction false} SkipDigitsTo(s: string, pos: nat, end: nat)
    requires pos <= end <= |s| && AllDigits(s[pos..end]) && (end < |s| ==> !IsDigit(s[end]))
    ensures SkipDigits(s, pos) == end
    decreases end - pos
  {
    if pos < end {
      assert s[pos] == s[pos..end][0];
      assert s[pos + 1..end] == s[pos..end][1..];
      SkipDigitsTo(s, pos + 1, end);
    }
  }

  /** `strtoul` reads a printed number that is not followed by a digit, and stops after it. */
  lemma StrtoulReadsPrint(before: string, n: nat, after: string)
    requires n < ULONG_LIMIT && (after != "" ==> !IsDigit(after[0]))
    ensures Strtoul(before + Print(n) + after, |before|) == (n, |before| + |Print(n)|)
  {
    var s := before + Print(n) + after;
    var pos, end := |before|, |before| + |Print(n)|;
    DecimalOfPrint(n);
    hide Decimal, Print;
    assert s[pos..end] == Print(n);
    assert s[pos] == Print(n)[0];
    SkipDigitsTo(s, pos, end);
    hide SkipDigits;
    assert SkipSpace(s, pos) == pos;
  }

  lemma WordOfBytes(a: nat)
    requires a < 0x1_0000_0000
    ensures Word(BytesOf(a)) == a
  {
    var bs := BytesOf(a);
    var x, y := a / 0x100, a / 0x1_0000;
    assert x == 256 * y + x % 256;
    assert a / 0x100_0000 == y / 256 && y == 256 * (y / 256) + y % 256;
    assert bs[..3][..2] == bs[..2] && bs[..2][..1] == bs[..1] && bs[..1][..0] == [];
    assert Word(bs[..1]) == y / 256;
    assert Word(bs[..2]) == y;
    assert Word(bs[..3]) == x;
  }

  /** Reading inverts printing for any list of bytes, wherever it starts. */
  lemma {:induction false} ReadsPrinted(before: string, bytes: seq<nat>)
    requires bytes != [] && forall i :: 0 <= i < |bytes| ==> bytes[i] < 256
    ensures ReadBytes(before + PrintDotted(bytes), |before|, |bytes|) == bytes
    decreases |bytes|
  {
    hide Strtoul, ReadBytes, Print;
    var b, rest := bytes[0], bytes[1..];
    assert bytes == [b] + rest;
    var s := before + PrintDotted(bytes);
    var end := |before| + |Print(b)|;
    if rest == [] {
      StrtoulReadsPrint(before, b, "");
      assert s == before + Print(b) + "";
      ReadStep(s, |before|, 1, b, end);
      assert bytes == [b];
    } else {
      StrtoulReadsPrint(before, b, "." + PrintDotted(rest));
      assert s == before + Print(b) + ("." + PrintDotted(rest));
      ReadStep(s, |before|, |bytes|, b, end);
      ReadsPrinted(before + Print(b) + ".", rest);
      assert s == before + Print(b) + "." + PrintDotted(rest);
    }
  }

  /** The reader inverts decimal dotted-quad printing, for every 32-bit address. */
  lemma ReadsPrintedAddress(a: nat)
    requires a < 0x1_0000_0000
    ensures var r := ReadBytes(PrintDotted(BytesOf(a)), 0, 4);
            |r| == 4 && Word(r) == a
  {
    var bs := BytesOf(a);
    ReadsPrinted("", bs);
    assert "" + PrintDotted(bs) == PrintDotted(bs);
    WordOfBytes(a);
  }
}
