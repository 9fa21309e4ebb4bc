/** The string routines of the Go standard library that the repository's code relies on. */
module Text {
  datatype Parsed = Number(value: int) | Malformed

  function Digit(d: nat): char
    requires d < 10
  {
    '0' + d as char
  }

  function IsDigit(c: char): bool {
    '0' <= c <= '9'
  }

  /** strconv.FormatInt in base 10; also what "%d" and, for whole numbers, "%.0f" print. */
  function Decimal(n: int): string
    decreases n < 0, if n < 0 then -n else n
  {
    if n < 0 then "-" + Decimal(-n)
    else if n < 10 then [Digit(n)]
    else Decimal(n / 10) + [Digit(n % 10)]
  }

  predicate AllDigits(s: string) {
    forall i :: 0 <= i < |s| ==> IsDigit(s[i])
  }

  function DigitsValue(s: string): nat
    requires AllDigits(s)
  {
    if s == "" then 0
    else
      assert IsDigit(s[|s| - 1]);
      10 * DigitsValue(s[..|s| - 1]) + (s[|s| - 1] as int - '0' as int)
  }

  function Unsigned(s: string): string {
    if s != "" && (s[0] == '-' || s[0] == '+') then s[1..] else s
  }

  /** strconv.ParseInt(s, 10, bits): an optional sign, at least one digit, no overflow. */
  function ParseInt(s: string, bits: nat): Parsed
    requires bits == 32 || bits == 64
  {
    var negative := s != "" && s[0] == '-';
    var digits := Unsigned(s);
    if digits == "" || !AllDigits(digits) then Malformed
    else
      var value := if negative then 0 - DigitsValue(digits) else DigitsValue(digits);
      var limit := if bits == 32 then 0x8000_0000 else 0x8000_0000_0000_0000;
      if -limit <= value < limit then Number(value) else Malformed
  }

  lemma {:induction false} DecimalDigits(n: nat)
    ensures Decimal(n) != ""
    ensures AllDigits(Decimal(n))
    ensures DigitsValue(Decimal(n)) == n
  {
    if n >= 10 {
      DecimalDigits(n / 10);
      assert Decimal(n)[..|Decimal(n)| - 1] == Decimal(n / 10);
    } else {
      assert DigitsValue([Digit(n)][..0]) == 0;
    }
  }

  /** Printing and parsing a number that fits gives the number back. */
  lemma ParseDecimal(n: int, bits: nat)
    requires bits == 32 || bits == 64
    requires var limit := if bits == 32 then 0x8000_0000 else 0x8000_0000_0000_0000; -limit <= n < limit
    ensures ParseInt(Decimal(n), bits) == Number(n)
  {
    if n < 0 {
      DecimalDigits(-n);
      assert Decimal(n)[1..] == Decimal(-n);
    } else {
      DecimalDigits(n);
      assert IsDigit(Decimal(n)[0]);
    }
    hide DigitsValue;
    hide Decimal;
  }

  function Zeros(n: nat): string {
    seq(n, _ => '0')
  }

  predicate WritesWith(s: string, v: int, sign: string, n: nat) {
    && s == sign + Zeros(n) + Decimal(if v < 0 then -v else v)
    && ((sign == "" && v >= 0) || (sign == "+" && v >= 0) || (sign == "-" && v <= 0))
  }

  /** An optional sign, any number of zeros, and the number without its sign. */
  ghost predicate Writes(s: string, v: int) {
    exists sign: string, n: nat :: WritesWith(s, v, sign, n)
  }

  lemma {:induction false} LeadingZeros(n: nat, s: string)
    requires AllDigits(s)
    ensures AllDigits(Zeros(n) + s) && DigitsValue(Zeros(n) + s) == DigitsValue(s)
  {
    if s != "" {
      LeadingZeros(n, s[..|s| - 1]);
      assert (Zeros(n) + s)[..n + |s| - 1] == Zeros(n) + s[..|s| - 1];
    } else if n > 0 {
      LeadingZeros(n - 1, s);
      assert (Zeros(n) + s)[..n - 1] == Zeros(n - 1) + s;
    }
  }

  lemma {:induction false} DigitsForm(s: string) returns (n: nat)
    requires AllDigits(s) && s != ""
    ensures s == Zeros(n) + Decimal(DigitsValue(s))
  {
    var front, d := s[..|s| - 1], s[|s| - 1];
    assert s == front + [d] && d == Digit(d as int - '0' as int);
    if front == "" {
      n := 0;
    } else {
      n := DigitsForm(front);
      if DigitsValue(front) == 0 {
        assert front == Zeros(n) + "0" == Zeros(n + 1);
        n := n + 1;
      }
    }
  }

  lemma WrittenDigits(sign: string, n: nat, magnitude: nat)
    requires |sign| <= 1
    ensures var s := sign + Zeros(n) + Decimal(magnitude);
            && |s| > |sign| && s[..|sign|] == sign && AllDigits(s[|sign|..])
            && DigitsValue(s[|sign|..]) == magnitude
  {
    DecimalDigits(magnitude);
    LeadingZeros(n, Decimal(magnitude));
    var s := sign + Zeros(n) + Decimal(magnitude);
    assert s[|sign|..] == Zeros(n) + Decimal(magnitude);
    hide Decimal;
    hide DigitsValue;
  }

  lemma ParsedParts(s: string, bits: nat, v: int) returns (sign: string)
    requires bits == 32 || bits == 64
    requires ParseInt(s, bits) == Number(v)
    ensures var digits := Unsigned(s);
            && s == sign + digits && digits != "" && AllDigits(digits)
            && DigitsValue(digits) == (if v < 0 then -v else v)
            && ((sign == "" && v >= 0) || (sign == "+" && v >= 0) || (sign == "-" && v <= 0))
  {
    sign := s[..|s| - |Unsigned(s)|];
    hide DigitsValue;
    hide AllDigits;
  }

  lemma DigitsWrite(sign: string, digits: string, v: int)
    requires digits != "" && AllDigits(digits) && DigitsValue(digits) == if v < 0 then -v else v
    requires (sign == "" && v >= 0) || (sign == "+" && v >= 0) || (sign == "-" && v <= 0)
    ensures Writes(sign + digits, v)
  {
    hide Decimal;
    hide DigitsValue;
    hide AllDigits;
    var n := DigitsForm(digits);
    Associative(sign, Zeros(n), Decimal(if v < 0 then -v else v));
    assert WritesWith(sign + digits, v, sign, n);
  }

  lemma Associative(a: string, b: string, c: string)
    ensures a + (b + c) == a + b + c
  {
  }

  lemma ParsedWrites(s: string, bits: nat, v: int)
    requires bits == 32 || bits == 64
    requires ParseInt(s, bits) == Number(v)
    ensures Writes(s, v)
  {
    hide Writes;
    hide ParseInt;
    hide DigitsValue;
    var sign := ParsedParts(s, bits, v);
    DigitsWrite(sign, Unsigned(s), v);
  }

  /** Exactly the texts that write a number of the width are parsed, to that number. */
  lemma ParseIntExactlyWhen(s: string, bits: nat, v: int)
    requires bits == 32 || bits == 64
    ensures var limit := if bits == 32 then 0x8000_0000 else 0x8000_0000_0000_0000;
            ParseInt(s, bits) == Number(v) <==> Writes(s, v) && -limit <= v < limit
  {
    hide Decimal;
    hide DigitsValue;
    if ParseInt(s, bits) == Number(v) { ParsedWrites(s, bits, v); }
    if Writes(s, v) {
      var magnitude: nat := if v < 0 then -v else v;
      var sign: string, n: nat :| WritesWith(s, v, sign, n);
      WrittenDigits(sign, n, magnitude);
      assert sign == "" ==> s[..] == s && IsDigit(s[0]);
    }
  }

  /** unicode.IsSpace */
  predicate IsSpace(c: char) {
    var u := c as int;
    || 0x09 <= u <= 0x0D || u == 0x20 || u == 0x85 || u == 0xA0 || u == 0x1680 || 0x2000 <= u <= 0x200A
    || u == 0x2028 || u == 0x2029 || u == 0x202F || u == 0x205F || u == 0x3000
  }

  /** strings.TrimSpace */
  function TrimSpace(s: string): string {
    if s == "" then ""
    else if IsSpace(s[0]) then TrimSpace(s[1..])
    else if IsSpace(s[|s| - 1]) then TrimSpace(s[..|s| - 1])
    else s
  }

  predicate AllSpace(s: string) {
    forall i :: 0 <= i < |s| ==> IsSpace(s[i])
  }

  predicate SpaceAround(s: string, a: string, t: string, b: string) {
    s == a + t + b && AllSpace(a) && AllSpace(b)
  }

  /** s is t with nothing but space around it, and t has no space at its ends. */
  ghost predicate Trims(s: string, t: string) {
    && (t != "" ==> !IsSpace(t[0]) && !IsSpace(t[|t| - 1]))
    && exists a, b :: SpaceAround(s, a, t, b)
  }

  lemma SpaceBefore(c: char, rest: string, a: string, t: string, b: string)
    requires IsSpace(c) && SpaceAround(rest, a, t, b)
    ensures SpaceAround([c] + rest, [c] + a, t, b)
  {
    hide IsSpace;
  }

  lemma SpaceAfter(rest: string, c: char, a: string, t: string, b: string)
    requires IsSpace(c) && SpaceAround(rest, a, t, b)
    ensures SpaceAround(rest + [c], a, t, b + [c])
  {
    hide IsSpace;
  }

  lemma {:induction false} TrimSpaceTrims(s: string)
    ensures Trims(s, TrimSpace(s))
  {
    hide IsSpace;
    hide SpaceAround;
    if s == "" || !(IsSpace(s[0]) || IsSpace(s[|s| - 1])) {
      assert SpaceAround(s, "", s, "") by { OnlyText(s); }
    } else if IsSpace(s[0]) {
      TrimSpaceTrims(s[1..]);
      var t := TrimSpace(s[1..]);
      var a, b :| SpaceAround(s[1..], a, t, b);
      SpaceBefore(s[0], s[1..], a, t, b);
      assert s == [s[0]] + s[1..];
    } else {
      var front, last := s[..|s| - 1], s[|s| - 1];
      TrimSpaceTrims(front);
      var t := TrimSpace(front);
      var a, b :| SpaceAround(front, a, t, b);
      SpaceAfter(front, last, a, t, b);
      assert s == front + [last];
    }
  }

  lemma OnlyText(s: string)
    ensures SpaceAround(s, "", s, "")
  {
  }

  lemma TrimExactlyWhen(s: string, t: string)
    ensures TrimSpace(s) == t <==> Trims(s, t)
  {
    TrimSpaceTrims(s);
    var u := TrimSpace(s);
    hide IsSpace;
    hide TrimSpace;
    if Trims(s, t) {
      var a, b :| SpaceAround(s, a, t, b);
      var c, d :| SpaceAround(s, c, u, d);
      InsideSpace(a, t, b, c, u, d);
      InsideSpace(c, u, d, a, t, b);
      assert t == s[|a|..|a| + |t|] && u == s[|c|..|c| + |u|];
    }
  }

  lemma InsideSpace(a: string, t: string, b: string, c: string, u: string, d: string)
    requires a + t + b == c + u + d && AllSpace(a) && AllSpace(b) && AllSpace(c) && AllSpace(d)
    requires t != "" ==> !IsSpace(t[0]) && !IsSpace(t[|t| - 1])
    ensures t != "" ==> |c| <= |a| && |a| + |t| <= |c| + |u|
  {
    var s := a + t + b;
    if t != "" {
      assert s[|a|] == t[0] && s[|a| + |t| - 1] == t[|t| - 1];
      assert forall i :: 0 <= i < |c| ==> s[i] == c[i];
      assert forall i :: |c| + |u| <= i < |s| ==> s[i] == d[i - |c| - |u|];
    }
    hide IsSpace;
  }

  /** strings.Split with a one-character separator */
  function Split(s: string, sep: char): (parts: seq<string>)
    ensures parts != []
  {
    if s == "" then [""]
    else
      var rest := Split(s[1..], sep);
      if s[0] == sep then [""] + rest else [[s[0]] + rest[0]] + rest[1..]
  }

  function Join(parts: seq<string>, sep: char): string
    requires parts != []
  {
    if |parts| == 1 then parts[0] else parts[0] + [sep] + Join(parts[1..], sep)
  }

  /** Joining gives back what was split, into parts that do not contain the separator. */
  lemma {:induction false} JoinedSplit(s: string, sep: char)
    ensures Join(Split(s, sep), sep) == s
    ensures forall i :: 0 <= i < |Split(s, sep)| ==> sep !in Split(s, sep)[i]
  {
    if s != "" {
      var rest, parts := Split(s[1..], sep), Split(s, sep);
      JoinedSplit(s[1..], sep);
      if s[0] == sep {
        assert parts[1..] == rest;
      } else {
        assert parts[1..] == rest[1..];
      }
    }
  }

  /** Splitting gives back what was joined by a separator that no part contains. */
  lemma {:induction false} SplitJoined(parts: seq<string>, sep: char)
    requires parts != [] && forall i :: 0 <= i < |parts| ==> sep !in parts[i]
    ensures Split(Join(parts, sep), sep) == parts
    decreases |parts|, |parts[0]|
  {
    var s := Join(parts, sep);
    if parts[0] != "" {
      var shorter := parts[0 := parts[0][1..]];
      assert shorter[1..] == parts[1..] && s[1..] == Join(shorter, sep);
      SplitJoined(shorter, sep);
      assert [s[0]] + shorter[0] == parts[0] && s[0] in parts[0];
      assert [parts[0]] + shorter[1..] == parts;
    } else if |parts| > 1 {
      assert s[1..] == Join(parts[1..], sep);
      SplitJoined(parts[1..], sep);
      assert [""] + parts[1..] == parts;
    }
  }

  /** strings.EqualFold(s, "true"); none of the four letters has a fold outside ASCII. */
  predicate IsTrueFold(s: string) {
    |s| == 4 && s[0] in "tT" && s[1] in "rR" && s[2] in "uU" && s[3] in "eE"
  }

  /** strings.Contains */
  predicate Contains(s: string, part: string)
  {
    part <= s || (s != "" && Contains(s[1..], part))
  }

  lemma {:induction false} ContainsInside(before: string, part: string, after: string)
    ensures Contains(before + part + after, part)
  {
    if before == "" {
      assert before + part + after == part + after;
    } else {
      assert (before + part + after)[1..] == before[1..] + part + after;
      ContainsInside(before[1..], part, after);
    }
  }

  // ---------------------------------------------------------------------------------------
  // Go's < on strings: byte order, which for UTF-8 is the order of the code points

  predicate Less(a: string, b: string) {
    if b == "" then false
    else if a == "" then true
    else a[0] < b[0] || (a[0] == b[0] && Less(a[1..], b[1..]))
  }

  /** They agree before i, where a ends or has the smaller character. */
  predicate SmallerAt(a: string, b: string, i: nat) {
    i <= |a| && i < |b| && a[..i] == b[..i] && (i == |a| || a[i] < b[i])
  }

  /** a is a proper prefix of b or has the smaller character where they first differ. */
  ghost predicate Precedes(a: string, b: string) {
    exists i: nat :: SmallerAt(a, b, i)
  }

  lemma SmallerLater(a: string, b: string, i: nat)
    requires a != "" && b != "" && a[0] == b[0]
    ensures SmallerAt(a[1..], b[1..], i) <==> SmallerAt(a, b, i + 1)
  {
    if i <= |a[1..]| && i < |b[1..]| {
      assert a[..i + 1] == [a[0]] + a[1..][..i] && b[..i + 1] == [b[0]] + b[1..][..i];
      assert a[..i + 1][1..] == a[1..][..i] && b[..i + 1][1..] == b[1..][..i];
    }
  }

  lemma {:induction false} LessExactlyWhen(a: string, b: string)
    ensures Less(a, b) <==> Precedes(a, b)
  {
    if a != "" && b != "" && a[0] == b[0] {
      LessExactlyWhen(a[1..], b[1..]);
      forall i: nat ensures SmallerAt(a[1..], b[1..], i) <==> SmallerAt(a, b, i + 1) { SmallerLater(a, b, i); }
      if i: nat :| SmallerAt(a, b, i) { assert SmallerAt(a[1..], b[1..], i - 1); }
    } else {
      assert SmallerAt(a, b, 0) <==> Less(a, b);
      assert forall i: nat :: i > 0 ==> !SmallerAt(a, b, i);
    }
  }

  lemma {:induction false} LessIrreflexive(a: string)
    ensures !Less(a, a)
  {
    if a != "" { LessIrreflexive(a[1..]); }
  }

  lemma {:induction false} LessTransitive(a: string, b: string, c: string)
    requires Less(a, b) && Less(b, c)
    ensures Less(a, c)
  {
    if a != "" && a[0] == b[0] && b[0] == c[0] { LessTransitive(a[1..], b[1..], c[1..]); }
  }

  lemma {:induction false} LessTotal(a: string, b: string)
    ensures Less(a, b) || Less(b, a) || a == b
  {
    if a != "" && b != "" && a[0] == b[0] {
      LessTotal(a[1..], b[1..]);
      if a[1..] == b[1..] { assert a == [a[0]] + a[1..] == b; }
    }
  }
}
