/** The string functions of Go's standard library that the gateway's parsers rest on. */
module Text {
  import opened Options

  const MAX_INT: int := 0x7FFF_FFFF_FFFF_FFFF

  // ---------------------------------------------------------------- split and join

  /** `strings.Split` with a one-character separator. */
  function Split(s: string, sep: char): (parts: seq<string>)
    ensures |parts| >= 1
  {
    if s == "" then [""]
    else
      var rest := Split(s[1..], sep);
      if s[0] == sep then [""] + rest else [[s[0]] + rest[0]] + rest[1..]
  }

  /** `strings.Join`. */
  function Join(parts: seq<string>, sep: string): string {
    if parts == [] then ""
    else if |parts| == 1 then parts[0]
    else parts[0] + sep + Join(parts[1..], sep)
  }

  lemma {:induction false} SplitHead(a: string, b: string, sep: char)
    requires sep !in a
    ensures Split(a + [sep] + b, sep) == [a] + Split(b, sep)
  {
    var s := a + [sep] + b;
    if a == "" {
      assert s[1..] == b;
    } else {
      assert s[1..] == a[1..] + [sep] + b;
      SplitHead(a[1..], b, sep);
      assert [s[0]] + a[1..] == a;
    }
  }

  lemma {:induction false} SplitWhole(a: string, sep: char)
    requires sep !in a
    ensures Split(a, sep) == [a]
  {
    if a != "" {
      SplitWhole(a[1..], sep);
      assert [a[0]] + a[1..] == a;
    }
  }

  lemma {:induction false} JoinSnoc(parts: seq<string>, last: string, sep: string)
    ensures Join(parts + [last], sep) == if parts == [] then last else Join(parts, sep) + sep + last
  {
    if parts == [] {
      assert parts + [last] == [last];
    } else {
      assert (parts + [last])[1..] == parts[1..] + [last];
      JoinSnoc(parts[1..], last, sep);
      if |parts| > 1 {
        assert parts[0] + sep + (Join(parts[1..], sep) + sep + last)
               == parts[0] + sep + Join(parts[1..], sep) + sep + last;
      }
    }
  }

  // ---------------------------------------------------------------- trimming

  /** `unicode.IsSpace`. */
  predicate IsSpace(c: char) {
    '\t' <= c <= '\r' || c == ' ' || c == '\U{0085}' || c == '\U{00A0}' || c == '\U{1680}' ||
    '\U{2000}' <= c <= '\U{200A}' || c == '\U{2028}' || c == '\U{2029}' || c == '\U{202F}' ||
    c == '\U{205F}' || c == '\U{3000}'
  }

  /** `strings.TrimSpace`. */
  function TrimSpace(s: string): (t: string) {
    if s == "" then ""
    else if IsSpace(s[0]) then TrimSpace(s[1..])
    else if IsSpace(s[|s| - 1]) then TrimSpace(s[..|s| - 1])
    else s
  }

  // ---------------------------------------------------------------- decimal numbers

  predicate IsDigit(c: char) { '0' <= c <= '9' }

  predicate AllDigits(s: string) { forall i :: 0 <= i < |s| ==> IsDigit(s[i]) }

  function Decimal(s: string): nat
    requires AllDigits(s)
  {
    if s == "" then 0 else 10 * Decimal(s[..|s| - 1]) + (s[|s| - 1] as int - '0' as int)
  }

  /** `strconv.Atoi`: an optional sign, at least one digit, within 64 bits. */
  function Atoi(s: string): Option<int> {
    var negative := s != "" && s[0] == '-';
    var body := if s != "" && (s[0] == '-' || s[0] == '+') then s[1..] else s;
    if body == "" || !AllDigits(body) then None
    else
      var n: int := if negative then -(Decimal(body) as int) else Decimal(body);
      if -MAX_INT - 1 <= n <= MAX_INT then Some(n) else None
  }

  /** The `%d` verb on a non-negative number. */
  function Itoa(n: nat): (s: string)
    ensures s != "" && AllDigits(s)
  {
    var digit := ('0' as int + n % 10) as char;
    if n < 10 then [digit] else Itoa(n / 10) + [digit]
  }

  lemma {:induction false} DecimalOfItoa(n: nat)
    ensures Decimal(Itoa(n)) == n
  {
    if n >= 10 {
      DecimalOfItoa(n / 10);
      var s := Itoa(n);
      assert s[..|s| - 1] == Itoa(n / 10);
    }
  }

  /** Printing an index and parsing it back gives the index. */
  lemma {:induction false} AtoiOfItoa(n: nat)
    requires n <= MAX_INT
    ensures Atoi(Itoa(n)) == Some(n)
  {
    DecimalOfItoa(n);
    assert IsDigit(Itoa(n)[0]);
  }

  // ---------------------------------------------------------------- order

  /** Go's `<` on strings. */
  predicate Less(a: string, b: string) {
    b != "" && (a == "" || a[0] < b[0] || (a[0] == b[0] && Less(a[1..], b[1..])))
  }

  lemma {:induction false} LessTotal(a: string, b: string)
    ensures Less(a, b) || a == b || Less(b, a)
  {
    if a != "" && b != "" && a[0] == b[0] {
      LessTotal(a[1..], b[1..]);
      if a[1..] == b[1..] {
        assert a == [a[0]] + a[1..];
        assert b == [b[0]] + b[1..];
      }
    }
  }

  lemma {:induction false} LessTransitive(a: string, b: string, c: string)
    requires Less(a, b) && Less(b, c)
    ensures Less(a, c)
  {
    if a != "" && a[0] == b[0] == c[0] {
      LessTransitive(a[1..], b[1..], c[1..]);
    }
  }

  lemma {:induction false} LessIrreflexive(a: string)
    ensures !Less(a, a)
  {
    if a != "" { LessIrreflexive(a[1..]); }
  }

  /** The same up to place `k`, where `a` ends or has the smaller character. */
  predicate DiffersAt(a: string, b: string, k: int) {
    0 <= k <= |a| && k < |b| && a[..k] == b[..k] && (k == |a| || a[k] < b[k])
  }

  /** The order is that of the first difference, a prefix coming first. */
  lemma {:induction false} LessTells(a: string, b: string)
    ensures Less(a, b) <==> exists k :: DiffersAt(a, b, k)
  {
    if a != "" && b != "" && a[0] == b[0] {
      LessTells(a[1..], b[1..]);
      if k :| DiffersAt(a[1..], b[1..], k) {
        assert a[..k + 1] == [a[0]] + a[1..][..k] && b[..k + 1] == [b[0]] + b[1..][..k];
        assert DiffersAt(a, b, k + 1);
      }
      if k :| DiffersAt(a, b, k) {
        assert k > 0;
        assert a[1..][..k - 1] == a[..k][1..] && b[1..][..k - 1] == b[..k][1..];
        assert DiffersAt(a[1..], b[1..], k - 1);
      }
    } else {
      assert Less(a, b) <==> DiffersAt(a, b, 0);
      forall k | DiffersAt(a, b, k) ensures k == 0 { DiffersLater(a, b, k); }
    }
  }

  lemma {:induction false} DiffersLater(a: string, b: string, k: int)
    requires DiffersAt(a, b, k)
    ensures k == 0 || (a != "" && b != "" && a[0] == b[0])
  {
    if k > 0 { assert a[..k][0] == b[..k][0]; }
  }

  /** The white space of Unicode, by code point: U+0009 to U+000D, space, no-break spaces and the like. */
  lemma {:induction false} SpaceTells(c: char)
    ensures IsSpace(c) <==>
              c as int in {0x9, 0xA, 0xB, 0xC, 0xD, 0x20, 0x85, 0xA0, 0x1680, 0x2000, 0x2001, 0x2002, 0x2003, 0x2004,
                           0x2005, 0x2006, 0x2007, 0x2008, 0x2009, 0x200A, 0x2028, 0x2029, 0x202F, 0x205F, 0x3000}
  {
    assert '\U{2000}' as int == 0x2000 && '\U{200A}' as int == 0x200A && '\t' as int == 9 && '\r' as int == 13;
  }

  /** Trimming takes white space off both ends and nothing else. */
  lemma {:induction false} TrimTells(s: string) returns (left: string, right: string)
    ensures s == left + TrimSpace(s) + right
    ensures (forall k :: 0 <= k < |left| ==> IsSpace(left[k])) && (forall k :: 0 <= k < |right| ==> IsSpace(right[k]))
    ensures var t := TrimSpace(s); t != "" ==> !IsSpace(t[0]) && !IsSpace(t[|t| - 1])
  {
    hide IsSpace;
    left, right := "", "";
    if s != "" && IsSpace(s[0]) {
      left, right := TrimTells(s[1..]);
      assert s == [s[0]] + s[1..] == [s[0]] + (left + TrimSpace(s) + right);
      left := [s[0]] + left;
    } else if s != "" && IsSpace(s[|s| - 1]) {
      left, right := TrimTells(s[..|s| - 1]);
      assert s == s[..|s| - 1] + [s[|s| - 1]] == (left + TrimSpace(s) + right) + [s[|s| - 1]];
      right := right + [s[|s| - 1]];
    }
  }

  /** A numeral: an optional sign and at least one digit, for a number that fits in 64 bits. */
  predicate Numeral(s: string, sign: string, digits: string, n: int) {
    && s == sign + digits && sign in {"", "+", "-"} && digits != "" && AllDigits(digits)
    && n == (if sign == "-" then -1 else 1) * Decimal(digits)
    && -0x8000_0000_0000_0000 <= n <= 0x7FFF_FFFF_FFFF_FFFF
  }

  lemma {:induction false} NumeralIsRead(s: string, sign: string, digits: string, n: int)
    requires Numeral(s, sign, digits, n)
    ensures Atoi(s) == Some(n)
  {
    hide Decimal;
    assert s[|sign|..] == digits && (sign == "" ==> IsDigit(s[0]));
    if sign == "" {
      assert s == digits;
    } else {
      assert s[0] == sign[0] && s[1..] == digits;
    }
  }

  lemma {:induction false} AtoiTells(s: string, n: int)
    ensures Atoi(s) == Some(n) <==> exists sign, digits :: Numeral(s, sign, digits, n)
  {
    hide Decimal;
    if Atoi(s) == Some(n) {
      if s[0] == '-' || s[0] == '+' {
        assert Numeral(s, [s[0]], s[1..], n);
      } else {
        assert Numeral(s, "", s, n);
      }
    }
    forall sign, digits | Numeral(s, sign, digits, n) ensures Atoi(s) == Some(n) { NumeralIsRead(s, sign, digits, n); }
  }

  /** Decimal notation. */
  lemma {:induction false} DecimalTells(digits: string, c: char)
    requires AllDigits(digits) && IsDigit(c)
    ensures Decimal("") == 0 && AllDigits(digits + [c])
    ensures Decimal(digits + [c]) == 10 * Decimal(digits) + (c as int - '0' as int)
    ensures IsDigit(c) <==> c in "0123456789"
  {
    assert (digits + [c])[..|digits|] == digits;
    assert "0123456789"[c as int - '0' as int] == c;
  }
}
