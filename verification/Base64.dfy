/**
 Unpadded base64url (RFC 4648 section 5) as the envelope code uses it: the decoder skips line breaks and ignores the
 bits left over at the end, so one byte string has many spellings but one canonical one.
 */
module Base64 {
  import opened Options

  type Byte = x: int | 0 <= x < 256

  function Digit(n: int): char
    requires 0 <= n < 64
  {
    if n < 26 then (65 + n) as char
    else if n < 52 then (97 + (n - 26)) as char
    else if n < 62 then (48 + (n - 52)) as char
    else if n == 62 then '-'
    else '_'
  }

  function Value(c: char): (v: Option<int>)
    ensures v.Some? ==> 0 <= v.value < 64
  {
    if 'A' <= c <= 'Z' then Some(c as int - 65)
    else if 'a' <= c <= 'z' then Some(c as int - 97 + 26)
    else if '0' <= c <= '9' then Some(c as int - 48 + 52)
    else if c == '-' then Some(62)
    else if c == '_' then Some(63)
    else None
  }

  function Encode(b: seq<Byte>): string {
    if |b| == 0 then []
    else if |b| == 1 then [Digit(b[0] / 4), Digit(b[0] % 4 * 16)]
    else if |b| == 2 then [Digit(b[0] / 4), Digit(b[0] % 4 * 16 + b[1] / 16), Digit(b[1] % 16 * 4)]
    else
      [Digit(b[0] / 4), Digit(b[0] % 4 * 16 + b[1] / 16), Digit(b[1] % 16 * 4 + b[2] / 64), Digit(b[2] % 64)]
        + Encode(b[3..])
  }

  predicate LineBreak(c: char) { c == '\n' || c == '\r' }

  function Clean(s: string): string {
    if s == [] then [] else (if LineBreak(s[0]) then [] else [s[0]]) + Clean(s[1..])
  }

  /** The first byte of a group of at least two digits. */
  function First(v0: int, v1: int): Byte
    requires 0 <= v0 < 64 && 0 <= v1 < 64
  {
    v0 * 4 + v1 / 16
  }

  function Second(v1: int, v2: int): Byte
    requires 0 <= v1 < 64 && 0 <= v2 < 64
  {
    v1 % 16 * 16 + v2 / 4
  }

  function Third(v2: int, v3: int): Byte
    requires 0 <= v2 < 64 && 0 <= v3 < 64
  {
    v2 % 4 * 64 + v3
  }

  function DecodeGroups(s: string): Option<seq<Byte>> {
    if |s| == 0 then Some([])
    else if |s| == 1 || Value(s[0]).None? || Value(s[1]).None? then None
    else
      var v0, v1 := Value(s[0]).value, Value(s[1]).value;
      if |s| == 2 then Some([First(v0, v1)])
      else if Value(s[2]).None? then None
      else
        var v2 := Value(s[2]).value;
        if |s| == 3 then Some([First(v0, v1), Second(v1, v2)])
        else if Value(s[3]).None? then None
        else
          var rest := DecodeGroups(s[4..]);
          if rest.None? then None
          else Some([First(v0, v1), Second(v1, v2), Third(v2, Value(s[3]).value)] + rest.value)
  }

  function Decode(s: string): Option<seq<Byte>> { DecodeGroups(Clean(s)) }

  predicate InAlphabet(s: string) { forall i :: 0 <= i < |s| ==> Value(s[i]).Some? }

  lemma {:induction false} DigitValue(n: int)
    requires 0 <= n < 64
    ensures Value(Digit(n)) == Some(n)
  {
  }

  lemma {:induction false} EncodeInAlphabet(b: seq<Byte>)
    ensures InAlphabet(Encode(b)) && |Encode(b)| == (4 * |b| + 2) / 3
  {
    hide Value, Digit;
    forall n | 0 <= n < 64 ensures Value(Digit(n)).Some? { DigitValue(n); }
    if |b| >= 3 { EncodeInAlphabet(b[3..]); }
  }

  lemma {:induction false} CleanIsIdentity(s: string)
    requires InAlphabet(s)
    ensures Clean(s) == s
  {
    if s != [] {
      assert InAlphabet(s[1..]) by { assert forall i :: 0 <= i < |s[1..]| ==> s[1..][i] == s[i + 1]; }
      CleanIsIdentity(s[1..]);
      assert Value(s[0]).Some?;
    }
  }

  /** The six-bit digits of three bytes give the bytes back; a missing byte counts as zero. */
  lemma {:induction false} Regroup(x: Byte, y: Byte, z: Byte)
    ensures First(x / 4, x % 4 * 16 + y / 16) == x
    ensures Second(x % 4 * 16 + y / 16, y % 16 * 4 + z / 64) == y
    ensures Third(y % 16 * 4 + z / 64, z % 64) == z
  {
    assert (x % 4 * 16 + y / 16) / 16 == x % 4 && (x % 4 * 16 + y / 16) % 16 == y / 16;
    assert (y % 16 * 4 + z / 64) / 4 == y % 16 && (y % 16 * 4 + z / 64) % 4 == z / 64;
  }

  lemma {:induction false} GroupsRoundTrip(b: seq<Byte>)
    ensures DecodeGroups(Encode(b)) == Some(b)
  {
    hide Value, Digit, First, Second, Third;
    forall n | 0 <= n < 64 ensures Value(Digit(n)) == Some(n) { DigitValue(n); }
    if |b| >= 3 {
      Regroup(b[0], b[1], b[2]);
      GroupsRoundTrip(b[3..]);
      assert Encode(b)[4..] == Encode(b[3..]);
      assert b == [b[0], b[1], b[2]] + b[3..];
    } else if |b| == 2 {
      Regroup(b[0], b[1], 0);
      assert b == [b[0], b[1]];
    } else if |b| == 1 {
      Regroup(b[0], 0, 0);
      assert b == [b[0]];
    }
  }

  /** Whatever was encoded is what decodes. */
  lemma {:induction false} Base64RoundTrip(b: seq<Byte>)
    ensures Decode(Encode(b)) == Some(b)
  {
    EncodeInAlphabet(b);
    CleanIsIdentity(Encode(b));
    GroupsRoundTrip(b);
  }

  // ---------------------------------------------------------------- what decodes

  /** The alphabet: capitals, small letters, numerals, hyphen and underscore, in that order. */
  lemma {:induction false} AlphabetTells(n: nat)
    requires n < 63
    ensures Digit(0) == 'A' && Digit(26) == 'a' && Digit(52) == '0' && Digit(62) == '-' && Digit(63) == '_'
    ensures n !in {25, 51, 61, 62} ==> Digit(n + 1) as int == Digit(n) as int + 1
  {
  }

  /** No two characters have the same value. */
  lemma {:induction false} DigitOfValue(c: char)
    requires Value(c).Some?
    ensures Digit(Value(c).value) == c
  {
  }

  lemma {:induction false} CleanTells(s: string, c: char)
    ensures Clean([c] + s) == (if c in {'\n', '\r'} then [] else [c]) + Clean(s) && Clean([]) == []
  {
    assert ([c] + s)[1..] == s;
  }

  /** The four digits of a group can be read back off its three bytes. */
  lemma {:induction false} Ungroup(v0: int, v1: int, v2: int, v3: int)
    requires 0 <= v0 < 64 && 0 <= v1 < 64 && 0 <= v2 < 64 && 0 <= v3 < 64
    ensures var x, y, z := First(v0, v1), Second(v1, v2), Third(v2, v3);
            x / 4 == v0 && x % 4 * 16 + y / 16 == v1 && y % 16 * 4 + z / 64 == v2 && z % 64 == v3
  {
    assert v0 * 4 / 4 == v0 && v1 / 16 < 4 && v2 / 4 < 16;
    assert (v0 * 4 + v1 / 16) / 4 == v0 && (v0 * 4 + v1 / 16) % 4 == v1 / 16;
    assert (v1 % 16 * 16 + v2 / 4) / 16 == v1 % 16 && (v1 % 16 * 16 + v2 / 4) % 16 == v2 / 4;
    assert (v2 % 4 * 64 + v3) / 64 == v2 % 4 && (v2 % 4 * 64 + v3) % 64 == v3;
  }

  /**
   What the decoder takes: besides line breaks, any text over the alphabet whose length does not leave a single digit
   over.
   */
  lemma {:induction false} DecodeTells(s: string)
    ensures Decode(s).Some? <==> InAlphabet(Clean(s)) && |Clean(s)| % 4 != 1
  {
    hide Clean;
    GroupsTell(Clean(s));
  }

  lemma {:induction false} GroupsTell(s: string)
    ensures DecodeGroups(s).Some? <==> InAlphabet(s) && |s| % 4 != 1
  {
    hide Value, First, Second, Third, InAlphabet, DecodeGroups;
    if |s| < 4 {
      TailTells(s);
    } else {
      AlphabetSplits(s);
      DecodeSplits(s);
      GroupsTell(s[4..]);
    }
  }

  lemma {:induction false} DecodeSplits(s: string)
    requires |s| >= 4
    ensures DecodeGroups(s).Some? <==>
              Value(s[0]).Some? && Value(s[1]).Some? && Value(s[2]).Some? && Value(s[3]).Some?
              && DecodeGroups(s[4..]).Some?
  {
    hide Value, First, Second, Third;
  }

  lemma {:induction false} TailTells(s: string)
    requires |s| < 4
    ensures DecodeGroups(s).Some? <==> InAlphabet(s) && |s| != 1
  {
    hide Value, First, Second, Third;
  }

  lemma {:induction false} AlphabetSplits(s: string)
    requires |s| >= 4
    ensures InAlphabet(s) <==> Value(s[0]).Some? && Value(s[1]).Some? && Value(s[2]).Some? && Value(s[3]).Some?
                               && InAlphabet(s[4..])
  {
    hide Value;
    assert forall i :: 4 <= i < |s| ==> s[i] == s[4..][i - 4];
  }
}
