/**
  C strings as the packets use them: text without its terminator, a pointer into it as the suffix it
  points at, `%d` printing, `atoi` reading and `strchr` on semicolons.
*/
module Text {
  import opened Base

  const SEMI := ';'

  // ---------------------------------------------------------------- separators

  ghost predicate Plain(s: string) {
    SEMI !in s
  }

  /** `strchr(s, ';')` followed by a step: what comes after the first semicolon. */
  function After(s: string): (r: Option<string>)
    ensures r.Some? ==> |r.value| < |s|
  {
    if s == [] then None else if s[0] == SEMI then Some(s[1..]) else After(s[1..])
  }

  /** What comes before the first semicolon, or all of it. */
  function Field(s: string): (r: string)
    ensures r <= s && SEMI !in r
  {
    if s == [] || s[0] == SEMI then [] else [s[0]] + Field(s[1..])
  }

  lemma {:induction false} Split(field: string, rest: string)
    requires Plain(field)
    ensures Field(field + [SEMI] + rest) == field
    ensures After(field + [SEMI] + rest) == Some(rest)
  {
    var s := field + [SEMI] + rest;
    if field == [] {
      assert s[1..] == rest;
    } else {
      Split(field[1..], rest);
      assert s[1..] == field[1..] + [SEMI] + rest;
      assert field == [field[0]] + field[1..];
    }
  }

  lemma {:induction false} Unsplit(s: string)
    requires Plain(s)
    ensures Field(s) == s
  {
    if s == [] {
    } else {
      Unsplit(s[1..]);
    }
  }

  function Count(s: string): nat {
    if s == [] then 0 else (if s[0] == SEMI then 1 else 0) + Count(s[1..])
  }

  lemma {:induction false} CountConcat(a: string, b: string)
    ensures Count(a + b) == Count(a) + Count(b)
  {
    if a == [] {
      assert a + b == b;
    } else {
      CountConcat(a[1..], b);
      assert (a + b)[1..] == a[1..] + b;
    }
  }

  lemma {:induction false} CountPlain(s: string)
    ensures Count(s) == 0 <==> Plain(s)
  {
    if s == [] {
    } else {
      CountPlain(s[1..]);
      assert s == [s[0]] + s[1..];
    }
  }

  lemma {:induction false} AfterIsSuffix(s: string)
    requires After(s).Some?
    ensures After(s).value == s[|s| - |After(s).value|..]
  {
    if s[0] == SEMI {
    } else {
      AfterIsSuffix(s[1..]);
    }
  }

  lemma {:induction false} AfterCounts(s: string)
    ensures After(s).Some? <==> Count(s) >= 1
    ensures After(s).Some? ==> Count(After(s).value) == Count(s) - 1
  {
    if s == [] || s[0] == SEMI {
    } else {
      AfterCounts(s[1..]);
    }
  }

  // ---------------------------------------------------------------- numbers

  predicate IsDigit(c: char) { '0' <= c <= '9' }

  predicate IsSpace(c: char) { c == ' ' || '\t' <= c <= '\r' }

  function Digit(d: nat): (c: char)
    requires d < 10
    ensures IsDigit(c)
  {
    ('0' as int + d) as char
  }

  function DigitsOf(n: nat): (s: string)
    ensures |s| >= 1 && forall i :: 0 <= i < |s| ==> IsDigit(s[i])
  {
    if n < 10 then [Digit(n)] else DigitsOf(n / 10) + [Digit(n % 10)]
  }

  /** `%d` and `%lld`. */
  function Show(n: int): (s: string)
    ensures Plain(s) && |s| >= 1
  {
    if n < 0 then "-" + DigitsOf(-n) else DigitsOf(n)
  }

  /** The value of the digits in front, read after those already worth acc. */
  function ReadDigits(s: string, acc: nat): nat {
    if s == [] || !IsDigit(s[0]) then acc
    else ReadDigits(s[1..], acc * 10 + (s[0] as int - '0' as int))
  }

  /** `atoi` and `atoll`: blanks, an optional sign, digits; 0 when there are none. */
  function Atoi(s: string): int {
    if s == [] then 0
    else if IsSpace(s[0]) then Atoi(s[1..])
    else if s[0] == '-' then -(ReadDigits(s[1..], 0) as int)
    else if s[0] == '+' then ReadDigits(s[1..], 0)
    else ReadDigits(s, 0)
  }

  ghost function Pow10(k: nat): nat {
    if k == 0 then 1 else 10 * Pow10(k - 1)
  }

  lemma {:induction false} ReadShown(n: nat, acc: nat, rest: string)
    ensures ReadDigits(DigitsOf(n) + rest, acc) == ReadDigits(rest, acc * Pow10(|DigitsOf(n)|) + n)
    decreases n
  {
    if n < 10 {
      assert (DigitsOf(n) + rest)[1..] == rest;
      assert Pow10(1) == 10;
    } else {
      var last := Digit(n % 10);
      var most := DigitsOf(n / 10);
      assert DigitsOf(n) + rest == most + ([last] + rest);
      ReadShown(n / 10, acc, [last] + rest);
      ReadOne(last, rest, acc * Pow10(|most|) + n / 10);
      NextPower(acc, Pow10(|most|), n);
      assert Pow10(|most| + 1) == 10 * Pow10(|most|);
    }
  }

  lemma ReadOne(c: char, rest: string, acc: nat)
    requires IsDigit(c)
    ensures ReadDigits([c] + rest, acc) == ReadDigits(rest, acc * 10 + (c as int - '0' as int))
  {
    assert ([c] + rest)[1..] == rest;
  }

  lemma NextPower(acc: nat, power: nat, n: nat)
    ensures (acc * power + n / 10) * 10 + n % 10 == acc * (10 * power) + n
  {
    assert acc * power * 10 == acc * (10 * power);
  }

  lemma AtoiDigits(s: string, rest: string)
    requires s != [] && IsDigit(s[0])
    ensures Atoi(s + rest) == ReadDigits(s + rest, 0)
    ensures Atoi("-" + s + rest) == -(ReadDigits(s + rest, 0) as int)
  {
    assert (s + rest)[0] == s[0];
    assert ("-" + s + rest)[0] == '-' && ("-" + s + rest)[1..] == s + rest;
  }

  /** Printing and reading a number are inverse, whatever non-digit follows. */
  lemma AtoiShow(n: int, rest: string)
    requires rest == [] || !IsDigit(rest[0])
    ensures Atoi(Show(n) + rest) == n
  {
    var m: nat := if n < 0 then -n else n;
    assert ReadDigits(rest, m) == m;
    assert Show(n) + rest == if n < 0 then "-" + DigitsOf(m) + rest else DigitsOf(m) + rest;
    hide Atoi, ReadDigits, Show, Pow10;
    ReadAll(m, rest);
    AtoiDigits(DigitsOf(m), rest);
  }

  /** Spaces, tabs and the line and page breaks. */
  ghost predicate Blank(s: string) {
    forall i :: 0 <= i < |s| ==> s[i] == ' ' || 9 <= s[i] as int <= 13
  }

  /** Blanks in front and a plus sign make no difference, and a text that starts with none of sign,
      digit and blank reads as 0. */
  lemma AtoiLenient(blanks: string, n: nat, rest: string)
    requires Blank(blanks) && (rest == [] || !IsDigit(rest[0]))
    ensures Atoi(blanks + (Show(n) + rest)) == n && Atoi(blanks + ("+" + DigitsOf(n) + rest)) == n
    ensures rest != [] && !IsSpace(rest[0]) && rest[0] != '-' && rest[0] != '+' ==> Atoi(rest) == 0
  {
    hide *;
    BlanksSkipped(blanks, Show(n) + rest);
    BlanksSkipped(blanks, "+" + DigitsOf(n) + rest);
    AtoiShow(n, rest);
    AtoiPlus(n, rest);
    AtoiOfNothing(rest);
  }

  lemma AtoiOfNothing(rest: string)
    requires rest == [] || !IsDigit(rest[0])
    ensures rest != [] && !IsSpace(rest[0]) && rest[0] != '-' && rest[0] != '+' ==> Atoi(rest) == 0
  {
  }

  lemma {:induction false} BlanksSkipped(blanks: string, s: string)
    requires Blank(blanks)
    ensures Atoi(blanks + s) == Atoi(s)
  {
    if blanks == [] {
      assert blanks + s == s;
    } else {
      BlanksSkipped(blanks[1..], s);
      assert (blanks + s)[1..] == blanks[1..] + s;
    }
  }

  lemma AtoiPlus(n: nat, rest: string)
    requires rest == [] || !IsDigit(rest[0])
    ensures Atoi("+" + DigitsOf(n) + rest) == n
  {
    hide *;
    assert "+" + DigitsOf(n) + rest == "+" + (DigitsOf(n) + rest);
    PlusSkipped(DigitsOf(n) + rest);
    ReadAll(n, rest);
    ReadNothing(n, rest);
  }

  lemma PlusSkipped(s: string)
    ensures Atoi("+" + s) == ReadDigits(s, 0)
  {
    hide ReadDigits;
    assert ("+" + s)[0] == '+' && ("+" + s)[1..] == s;
  }

  lemma ReadNothing(n: nat, rest: string)
    requires rest == [] || !IsDigit(rest[0])
    ensures ReadDigits(rest, n) == n
  {
  }

  lemma ReadAll(n: nat, rest: string)
    ensures ReadDigits(DigitsOf(n) + rest, 0) == ReadDigits(rest, n)
  {
    hide ReadDigits, DigitsOf, Pow10;
    ReadShown(n, 0, rest);
    assert 0 * Pow10(|DigitsOf(n)|) + n == n;
  }

  lemma {:induction false} DigitsBound(n: nat, k: nat)
    requires 1 <= k && n < Pow10(k)
    ensures |DigitsOf(n)| <= k
    decreases k
  {
    if n < 10 {
    } else {
      assert k != 1 by { assert Pow10(1) == 10; }
      assert n / 10 < Pow10(k - 1);
      DigitsBound(n / 10, k - 1);
    }
  }
}
