/** String helpers the roll announcement is built from: decimal rendering of
    non-negative integers, ASCII upper-casing (`str.upper`) and the camel-case
    split the skill route applies to a skill identifier. */
module Text {

  predicate IsUpper(c: char) { 'A' <= c <= 'Z' }
  predicate IsLower(c: char) { 'a' <= c <= 'z' }
  predicate IsDigit(c: char) { '0' <= c <= '9' }

  predicate AllDigits(s: string) { forall i :: 0 <= i < |s| ==> IsDigit(s[i]) }
  predicate NoNewline(s: string) { '\n' !in s }

  /** `t` occurs in `s` starting at index `k`. */
  predicate OccursAt(s: string, t: string, k: int) {
    0 <= k && k + |t| <= |s| && s[k..k + |t|] == t
  }

  lemma OccursInMiddle(a: string, t: string, b: string)
    ensures OccursAt(a + t + b, t, |a|)
  {
    assert (a + t + b)[|a|..|a| + |t|] == t;
  }

  // ---------------------------------------------------------------------------
  // Decimal rendering, as an f-string renders a non-negative Python int.

  function Digit(d: nat): (c: char)
    requires d < 10
    ensures IsDigit(c) && c as int - '0' as int == d
  {
    ('0' as int + d) as char
  }

  /** The decimal digits of `n`, most significant first, without leading zeros. */
  function Decimal(n: nat): (s: string)
    ensures |s| >= 1 && AllDigits(s)
    ensures s[0] == '0' <==> n == 0
    ensures n == 0 ==> s == "0"
    decreases n
  {
    if n < 10 then [Digit(n)] else Decimal(n / 10) + [Digit(n % 10)]
  }

  /** Reads a string of decimal digits back as a number (the reference for Decimal). */
  function ParseDecimal(s: string): nat
    requires AllDigits(s)
    decreases |s|
  {
    if s == [] then 0
    else ParseDecimal(s[..|s| - 1]) * 10 + (s[|s| - 1] as int - '0' as int)
  }

  lemma {:induction false} ParseDecimalOfDecimal(n: nat)
    ensures ParseDecimal(Decimal(n)) == n
    decreases n
  {
    if n >= 10 {
      var s := Decimal(n);
      assert s[..|s| - 1] == Decimal(n / 10);
      ParseDecimalOfDecimal(n / 10);
    }
  }

  /** Distinct numbers are rendered differently. */
  lemma DecimalInjective(m: nat, n: nat)
    ensures Decimal(m) == Decimal(n) ==> m == n
  {
    ParseDecimalOfDecimal(m);
    ParseDecimalOfDecimal(n);
  }

  // ---------------------------------------------------------------------------
  // Upper-casing of ASCII letters.

  function UpperChar(c: char): (u: char)
    ensures !IsLower(u)
    ensures IsLower(c) ==> IsUpper(u) && u as int == c as int - 32
    ensures !IsLower(c) ==> u == c
  {
    if IsLower(c) then (c as int - 32) as char else c
  }

  /** `s.upper()` for ASCII text: every lower-case letter becomes its capital,
      every other character stays where it is. */
  function ToUpper(s: string): (r: string)
    ensures |r| == |s|
    ensures forall i :: 0 <= i < |s| ==> r[i] == UpperChar(s[i])
    decreases |s|
  {
    if s == [] then [] else [UpperChar(s[0])] + ToUpper(s[1..])
  }

  lemma ToUpperHasNoLower(s: string)
    ensures forall i :: 0 <= i < |ToUpper(s)| ==> !IsLower(ToUpper(s)[i])
  {
  }

  lemma ToUpperIdempotent(s: string)
    ensures ToUpper(ToUpper(s)) == ToUpper(s)
  {
  }

  // ---------------------------------------------------------------------------
  // Camel-case split: re.sub(r'(?<!^)(?=[A-Z])', ' ', s) inserts one space at
  // every position that is not the start of the string and is followed by an
  // ASCII capital.

  /** Number of ASCII capitals in `s`. */
  function CountUpper(s: string): nat
    decreases |s|
  {
    if s == [] then 0 else (if IsUpper(s[0]) then 1 else 0) + CountUpper(s[1..])
  }

  /** A space before every capital of `t` (no position of `t` is the start of the string). */
  function SpaceBeforeUpper(t: string): (r: string)
    decreases |t|
  {
    if t == [] then []
    else (if IsUpper(t[0]) then [' ', t[0]] else [t[0]]) + SpaceBeforeUpper(t[1..])
  }

  /** The display name of a skill identifier: "ArtCraft" becomes "Art Craft". */
  function SplitCamelCase(s: string): (r: string)
    ensures |r| == |s| + (if s == [] then 0 else CountUpper(s[1..]))
    ensures s != [] ==> r[0] == s[0]
  {
    if s == [] then []
    else
      SpaceBeforeUpperLength(s[1..]);
      [s[0]] + SpaceBeforeUpper(s[1..])
  }

  /** Deletes every space that stands directly before a capital: the inverse of SplitCamelCase. */
  function RemoveInsertedSpaces(r: string): (s: string)
    decreases |r|
  {
    if r == [] then []
    else if r[0] == ' ' && |r| > 1 && IsUpper(r[1]) then RemoveInsertedSpaces(r[1..])
    else [r[0]] + RemoveInsertedSpaces(r[1..])
  }

  lemma {:induction false} SpaceBeforeUpperHead(t: string)
    requires t != []
    ensures SpaceBeforeUpper(t) != [] && !IsUpper(SpaceBeforeUpper(t)[0])
  {
  }

  lemma {:induction false} SpaceBeforeUpperRoundTrip(t: string)
    ensures RemoveInsertedSpaces(SpaceBeforeUpper(t)) == t
    decreases |t|
  {
    if t != [] {
      var rest := SpaceBeforeUpper(t[1..]);
      SpaceBeforeUpperRoundTrip(t[1..]);
      if IsUpper(t[0]) {
        assert SpaceBeforeUpper(t) == [' ', t[0]] + rest;
        assert ([' ', t[0]] + rest)[1..] == [t[0]] + rest;
        assert ([t[0]] + rest)[1..] == rest;
      } else {
        assert SpaceBeforeUpper(t) == [t[0]] + rest;
        assert ([t[0]] + rest)[1..] == rest;
        if t[1..] != [] {
          SpaceBeforeUpperHead(t[1..]);
        }
      }
    }
  }

  /** Deleting the inserted spaces gives the identifier back. */
  lemma SplitCamelCaseRoundTrip(s: string)
    ensures RemoveInsertedSpaces(SplitCamelCase(s)) == s
  {
    if s != [] {
      var rest := SpaceBeforeUpper(s[1..]);
      SpaceBeforeUpperRoundTrip(s[1..]);
      assert ([s[0]] + rest)[1..] == rest;
      if s[1..] != [] {
        SpaceBeforeUpperHead(s[1..]);
      }
    }
  }

  /** Distinct identifiers get distinct display names. */
  lemma SplitCamelCaseInjective(s: string, t: string)
    ensures SplitCamelCase(s) == SplitCamelCase(t) ==> s == t
  {
    SplitCamelCaseRoundTrip(s);
    SplitCamelCaseRoundTrip(t);
  }

  lemma {:induction false} SpaceBeforeUpperLength(t: string)
    ensures |SpaceBeforeUpper(t)| == |t| + CountUpper(t)
    decreases |t|
  {
    if t != [] {
      SpaceBeforeUpperLength(t[1..]);
    }
  }

  lemma {:induction false} SpaceBeforeUpperNoCapitals(t: string)
    requires CountUpper(t) == 0
    ensures SpaceBeforeUpper(t) == t
    decreases |t|
  {
    if t != [] {
      SpaceBeforeUpperNoCapitals(t[1..]);
    }
  }

  lemma {:induction false} CountUpperZero(t: string)
    ensures CountUpper(t) == 0 <==> forall i :: 0 <= i < |t| ==> !IsUpper(t[i])
    decreases |t|
  {
    if t != [] {
      CountUpperZero(t[1..]);
      assert forall i :: 1 <= i < |t| ==> t[i] == t[1..][i - 1];
    }
  }

  /** An identifier with no capital after its first character is shown unchanged. */
  lemma SplitCamelCaseUnchanged(s: string)
    requires forall i :: 1 <= i < |s| ==> !IsUpper(s[i])
    ensures SplitCamelCase(s) == s
  {
    if s != [] {
      CountUpperZero(s[1..]);
      SpaceBeforeUpperNoCapitals(s[1..]);
    }
  }

  lemma {:induction false} SpaceBeforeUpperSpaced(t: string)
    ensures forall i :: 0 <= i < |SpaceBeforeUpper(t)| && IsUpper(SpaceBeforeUpper(t)[i]) ==>
              i >= 1 && SpaceBeforeUpper(t)[i - 1] == ' '
    decreases |t|
  {
    if t != [] {
      SpaceBeforeUpperSpaced(t[1..]);
      var rest := SpaceBeforeUpper(t[1..]);
      var head := if IsUpper(t[0]) then [' ', t[0]] else [t[0]];
      var r := head + rest;
      assert SpaceBeforeUpper(t) == r;
      forall i | 0 <= i < |r| && IsUpper(r[i])
        ensures i >= 1 && r[i - 1] == ' '
      {
        if i >= |head| {
          assert r[i] == rest[i - |head|];
          if i - |head| >= 1 {
            assert r[i - 1] == rest[i - |head| - 1];
          }
        }
      }
    }
  }

  /** Every capital after the first position is preceded by a space. */
  lemma SplitCamelCaseSpaced(s: string)
    ensures forall i :: 1 <= i < |SplitCamelCase(s)| && IsUpper(SplitCamelCase(s)[i]) ==>
              SplitCamelCase(s)[i - 1] == ' '
  {
    if s != [] {
      var rest := SpaceBeforeUpper(s[1..]);
      SpaceBeforeUpperSpaced(s[1..]);
      var r := [s[0]] + rest;
      forall i | 1 <= i < |r| && IsUpper(r[i])
        ensures r[i - 1] == ' '
      {
        assert r[i] == rest[i - 1];
        assert r[i - 1] == rest[i - 2];
      }
    }
  }

  /** "ArtCraft" is shown as "Art Craft". */
  lemma SplitCamelCaseExample()
    ensures SplitCamelCase("ArtCraft") == "Art Craft"
  {
    assert SpaceBeforeUpper("t") == "t";
    assert SpaceBeforeUpper("ft") == "ft";
    assert SpaceBeforeUpper("aft") == "aft";
    assert SpaceBeforeUpper("raft") == "raft";
    assert SpaceBeforeUpper("Craft") == " Craft";
    assert SpaceBeforeUpper("tCraft") == "t Craft";
    assert SpaceBeforeUpper("rtCraft") == "rt Craft";
    assert "ArtCraft"[1..] == "rtCraft";
  }
}
