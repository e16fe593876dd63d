/**
 * The string operations of Python's `str` that the two scripts use:
 * `strip(chars)`, `replace(" ", "_")` and `str(int)`.
 * Strings are sequences of code points (`seq<char>`), as Python strings are.
 */
module Text {

  /** `s.lstrip(cs)`: drops the longest prefix made of characters of `cs`. */
  function TrimLeft(s: string, cs: set<char>): (r: string)
    ensures |r| <= |s| && r == s[|s| - |r|..]
    ensures r != [] ==> r[0] !in cs
    ensures forall i :: 0 <= i < |s| - |r| ==> s[i] in cs
  {
    if s != [] && s[0] in cs then TrimLeft(s[1..], cs) else s
  }

  /** `s.rstrip(cs)`: drops the longest suffix made of characters of `cs`. */
  function TrimRight(s: string, cs: set<char>): (r: string)
    ensures |r| <= |s| && r == s[..|r|]
    ensures r != [] ==> r[|r| - 1] !in cs
    ensures forall i :: |r| <= i < |s| ==> s[i] in cs
  {
    if s != [] && s[|s| - 1] in cs then TrimRight(s[..|s| - 1], cs) else s
  }

  /** `s.strip(cs)`: both ends at once. */
  function Strip(s: string, cs: set<char>): (r: string)
    ensures r != [] ==> r[0] !in cs && r[|r| - 1] !in cs
    ensures LeftCut(s, cs) + |r| <= |s| && r == s[LeftCut(s, cs)..LeftCut(s, cs) + |r|]
  {
    TrimRight(TrimLeft(s, cs), cs)
  }

  /** How many characters `lstrip` removes from the front. */
  function LeftCut(s: string, cs: set<char>): (k: nat)
    ensures k <= |s| && TrimLeft(s, cs) == s[k..]
  {
    |s| - |TrimLeft(s, cs)|
  }

  /** Every character of `s` belongs to `cs`. */
  predicate AllIn(s: string, cs: set<char>)
  {
    forall i :: 0 <= i < |s| ==> s[i] in cs
  }

  /** A string is what `strip` keeps, with characters of `cs` on either side. */
  lemma StripParts(s: string, cs: set<char>) returns (x: string, z: string)
    ensures s == x + Strip(s, cs) + z && AllIn(x, cs) && AllIn(z, cs)
  {
    var t := TrimLeft(s, cs);
    var m := TrimRight(t, cs);
    var k := |s| - |t|;
    x, z := s[..k], t[|m|..];
    assert AllIn(x, cs) by {
      forall i | 0 <= i < |x| ensures x[i] in cs {
        assert x[i] == s[i];
      }
    }
    assert AllIn(z, cs) by {
      forall i | 0 <= i < |z| ensures z[i] in cs {
        assert z[i] == t[|m| + i];
      }
    }
    SplitAt(t, |m|);
    SplitAt(s, k);
    Assoc(x, m, z);
  }

  lemma Assoc(a: string, b: string, c: string)
    ensures a + b + c == a + (b + c)
  {
  }

  lemma SplitAt(s: string, n: nat)
    requires n <= |s|
    ensures s == s[..n] + s[n..]
  {
  }

  /** Stripping leaves a string alone whose two ends are already outside `cs`. */
  lemma StripKeeps(s: string, cs: set<char>)
    requires s != [] ==> s[0] !in cs && s[|s| - 1] !in cs
    ensures Strip(s, cs) == s
  {
  }

  /** Characters of `cs` in front of the string make no difference to `lstrip`. */
  lemma {:induction false} TrimLeftPrefix(x: string, y: string, cs: set<char>)
    requires AllIn(x, cs)
    ensures TrimLeft(x + y, cs) == TrimLeft(y, cs)
  {
    if x == [] {
      assert x + y == y;
    } else {
      assert (x + y)[0] == x[0];
      assert (x + y)[1..] == x[1..] + y;
      TrimLeftPrefix(x[1..], y, cs);
    }
  }

  /** Characters of `cs` at the back make no difference to `rstrip`. */
  lemma {:induction false} TrimRightSuffix(y: string, z: string, cs: set<char>)
    requires AllIn(z, cs)
    ensures TrimRight(y + z, cs) == TrimRight(y, cs)
  {
    if z == [] {
      assert y + z == y;
    } else {
      assert (y + z)[|y + z| - 1] == z[|z| - 1];
      assert (y + z)[..|y + z| - 1] == y + z[..|z| - 1];
      TrimRightSuffix(y, z[..|z| - 1], cs);
    }
  }

  /** `lstrip` of `y + z` when `z` is all in `cs`: either it reaches into `z` and empties everything, or it stops inside `y`. */
  lemma {:induction false} TrimLeftSuffix(y: string, z: string, cs: set<char>)
    requires AllIn(z, cs)
    ensures TrimLeft(y + z, cs) == if TrimLeft(y, cs) == [] then [] else TrimLeft(y, cs) + z
  {
    if y == [] {
      assert y + z == z;
      TrimLeftPrefix(z, [], cs);
      assert z + [] == z;
    } else if y[0] in cs {
      assert (y + z)[1..] == y[1..] + z;
      TrimLeftSuffix(y[1..], z, cs);
    } else {
      assert (y + z)[0] == y[0];
    }
  }

  /** Characters of `cs` at either end make no difference to `strip`. */
  lemma StripSurrounded(x: string, y: string, z: string, cs: set<char>)
    requires AllIn(x, cs) && AllIn(z, cs)
    ensures Strip(x + y + z, cs) == Strip(y, cs)
  {
    assert x + y + z == x + (y + z);
    TrimLeftPrefix(x, y + z, cs);
    TrimLeftSuffix(y, z, cs);
    if TrimLeft(y, cs) != [] {
      TrimRightSuffix(TrimLeft(y, cs), z, cs);
    }
  }

  predicate IsPrefix(p: string, s: string)
  {
    |p| <= |s| && s[..|p|] == p
  }

  predicate IsSuffix(p: string, s: string)
  {
    |p| <= |s| && s[|s| - |p|..] == p
  }

  /** `replace` works character by character, so it distributes over concatenation. */
  lemma {:induction false} ReplaceSpacesAppend(a: string, b: string)
    ensures ReplaceSpaces(a + b) == ReplaceSpaces(a) + ReplaceSpaces(b)
  {
    if a == [] {
      assert a + b == b;
    } else {
      assert (a + b)[0] == a[0] && (a + b)[1..] == a[1..] + b;
      ReplaceSpacesAppend(a[1..], b);
    }
  }

  /** `s.replace(" ", "_")`. */
  function ReplaceSpaces(s: string): (r: string)
    ensures |r| == |s|
    ensures forall i :: 0 <= i < |s| ==> r[i] == if s[i] == ' ' then '_' else s[i]
  {
    if s == [] then [] else (if s[0] == ' ' then "_" else [s[0]]) + ReplaceSpaces(s[1..])
  }

  /** A string without spaces is left alone by `replace(" ", "_")`. */
  lemma ReplaceSpacesKeeps(s: string)
    requires forall i :: 0 <= i < |s| ==> s[i] != ' '
    ensures ReplaceSpaces(s) == s
  {
  }

  /**
   * `str(n)` for an integer: its decimal digits, which read back as `n`, with
   * a minus sign in front when it is negative.
   */
  function Decimal(n: int): (r: string)
    ensures r != []
    ensures n >= 0 ==> (forall i :: 0 <= i < |r| ==> '0' <= r[i] <= '9') && ReadNatural(r) == n
    ensures n < 0 ==> |r| > 1 && r[0] == '-' && (forall i :: 1 <= i < |r| ==> '0' <= r[i] <= '9') && ReadNatural(r[1..]) == -n
  {
    if n < 0 then
      NaturalRoundTrip(-n);
      var r := "-" + Natural(-n);
      assert r[1..] == Natural(-n);
      r
    else NaturalRoundTrip(n); Natural(n)
  }

  /** The decimal digits of a natural number, without leading zeros. */
  function Natural(n: nat): (r: string)
    ensures r != [] && forall i :: 0 <= i < |r| ==> '0' <= r[i] <= '9'
    ensures |r| > 1 ==> r[0] != '0'
    decreases n
  {
    if n < 10 then [DigitChar(n)] else Natural(n / 10) + [DigitChar(n % 10)]
  }

  /** The ASCII digit of a value below ten. */
  function DigitChar(d: nat): (c: char)
    requires d < 10
    ensures '0' <= c <= '9' && c as int - '0' as int == d
  {
    ('0' as int + d) as char
  }

  /** The value of an ASCII digit. */
  function DigitValue(c: char): (d: nat)
    requires '0' <= c <= '9'
    ensures d < 10 && DigitChar(d) == c
  {
    c as int - '0' as int
  }

  /** Reading back what `Natural` wrote gives the number again. */
  lemma {:induction false} NaturalRoundTrip(n: nat)
    ensures ReadNatural(Natural(n)) == n
  {
    if n >= 10 {
      var s := Natural(n / 10);
      var t := s + [DigitChar(n % 10)];
      assert t[..|t| - 1] == s;
      NaturalRoundTrip(n / 10);
    }
  }

  /** The value of a string of ASCII digits. */
  function ReadNatural(s: string): nat
    requires forall i :: 0 <= i < |s| ==> '0' <= s[i] <= '9'
  {
    if s == [] then 0 else 10 * ReadNatural(s[..|s| - 1]) + DigitValue(s[|s| - 1])
  }
}
