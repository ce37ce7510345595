/**
 String helpers the analyzers rely on: ASCII lower-casing (the part of
 Python's `str.lower` the keyword tables need), substring containment with
 the meaning of Python's `needle in haystack`, and the decimal rendering of
 a count used in the response summary.
 */
module Text {

  // ---------------------------------------------------------------------
  // ASCII lower-casing
  // ---------------------------------------------------------------------

  predicate IsUpper(c: char) {
    'A' <= c <= 'Z'
  }

  /** Maps 'A'..'Z' to 'a'..'z' and leaves every other character alone. */
  function LowerChar(c: char): (d: char)
    ensures !IsUpper(d)
    ensures !IsUpper(c) ==> d == c
    ensures IsUpper(c) ==> 'a' <= d <= 'z' && d as int - 'a' as int == c as int - 'A' as int
  {
    if IsUpper(c) then (c as int + 32) as char else c
  }

  /** Python's `str.lower` on ASCII: every upper-case letter becomes its lower-case partner, nothing else changes. */
  function Lower(s: string): (r: string)
    ensures |r| == |s|
    ensures NoUpper(r)
    ensures forall i :: 0 <= i < |s| && !IsUpper(s[i]) ==> r[i] == s[i]
    ensures forall i :: 0 <= i < |s| && IsUpper(s[i]) ==> r[i] as int - 'a' as int == s[i] as int - 'A' as int
  {
    seq(|s|, i requires 0 <= i < |s| => LowerChar(s[i]))
  }

  predicate NoUpper(s: string) {
    forall i :: 0 <= i < |s| ==> !IsUpper(s[i])
  }

  /** A string without upper-case letters is its own lower-case form, and only such a string is. */
  lemma LowerFixedPoints(s: string)
    ensures Lower(s) == s <==> NoUpper(s)
  {
  }

  lemma LowerIdempotent(s: string)
    ensures Lower(Lower(s)) == Lower(s)
  {
    LowerFixedPoints(Lower(s));
  }

  /** Lower-casing works character by character, so it distributes over concatenation. */
  lemma LowerConcat(a: string, b: string)
    ensures Lower(a + b) == Lower(a) + Lower(b)
  {
  }

  // ---------------------------------------------------------------------
  // Substring containment
  // ---------------------------------------------------------------------

  /** Reference definition: `t` occurs in `s` starting at position `i`. */
  ghost predicate OccursAt(s: string, t: string, i: int) {
    0 <= i && i + |t| <= |s| && s[i..i + |t|] == t
  }

  /** An occurrence at position 0 is a prefix. */
  lemma OccursAtStart(s: string, t: string)
    ensures OccursAt(s, t, 0) <==> t <= s
  {
    if t <= s {
      assert s[0..|t|] == t;
    }
  }

  /** Occurrences in `s[1..]` are the occurrences in `s` after position 0, shifted by one. */
  lemma OccursAfterStart(s: string, t: string)
    requires |s| > 0
    ensures (exists i :: OccursAt(s[1..], t, i)) <==> exists i :: 1 <= i && OccursAt(s, t, i)
  {
    if exists i :: 1 <= i && OccursAt(s, t, i) {
      var i :| 1 <= i && OccursAt(s, t, i);
      assert s[1..][i - 1..i - 1 + |t|] == s[i..i + |t|];
      assert OccursAt(s[1..], t, i - 1);
    }
    if exists i :: OccursAt(s[1..], t, i) {
      var i :| OccursAt(s[1..], t, i);
      assert s[1..][i..i + |t|] == s[i + 1..i + 1 + |t|];
      assert OccursAt(s, t, i + 1);
    }
  }

  /**
   `t` is a substring of `s`, as Python's `t in s`: it occurs at some
   position (so the empty string is in every string).
   */
  predicate Contains(s: string, t: string): (b: bool)
    ensures b <==> exists i :: OccursAt(s, t, i)
    decreases |s|
  {
    OccursAtStart(s, t);
    if |s| > 0 then
      OccursAfterStart(s, t);
      t <= s || Contains(s[1..], t)
    else
      assert forall i :: OccursAt(s, t, i) ==> i == 0;
      t <= s
  }

  /** A needle that contains a character absent from the haystack does not occur in it. */
  lemma MissingCharRefutes(s: string, t: string, c: char)
    requires c in t && c !in s
    ensures !Contains(s, t)
  {
    var k :| 0 <= k < |t| && t[k] == c;
    forall i | 0 <= i && i + |t| <= |s|
      ensures !OccursAt(s, t, i)
    {
      assert s[i..i + |t|][k] == s[i + k];
    }
  }

  /** A needle without the separator cannot straddle it: it must lie wholly on one side. */
  lemma SeparatorRefutes(a: string, sep: char, b: string, t: string)
    requires sep !in t
    requires !Contains(a, t) && !Contains(b, t)
    ensures !Contains(a + [sep] + b, t)
  {
    var s := a + [sep] + b;
    forall i | 0 <= i && i + |t| <= |s|
      ensures !OccursAt(s, t, i)
    {
      if i + |t| <= |a| {
        assert s[i..i + |t|] == a[i..i + |t|];
        assert !OccursAt(a, t, i);
      } else if i > |a| {
        var j := i - |a| - 1;
        var window, part := s[i..i + |t|], b[j..j + |t|];
        forall k | 0 <= k < |t| ensures window[k] == part[k] {
          assert s[i + k] == b[j + k];
        }
        assert window == part;
        assert !OccursAt(b, t, j);
      } else {
        assert s[i..i + |t|][|a| - i] == sep;
      }
    }
  }

  /** An occurrence inside a part is an occurrence inside the whole. */
  lemma ContainsInPart(a: string, b: string, t: string)
    requires Contains(a, t) || Contains(b, t)
    ensures Contains(a + b, t)
  {
    var s := a + b;
    if Contains(a, t) {
      var i :| OccursAt(a, t, i);
      assert s[i..i + |t|] == a[i..i + |t|];
      assert OccursAt(s, t, i);
    } else {
      var i :| OccursAt(b, t, i);
      assert s[|a| + i..|a| + i + |t|] == b[i..i + |t|];
      assert OccursAt(s, t, |a| + i);
    }
  }

  // ---------------------------------------------------------------------
  // Evidence about a query made of space-separated words
  // ---------------------------------------------------------------------

  /** Joins words with single spaces. */
  function Unwords(ws: seq<string>): string {
    if |ws| == 0 then "" else if |ws| == 1 then ws[0] else ws[0] + " " + Unwords(ws[1..])
  }

  /** A phrase is its first `k` words and the rest, joined by one space. */
  lemma {:induction false} UnwordsSplit(ws: seq<string>, k: nat)
    requires 0 < k < |ws|
    ensures Unwords(ws) == Unwords(ws[..k]) + " " + Unwords(ws[k..])
    decreases k
  {
    if k == 1 {
      assert ws[..1] == [ws[0]];
    } else {
      UnwordsSplit(ws[1..], k - 1);
      assert ws[1..][..k - 1] == ws[..k][1..];
      assert ws[1..][k - 1..] == ws[k..];
    }
  }

  /** No word from position `i` on has the character `c`. */
  predicate InNoWord(ws: seq<string>, c: char, i: nat)
    decreases |ws| - i
  {
    i >= |ws| || (c !in ws[i] && InNoWord(ws, c, i + 1))
  }

  /** From position `i` on, `cs[k]` is a character of `t` missing from word `ws[k]`. */
  predicate MissesEach(ws: seq<string>, cs: seq<char>, t: string, i: nat)
    decreases |ws| - i
  {
    |ws| == |cs| && (i >= |ws| || (cs[i] in t && cs[i] !in ws[i] && MissesEach(ws, cs, t, i + 1)))
  }

  lemma {:induction false} InNoWordAbsent(ws: seq<string>, c: char, i: nat)
    requires i <= |ws| && InNoWord(ws, c, i) && c != ' '
    ensures c !in Unwords(ws[i..])
    decreases |ws| - i
  {
    if i + 1 < |ws| {
      InNoWordAbsent(ws, c, i + 1);
      assert ws[i..][1..] == ws[i + 1..];
    }
  }

  /** A needle with a character (other than the space) that no word has does not occur in the phrase. */
  lemma RefuteByChar(ws: seq<string>, t: string, c: char)
    requires c in t && c != ' ' && InNoWord(ws, c, 0)
    ensures !Contains(Unwords(ws), t)
  {
    InNoWordAbsent(ws, c, 0);
    assert ws[0..] == ws;
    MissingCharRefutes(Unwords(ws), t, c);
  }

  lemma {:induction false} MissesEachRefutes(ws: seq<string>, cs: seq<char>, t: string, i: nat)
    requires ' ' !in t && i < |ws| && MissesEach(ws, cs, t, i)
    ensures !Contains(Unwords(ws[i..]), t)
    decreases |ws| - i
  {
    MissingCharRefutes(ws[i], t, cs[i]);
    if i + 1 < |ws| {
      MissesEachRefutes(ws, cs, t, i + 1);
      assert ws[i..][1..] == ws[i + 1..];
      SeparatorRefutes(ws[i], ' ', Unwords(ws[i + 1..]), t);
    }
  }

  /** A needle without a space, missing some character from each word, does not occur in the phrase. */
  lemma RefuteByWords(ws: seq<string>, cs: seq<char>, t: string)
    requires ' ' !in t && |ws| > 0 && MissesEach(ws, cs, t, 0)
    ensures !Contains(Unwords(ws), t)
  {
    MissesEachRefutes(ws, cs, t, 0);
    assert ws[0..] == ws;
  }

  /** A needle inside one word occurs in the phrase. */
  lemma {:induction false} ContainedInWord(ws: seq<string>, k: nat, t: string)
    requires k < |ws| && Contains(ws[k], t)
    ensures Contains(Unwords(ws), t)
  {
    if |ws| > 1 {
      if k == 0 {
        ContainsInPart(ws[0], " " + Unwords(ws[1..]), t);
        assert ws[0] + " " + Unwords(ws[1..]) == ws[0] + (" " + Unwords(ws[1..]));
      } else {
        ContainedInWord(ws[1..], k - 1, t);
        ContainsInPart(ws[0] + " ", Unwords(ws[1..]), t);
      }
    }
  }

  /** From position `i` on, `ls[k]` is the lower-case form of `ws[k]`. */
  predicate LowersTo(ws: seq<string>, ls: seq<string>, i: nat)
    decreases |ws| - i
  {
    |ws| == |ls| && (i >= |ws| || (Lower(ws[i]) == ls[i] && LowersTo(ws, ls, i + 1)))
  }

  lemma {:induction false} LowerWordsFrom(ws: seq<string>, ls: seq<string>, i: nat)
    requires i <= |ws| && LowersTo(ws, ls, i)
    ensures Lower(Unwords(ws[i..])) == Unwords(ls[i..])
    decreases |ws| - i
  {
    if i + 1 < |ws| {
      LowerWordsFrom(ws, ls, i + 1);
      assert ws[i..][1..] == ws[i + 1..];
      assert ls[i..][1..] == ls[i + 1..];
      LowerConcat(ws[i] + " ", Unwords(ws[i + 1..]));
      LowerConcat(ws[i], " ");
      assert Lower(" ") == " ";
    }
  }

  /** Lower-casing a phrase lower-cases each of its words. */
  lemma LowerWords(ws: seq<string>, ls: seq<string>)
    requires LowersTo(ws, ls, 0)
    ensures Lower(Unwords(ws)) == Unwords(ls)
  {
    LowerWordsFrom(ws, ls, 0);
    assert ws[0..] == ws && ls[0..] == ls;
  }

  // ---------------------------------------------------------------------
  // Decimal rendering of a count (Python's str() of a non-negative int)
  // ---------------------------------------------------------------------

  predicate IsDigit(c: char) {
    '0' <= c <= '9'
  }

  predicate AllDigits(s: string) {
    forall i :: 0 <= i < |s| ==> IsDigit(s[i])
  }

  function DigitChar(d: nat): (c: char)
    requires d < 10
    ensures IsDigit(c)
  {
    ('0' as int + d) as char
  }

  function DigitValue(c: char): (d: nat)
    requires IsDigit(c)
    ensures d < 10
  {
    c as int - '0' as int
  }

  /** The shortest decimal numeral for `n`: it starts with `0` only when it is `"0"`. */
  function Decimal(n: nat): (r: string)
    ensures 1 <= |r| && AllDigits(r)
    ensures r[0] == '0' ==> n == 0 && r == "0"
  {
    if n < 10 then [DigitChar(n)] else Decimal(n / 10) + [DigitChar(n % 10)]
  }

  /** The value of a numeral. */
  function ParseDigits(s: string): nat
    requires AllDigits(s)
  {
    if |s| == 0 then 0 else 10 * ParseDigits(s[..|s| - 1]) + DigitValue(s[|s| - 1])
  }

  lemma {:induction false} DecimalRoundTrip(n: nat)
    ensures ParseDigits(Decimal(n)) == n
  {
    if n >= 10 {
      DecimalRoundTrip(n / 10);
      var d := Decimal(n);
      assert d[..|d| - 1] == Decimal(n / 10);
    }
  }

  /** A numeral without a leading zero (other than `"0"` itself). */
  predicate Canonical(d: string) {
    1 <= |d| && AllDigits(d) && (d[0] == '0' ==> |d| == 1)
  }

  lemma {:induction false} ParseDigitsPositive(d: string)
    requires 1 <= |d| && AllDigits(d) && d[0] != '0'
    ensures ParseDigits(d) >= 1
    decreases |d|
  {
    if |d| > 1 {
      ParseDigitsPositive(d[..|d| - 1]);
    }
  }

  /** Conversely to `DecimalRoundTrip`, a canonical numeral is the shortest numeral of its value. */
  lemma {:induction false} DecimalOfCanonical(d: string)
    requires Canonical(d)
    ensures Decimal(ParseDigits(d)) == d
    decreases |d|
  {
    var n := ParseDigits(d);
    var c := d[|d| - 1];
    if |d| == 1 {
      assert DigitChar(DigitValue(c)) == c;
      assert d == [c];
    } else {
      var front := d[..|d| - 1];
      ParseDigitsPositive(front);
      DecimalOfCanonical(front);
      assert n / 10 == ParseDigits(front) && n % 10 == DigitValue(c);
      assert DigitChar(DigitValue(c)) == c;
      assert d == front + [c];
    }
  }

  /** The number of digits at the front of `s`. */
  function DigitRun(s: string): (k: nat)
    ensures k <= |s| && AllDigits(s[..k])
    ensures k < |s| ==> !IsDigit(s[k])
  {
    if |s| == 0 || !IsDigit(s[0]) then 0
    else
      var k := 1 + DigitRun(s[1..]);
      assert s[..k] == [s[0]] + s[1..][..k - 1];
      k
  }

  /** A numeral followed by a non-digit is read back exactly. */
  lemma {:induction false} DigitRunOfNumeral(d: string, rest: string)
    requires AllDigits(d)
    requires |rest| == 0 || !IsDigit(rest[0])
    ensures DigitRun(d + rest) == |d|
    decreases |d|
  {
    if |d| > 0 {
      assert (d + rest)[1..] == d[1..] + rest;
      DigitRunOfNumeral(d[1..], rest);
    } else {
      assert d + rest == rest;
    }
  }
}
