/**
 * The few pieces of the .NET string library the modelled code relies on:
 * ordinal case-insensitive `Contains` (over ASCII letters), `Split(' ')`,
 * `StartsWith` and the decimal rendering of a non-negative integer.
 */
module Strings {

  /** Folds an ASCII upper-case letter to lower case; every other character is kept. */
  function FoldAscii(c: char): (r: char)
    ensures 'A' <= c <= 'Z' ==> r as int == c as int + 32
    ensures !('A' <= c <= 'Z') ==> r == c
  {
    if 'A' <= c <= 'Z' then (c as int + 32) as char else c
  }

  /** `term` occurs in `s` at offset `k`, comparing characters after case folding. */
  ghost predicate MatchesAt(s: string, term: string, k: int)
  {
    0 <= k && k + |term| <= |s| &&
    forall j :: 0 <= j < |term| ==> FoldAscii(s[k + j]) == FoldAscii(term[j])
  }

  /** `s` begins with `term`, ignoring ASCII case. */
  predicate StartsWithIgnoreCase(s: string, term: string)
    ensures StartsWithIgnoreCase(s, term) <==> MatchesAt(s, term, 0)
  {
    |term| <= |s| && forall j :: 0 <= j < |term| ==> FoldAscii(s[j]) == FoldAscii(term[j])
  }

  /**
   * `s.Contains(term, StringComparison.OrdinalIgnoreCase)`: some offset of `s`
   * starts a case-insensitive copy of `term`. The empty term is contained in every string.
   */
  function ContainsIgnoreCase(s: string, term: string): (r: bool)
    ensures r <==> exists k :: MatchesAt(s, term, k)
    decreases |s|
  {
    if StartsWithIgnoreCase(s, term) then true
    else if s == [] then false
    else
      var rest := ContainsIgnoreCase(s[1..], term);
      assert rest ==> exists k :: MatchesAt(s, term, k) by {
        if rest {
          var k :| MatchesAt(s[1..], term, k);
          assert MatchesAt(s, term, k + 1);
        }
      }
      assert (exists k :: MatchesAt(s, term, k)) ==> rest by {
        if k :| MatchesAt(s, term, k) {
          assert k != 0;
          assert MatchesAt(s[1..], term, k - 1);
        }
      }
      rest
  }

  /** `s` begins with `prefix`, comparing characters exactly (ordinal `StartsWith`). */
  predicate StartsWith(s: string, prefix: string)
  {
    |prefix| <= |s| && s[..|prefix|] == prefix
  }

  /** The number of occurrences of `c` in `s`. */
  function CountChar(s: string, c: char): (n: nat)
    ensures n <= |s|
  {
    if s == [] then 0 else (if s[0] == c then 1 else 0) + CountChar(s[1..], c)
  }

  /** Occurrences in a concatenation add up. */
  lemma {:induction false} CountCharConcat(a: string, b: string, c: char)
    ensures CountChar(a + b, c) == CountChar(a, c) + CountChar(b, c)
  {
    if a == [] {
      assert a + b == b;
    } else {
      assert (a + b)[1..] == a[1..] + b;
      CountCharConcat(a[1..], b, c);
    }
  }

  /**
   * `s.Split(sep)`: the pieces between occurrences of `sep`, empty pieces kept.
   * There is always at least one piece.
   */
  function Split(s: string, sep: char): (pieces: seq<string>)
    ensures |pieces| >= 1
    ensures forall p :: p in pieces ==> sep !in p
  {
    if s == [] then [""]
    else
      var rest := Split(s[1..], sep);
      if s[0] == sep then [""] + rest
      else [[s[0]] + rest[0]] + rest[1..]
  }

  /** `string.Join(sep, pieces)`. */
  function Join(pieces: seq<string>, sep: char): (s: string)
  {
    if pieces == [] then ""
    else if |pieces| == 1 then pieces[0]
    else pieces[0] + [sep] + Join(pieces[1..], sep)
  }

  /** Splitting on one character yields one piece more than there are occurrences of it. */
  lemma {:induction false} SplitLength(s: string, sep: char)
    ensures |Split(s, sep)| == CountChar(s, sep) + 1
  {
    if s != [] {
      SplitLength(s[1..], sep);
    }
  }

  /** Joining the pieces of a split with the same separator gives back the string. */
  lemma {:induction false} JoinSplit(s: string, sep: char)
    ensures Join(Split(s, sep), sep) == s
  {
    if s != [] {
      var rest := Split(s[1..], sep);
      JoinSplit(s[1..], sep);
      if s[0] == sep {
        assert Split(s, sep) == [""] + rest;
        assert (["" ] + rest)[1..] == rest;
      } else {
        var pieces := Split(s, sep);
        assert pieces == [[s[0]] + rest[0]] + rest[1..];
        if |rest| == 1 {
          assert Join(pieces, sep) == [s[0]] + rest[0];
        } else {
          assert pieces[1..] == rest[1..];
          assert Join(rest, sep) == rest[0] + [sep] + Join(rest[1..], sep);
        }
      }
    }
  }

  /** The decimal digit for `d`. */
  function DigitChar(d: nat): (c: char)
    requires d < 10
    ensures '0' <= c <= '9'
  {
    (48 + d) as char
  }

  /**
   * `n.ToString()` for a non-negative integer: its decimal digits, most significant first,
   * in the canonical form with no leading zero ("0" only for zero).
   */
  function NatToString(n: nat): (s: string)
    ensures |s| >= 1
    ensures forall j :: 0 <= j < |s| ==> '0' <= s[j] <= '9'
    ensures |s| > 1 ==> s[0] != '0'
    ensures s[0] == '0' <==> n == 0
  {
    if n < 10 then [DigitChar(n)] else NatToString(n / 10) + [DigitChar(n % 10)]
  }

  /** The value of a string of decimal digits (an independent reading, used to state round trips). */
  function ParseDigits(s: string): (n: nat)
    requires forall j :: 0 <= j < |s| ==> '0' <= s[j] <= '9'
  {
    if s == [] then 0 else ParseDigits(s[..|s| - 1]) * 10 + (s[|s| - 1] as int - 48)
  }

  /** Reading back the decimal rendering of a number gives the number. */
  lemma {:induction false} ParseNatToString(n: nat)
    ensures ParseDigits(NatToString(n)) == n
  {
    var s := NatToString(n);
    if n >= 10 {
      ParseNatToString(n / 10);
      assert s[..|s| - 1] == NatToString(n / 10);
    }
  }
}
