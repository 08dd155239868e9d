/** String helpers shared by every filter of the job board: JavaScript's
    `toLowerCase` (approximated by ASCII lower-casing) and `includes`
    (substring search, where the empty needle occurs in every string). */
module Strings {

  /** ASCII lower-casing of one character; every other character is kept. */
  function LowerChar(c: char): char {
    if 'A' <= c <= 'Z' then (c as int + 32) as char else c
  }

  predicate IsUpperAscii(c: char) {
    'A' <= c <= 'Z'
  }

  /** The lower-case letters, in alphabetical order: the case table of `Lower`. */
  const LowerAlphabet: string := "abcdefghijklmnopqrstuvwxyz"

  /** `s.toLowerCase()`, restricted to ASCII letters: each capital becomes the
      letter at its position in the alphabet, and every other character is kept. */
  function Lower(s: string): (r: string)
    ensures |r| == |s|
    ensures forall i :: 0 <= i < |s| ==> !IsUpperAscii(r[i])
    ensures forall i :: 0 <= i < |s| ==>
      (!IsUpperAscii(s[i]) ==> r[i] == s[i]) &&
      (IsUpperAscii(s[i]) ==> r[i] == LowerAlphabet[s[i] as int - 'A' as int])
  {
    seq(|s|, i requires 0 <= i < |s| => LowerChar(s[i]))
  }

  /** Lower-casing is idempotent: a term that was lower-cased once is not changed again. */
  lemma LowerIdempotent(s: string)
    ensures Lower(Lower(s)) == Lower(s)
  {
    assert forall i :: 0 <= i < |s| ==> LowerChar(LowerChar(s[i])) == LowerChar(s[i]);
  }

  /** A string without upper-case ASCII letters is its own lower-cased form. */
  lemma LowerOfLowercase(s: string)
    requires forall i :: 0 <= i < |s| ==> !IsUpperAscii(s[i])
    ensures Lower(s) == s
  {
  }

  /** Lower-casing commutes with slicing. */
  lemma LowerSlice(s: string, i: nat, j: nat)
    requires i <= j <= |s|
    ensures Lower(s[i..j]) == Lower(s)[i..j]
  {
  }

  /** `needle[j..]` matches `hay` from position `i + j` on. */
  predicate MatchesFrom(hay: string, needle: string, i: nat, j: nat)
    requires i + |needle| <= |hay| && j <= |needle|
    decreases |needle| - j
  {
    j == |needle| || (hay[i + j] == needle[j] && MatchesFrom(hay, needle, i, j + 1))
  }

  /** Naive search for `needle` in `hay`, trying start positions `i`, `i + 1`, ... */
  predicate SearchFrom(hay: string, needle: string, i: nat)
    decreases |hay| - i
  {
    i + |needle| <= |hay| && (MatchesFrom(hay, needle, i, 0) || SearchFrom(hay, needle, i + 1))
  }

  /** `hay.includes(needle)`. */
  predicate Contains(hay: string, needle: string) {
    SearchFrom(hay, needle, 0)
  }

  /** Reference definition: `needle` occurs in `hay` starting at index `i`. */
  ghost predicate OccursAt(hay: string, needle: string, i: int) {
    0 <= i && i + |needle| <= |hay| && hay[i..i + |needle|] == needle
  }

  /** Character-by-character matching agrees with slice equality. */
  lemma {:induction false} MatchesFromIff(hay: string, needle: string, i: nat, j: nat)
    requires i + |needle| <= |hay| && j <= |needle|
    ensures MatchesFrom(hay, needle, i, j) <==> hay[i + j..i + |needle|] == needle[j..]
    decreases |needle| - j
  {
    if j < |needle| {
      MatchesFromIff(hay, needle, i, j + 1);
      assert hay[i + j..i + |needle|] == [hay[i + j]] + hay[i + j + 1..i + |needle|];
      assert needle[j..] == [needle[j]] + needle[j + 1..];
    }
  }

  /** The search from `i` succeeds exactly when there is an occurrence at or after `i`. */
  lemma {:induction false} SearchFromIff(hay: string, needle: string, i: nat)
    ensures SearchFrom(hay, needle, i) <==> exists k :: i <= k && OccursAt(hay, needle, k)
    decreases |hay| - i
  {
    if i + |needle| <= |hay| {
      SearchFromIff(hay, needle, i + 1);
      MatchesFromIff(hay, needle, i, 0);
      assert needle[0..] == needle;
      if MatchesFrom(hay, needle, i, 0) {
        assert OccursAt(hay, needle, i);
      }
      if k :| i <= k && OccursAt(hay, needle, k) {
        if k == i {
          assert MatchesFrom(hay, needle, i, 0);
        } else {
          assert i + 1 <= k;
        }
      }
    } else {
      forall k | i <= k
        ensures !OccursAt(hay, needle, k)
      {
      }
    }
  }

  /** The search agrees with the reference definition in both directions. */
  lemma ContainsIffOccurs(hay: string, needle: string)
    ensures Contains(hay, needle) <==> exists i :: OccursAt(hay, needle, i)
  {
    SearchFromIff(hay, needle, 0);
  }

  /** An occurrence at a concrete index makes the search succeed. */
  lemma ContainsAt(hay: string, needle: string, i: nat)
    requires OccursAt(hay, needle, i)
    ensures Contains(hay, needle)
  {
    ContainsIffOccurs(hay, needle);
  }

  /** `includes("")` is true of every string. */
  lemma ContainsEmpty(hay: string)
    ensures Contains(hay, "")
  {
    ContainsAt(hay, "", 0);
  }

  /** Every string contains itself. */
  lemma ContainsSelf(s: string)
    ensures Contains(s, s)
  {
    ContainsAt(s, s, 0);
  }

  /** A needle with a character that never appears in `hay` cannot occur in it. */
  lemma NotContainsMissingChar(hay: string, needle: string, k: nat)
    requires k < |needle| && needle[k] !in hay
    ensures !Contains(hay, needle)
  {
    forall i | 0 <= i && i + |needle| <= |hay|
      ensures !OccursAt(hay, needle, i)
    {
      assert hay[i + k] in hay;
      assert hay[i..i + |needle|][k] == hay[i + k];
    }
    ContainsIffOccurs(hay, needle);
  }

  /** A character that is not an upper-case letter is missing from the lower-cased
      string when neither it nor its upper-case form occurs in the original. */
  lemma LowerMissingChar(s: string, c: char, upper: char)
    requires !IsUpperAscii(c) && c !in s && upper !in s
    requires IsUpperAscii(upper) && LowerChar(upper) == c
    ensures c !in Lower(s)
  {
    forall i | 0 <= i < |s|
      ensures Lower(s)[i] != c
    {
      assert s[i] in s;
    }
  }

  /** Same, for characters that have no upper-case form (digits, punctuation). */
  lemma LowerMissingCaseless(s: string, c: char)
    requires c !in s
    requires !('a' <= c <= 'z') && !IsUpperAscii(c)
    ensures c !in Lower(s)
  {
    forall i | 0 <= i < |s|
      ensures Lower(s)[i] != c
    {
      assert s[i] in s;
    }
  }
}
