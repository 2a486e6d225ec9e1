/** Text operations of the classifier: lower-casing and substring search. */
module Text {

  /** Python's `str.lower` restricted to the letters this system meets:
      Latin A-Z, Cyrillic А-Я (U+0410..U+042F) and the Cyrillic letters
      U+0400..U+040F such as Ё. Every other character is left as is. */
  function LowerChar(c: char): char {
    if 'A' <= c <= 'Z' then (c as int + 0x20) as char
    else if 0x410 <= c as int <= 0x42F then (c as int + 0x20) as char
    else if 0x400 <= c as int <= 0x40F then (c as int + 0x50) as char
    else c
  }

  /** A character that `LowerChar` changes. */
  predicate IsUpper(c: char) {
    'A' <= c <= 'Z' || 0x400 <= c as int <= 0x42F
  }

  function Lower(s: string): (r: string)
    ensures |r| == |s|
    ensures forall i :: 0 <= i < |s| ==> r[i] == LowerChar(s[i])
  {
    seq(|s|, i requires 0 <= i < |s| => LowerChar(s[i]))
  }

  /** Lower-casing never produces an upper-case letter and changes exactly
      the upper-case letters. */
  lemma LowerCharSpec(c: char)
    ensures !IsUpper(LowerChar(c))
    ensures LowerChar(c) != c <==> IsUpper(c)
  {
  }

  /** The lower-cased text contains no upper-case letter. */
  lemma LowerHasNoUpper(s: string)
    ensures forall i :: 0 <= i < |s| ==> !IsUpper(Lower(s)[i])
  {
    forall i | 0 <= i < |s| {
      LowerCharSpec(s[i]);
    }
  }

  /** Lower-casing twice is lower-casing once. */
  lemma LowerIdempotent(s: string)
    ensures Lower(Lower(s)) == Lower(s)
  {
    forall i | 0 <= i < |s|
      ensures Lower(Lower(s))[i] == Lower(s)[i]
    {
      LowerCharSpec(s[i]);
    }
  }

  /** `w in s` in Python: `w` is a contiguous piece of `s`. The empty string
      occurs in every string. */
  ghost predicate Occurs(w: string, s: string) {
    exists i: nat :: OccursAt(w, s, i)
  }

  /** `w` occurs in `s` starting at offset `i`. */
  predicate OccursAt(w: string, s: string, i: nat) {
    i + |w| <= |s| && s[i..i + |w|] == w
  }

  /** `w[k..]` matches `s` at offset `j + k`, compared character by character. */
  predicate MatchesFrom(w: string, s: string, j: nat, k: nat)
    requires j + |w| <= |s| && k <= |w|
    decreases |w| - k
  {
    k == |w| || (s[j + k] == w[k] && MatchesFrom(w, s, j, k + 1))
  }

  lemma {:induction false} MatchesFromSpec(w: string, s: string, j: nat, k: nat)
    requires j + |w| <= |s| && k <= |w|
    ensures MatchesFrom(w, s, j, k) <==> s[j + k..j + |w|] == w[k..]
    decreases |w| - k
  {
    if k < |w| {
      MatchesFromSpec(w, s, j, k + 1);
      assert s[j + k..j + |w|] == [s[j + k]] + s[j + k + 1..j + |w|];
      assert w[k..] == [w[k]] + w[k + 1..];
    }
  }

  /** Scans the start offsets `j`, `j + 1`, ... for an occurrence of `w`. */
  function ScanFrom(w: string, s: string, j: nat): bool
    decreases |s| - j
  {
    if j + |w| > |s| then false else MatchesFrom(w, s, j, 0) || ScanFrom(w, s, j + 1)
  }

  /** The scan from `j` finds exactly the occurrences at offsets `j` and up. */
  lemma {:induction false} ScanFromSpec(w: string, s: string, j: nat)
    ensures ScanFrom(w, s, j) <==> exists i: nat :: j <= i && OccursAt(w, s, i)
    decreases |s| - j
  {
    if j + |w| <= |s| {
      MatchesFromSpec(w, s, j, 0);
      ScanFromSpec(w, s, j + 1);
      if ScanFrom(w, s, j) {
        assert OccursAt(w, s, j) || exists i: nat :: j + 1 <= i && OccursAt(w, s, i);
      } else {
        assert !OccursAt(w, s, j);
      }
    }
  }

  /** Substring search, checked against the specification `Occurs`. */
  function Contains(w: string, s: string): (r: bool)
    ensures r <==> Occurs(w, s)
  {
    ScanFromSpec(w, s, 0);
    ScanFrom(w, s, 0)
  }

  /** An occurrence of `w` puts every character of `w` into `s`. */
  lemma OccurrenceChars(w: string, s: string, i: nat, k: nat)
    requires OccursAt(w, s, i)
    requires k < |w|
    ensures s[i + k] == w[k]
  {
    assert s[i..i + |w|][k] == s[i + k];
  }
}
