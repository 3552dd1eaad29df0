/** String helpers behind the head scan: exact substring search (Python's `in`),
    ASCII case-insensitive search (`re.search` with `re.IGNORECASE` on a pattern
    without metacharacters) and concatenation (`"".join`). */
module Text {

  datatype Option<T> = None | Some(value: T)

  /** `pat` occurs in `text` starting at index `i`. */
  predicate OccursAt(pat: string, text: string, i: int)
  {
    0 <= i && i + |pat| <= |text| && text[i..i + |pat|] == pat
  }

  /** The first index at or after `from` where `pat` occurs in `text`. */
  function IndexFrom(pat: string, text: string, from: nat): (r: Option<nat>)
    ensures r.Some? ==> from <= r.value && OccursAt(pat, text, r.value)
    ensures r.Some? ==> forall j :: from <= j < r.value ==> !OccursAt(pat, text, j)
    ensures r.None? ==> forall j :: from <= j ==> !OccursAt(pat, text, j)
    decreases |text| - from
  {
    if from + |pat| > |text| then None
    else if text[from..from + |pat|] == pat then Some(from)
    else IndexFrom(pat, text, from + 1)
  }

  /** Python's `pat in text`. */
  function Contains(pat: string, text: string): (b: bool)
    ensures b <==> exists i :: OccursAt(pat, text, i)
  {
    IndexFrom(pat, text, 0).Some?
  }

  function LowerChar(c: char): char
  {
    if 'A' <= c <= 'Z' then (c as int + 32) as char else c
  }

  lemma FoldSlice(s: string, i: nat, j: nat)
    requires i <= j <= |s|
    ensures Fold(s)[i..j] == Fold(s[i..j])
  {
  }

  /** ASCII lower-casing, character by character. */
  function Fold(s: string): (r: string)
    ensures |r| == |s|
  {
    seq(|s|, i requires 0 <= i < |s| => LowerChar(s[i]))
  }

  /** `pat` matches somewhere in `text` when ASCII letter case is ignored. */
  function ContainsIgnoringCase(pat: string, text: string): (b: bool)
  {
    Contains(Fold(pat), Fold(text))
  }

  /** A case-insensitive match is a window of `text` that agrees with `pat`
      character by character once both are lower-cased. */
  lemma ContainsIgnoringCaseMeaning(pat: string, text: string)
    ensures ContainsIgnoringCase(pat, text) <==>
      exists i :: 0 <= i && i + |pat| <= |text| && MatchesFoldedAt(pat, text, i)
  {
    if ContainsIgnoringCase(pat, text) {
      var i :| OccursAt(Fold(pat), Fold(text), i);
      assert MatchesFoldedAt(pat, text, i) by {
        forall k | 0 <= k < |pat|
          ensures LowerChar(text[i + k]) == LowerChar(pat[k])
        {
          assert Fold(text)[i..i + |pat|][k] == Fold(pat)[k];
        }
      }
    }
    if exists i :: 0 <= i && i + |pat| <= |text| && MatchesFoldedAt(pat, text, i) {
      var i :| 0 <= i && i + |pat| <= |text| && MatchesFoldedAt(pat, text, i);
      assert Fold(text)[i..i + |pat|] == Fold(pat);
      assert OccursAt(Fold(pat), Fold(text), i);
    }
  }

  predicate MatchesFoldedAt(pat: string, text: string, i: nat)
    requires i + |pat| <= |text|
  {
    forall k :: 0 <= k < |pat| ==> LowerChar(text[i + k]) == LowerChar(pat[k])
  }

  /** Python's `"".join(parts)`. */
  function Concat(parts: seq<string>): (r: string)
  {
    if parts == [] then "" else parts[0] + Concat(parts[1..])
  }

  /** Python's `sep.join(parts)`. */
  function Join(parts: seq<string>, sep: string): string
  {
    if parts == [] then ""
    else if |parts| == 1 then parts[0]
    else parts[0] + sep + Join(parts[1..], sep)
  }
}
