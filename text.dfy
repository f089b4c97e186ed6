/** The string operations `MusicPlayer::searchSong` relies on: lower-casing with
    `::tolower` and substring search with `std::string::find`. */
module Text {
  import opened Common

  predicate IsUpper(c: char) {
    'A' <= c <= 'Z'
  }

  /** `::tolower` in the "C" locale: only the 26 ASCII capitals change. */
  function LowerChar(c: char): char {
    if IsUpper(c) then (c as int + 32) as char else c
  }

  /** `std::transform(s.begin(), s.end(), s.begin(), ::tolower)`. */
  function Lower(s: string): (r: string)
    ensures |r| == |s|
    ensures forall i :: 0 <= i < |s| ==> !IsUpper(r[i])
    ensures forall i :: 0 <= i < |s| && IsUpper(s[i]) ==> r[i] as int == s[i] as int + 32
    ensures forall i :: 0 <= i < |s| && !IsUpper(s[i]) ==> r[i] == s[i]
  {
    seq(|s|, i requires 0 <= i < |s| => LowerChar(s[i]))
  }

  /** `k` occurs in `s` starting at position `j`. */
  predicate OccursAt(s: string, k: string, j: nat) {
    j + |k| <= |s| && s[j..j + |k|] == k
  }

  /** `s.find(k, from)`: the first position at or after `from` where `k` occurs,
      `None` standing for `npos`. */
  function Find(s: string, k: string, from: nat): (r: Option<nat>)
    ensures r.Some? ==> from <= r.value && OccursAt(s, k, r.value)
    ensures r.Some? ==> forall j :: from <= j < r.value ==> !OccursAt(s, k, j)
    ensures r.None? ==> forall j :: from <= j ==> !OccursAt(s, k, j)
    decreases |s| - from
  {
    if from + |k| > |s| then None
    else if s[from..from + |k|] == k then Some(from)
    else Find(s, k, from + 1)
  }

  /** The test `searchSong` applies to each name: the lower-cased name contains
      the lower-cased keyword. */
  predicate Matches(name: string, keyword: string) {
    Find(Lower(name), Lower(keyword), 0).Some?
  }

  /** Matching is containment, ignoring the case of ASCII letters on both sides. */
  lemma MatchesIff(name: string, keyword: string)
    ensures Matches(name, keyword) <==> exists j :: OccursAt(Lower(name), Lower(keyword), j)
  {
  }

  /** Lower-casing twice is lower-casing once, so a keyword typed in lower case
      and the same keyword in any mixture of cases find the same songs. */
  lemma LowerIdempotent(s: string)
    ensures Lower(Lower(s)) == Lower(s)
  {
  }

  /** A one-character pattern occurs exactly where that character stands. */
  lemma OccursAtChar(s: string, c: char, j: nat)
    ensures OccursAt(s, [c], j) <==> j < |s| && s[j] == c
  {
  }
}
