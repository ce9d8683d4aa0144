/** The two case-insensitive regular expressions the record converter tests
    station names against: `/Los Angeles|\bLA\b/i` and `/Orange|\bOC\b/i`.

    Without the `u` flag, `/i` folds case by upper-casing both sides, and never
    maps a non-ASCII character onto an ASCII one; since every pattern character
    here is ASCII, folding ASCII letters alone decides a match exactly. `\b`
    is a position where exactly one neighbour is a word character
    `[A-Za-z0-9_]`, the outside of the string counting as a non-word character.
    `test` succeeds when some start position begins a match of either
    alternative. */
module StationPattern {

  /** ASCII upper-casing. */
  function Fold(c: char): char {
    if 'a' <= c <= 'z' then (c as int - 32) as char else c
  }

  predicate IsWordChar(c: char) {
    'a' <= c <= 'z' || 'A' <= c <= 'Z' || '0' <= c <= '9' || c == '_'
  }

  /** `s` holds `p`, ignoring case, starting at position `i`. */
  predicate MatchesAt(s: string, i: nat, p: string) {
    i + |p| <= |s| && forall j :: 0 <= j < |p| ==> Fold(s[i + j]) == Fold(p[j])
  }

  /** `\b` holds at position `i` of `s`. */
  predicate Boundary(s: string, i: nat)
    requires i <= |s|
  {
    (i > 0 && IsWordChar(s[i - 1])) != (i < |s| && IsWordChar(s[i]))
  }

  /** One alternative matches at position `i`; `whole` wraps it in `\b…\b`. */
  predicate Hit(s: string, i: nat, p: string, whole: bool) {
    MatchesAt(s, i, p) && (whole ==> Boundary(s, i) && Boundary(s, i + |p|))
  }

  /** Declarative reading: the alternative matches somewhere in `s`. */
  ghost predicate Occurs(s: string, p: string, whole: bool) {
    exists i: nat :: i <= |s| && Hit(s, i, p, whole)
  }

  /** Scans start positions `i`, `i + 1`, …, `|s|` for a match. */
  function FindFrom(s: string, p: string, whole: bool, i: nat): (r: bool)
    requires i <= |s|
    ensures r <==> exists k: nat :: i <= k <= |s| && Hit(s, k, p, whole)
    decreases |s| - i
  {
    if Hit(s, i, p, whole) then true
    else if i == |s| then false
    else FindFrom(s, p, whole, i + 1)
  }

  ghost predicate IsLosAngeles(s: string) {
    Occurs(s, "Los Angeles", false) || Occurs(s, "LA", true)
  }

  ghost predicate IsOrange(s: string) {
    Occurs(s, "Orange", false) || Occurs(s, "OC", true)
  }

  /** `/Los Angeles|\bLA\b/i.test(s)` */
  function TestLosAngeles(s: string): (r: bool)
    ensures r <==> IsLosAngeles(s)
  {
    FindFrom(s, "Los Angeles", false, 0) || FindFrom(s, "LA", true, 0)
  }

  /** `/Orange|\bOC\b/i.test(s)` */
  function TestOrange(s: string): (r: bool)
    ensures r <==> IsOrange(s)
  {
    FindFrom(s, "Orange", false, 0) || FindFrom(s, "OC", true, 0)
  }

  /** Case is ignored: a lower-case "la" standing alone is a match. */
  lemma LowerCaseWordMatches()
    ensures TestLosAngeles("Ballona Creek at la harbor")
  {
    assert Hit("Ballona Creek at la harbor", 17, "LA", true);
  }

  /** "la" inside a longer word is not the word "LA". */
  lemma EmbeddedLettersDoNotMatch()
    ensures !TestLosAngeles("Playa")
  {
  }
}
