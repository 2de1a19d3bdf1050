/** The `Cache-Control` header as the cache reads it: six regular expressions
  * applied to the raw header string.  Words such as `private` are matched
  * case-insensitively between word boundaries (`/\b(?:...)\b/gi`); arguments
  * such as `max-age=` are matched case-sensitively, leftmost first, followed by
  * one or more digits taken greedily (`/max-age=(\d+)/` then `parseInt`). */
module CacheControl {
  import opened Wrappers
  import opened Decimal

  /** Case folding of the `i` flag; only ASCII letters fold (no Unicode mode). */
  function Lower(c: char): char {
    if 'A' <= c <= 'Z' then (c as int + 32) as char else c
  }

  /** The characters `\w` matches, which decide where `\b` lies. */
  predicate IsWordChar(c: char) {
    'a' <= c <= 'z' || 'A' <= c <= 'Z' || IsDigit(c) || c == '_'
  }

  /** `w`, written in lower case and beginning and ending with a letter, occurs
    * at position `i` of `s` ignoring ASCII case, with a word boundary on both
    * sides. */
  predicate WordAt(s: string, w: string, i: nat) {
    && i + |w| <= |s|
    && (forall j | 0 <= j < |w| :: Lower(s[i + j]) == w[j])
    && (i == 0 || !IsWordChar(s[i - 1]))
    && (i + |w| == |s| || !IsWordChar(s[i + |w|]))
  }

  /** The scan a global regular expression makes for `w` from position `from` on. */
  function FindWord(s: string, w: string, from: nat): (found: bool)
    requires w != [] && from <= |s|
    decreases |s| - from
  {
    if from + |w| > |s| then false
    else WordAt(s, w, from) || FindWord(s, w, from + 1)
  }

  /** The scan finds `w` exactly when a boundary-delimited occurrence lies at or after `from`. */
  lemma {:induction false} FindWordFinds(s: string, w: string, from: nat)
    requires w != [] && from <= |s|
    decreases |s| - from
    ensures FindWord(s, w, from) <==> exists i | from <= i :: WordAt(s, w, i)
  {
    if from + |w| <= |s| {
      FindWordFinds(s, w, from + 1);
      if !WordAt(s, w, from) && exists i | from <= i :: WordAt(s, w, i) {
        var i :| from <= i && WordAt(s, w, i);
        assert from + 1 <= i;
      }
    }
  }

  /** `/\bw\b/gi` matches somewhere in `s`. */
  predicate HasWord(s: string, w: string)
    requires w != []
  {
    FindWord(s, w, 0)
  }

  /** `/\b(?:private|no-store)\b/gi` (index.js:84). */
  predicate ForbidsStoring(cc: string) {
    HasWord(cc, "private") || HasWord(cc, "no-store")
  }

  /** `/\b(?:must-revalidate|proxy-revalidate|no-cache)\b/gi` (index.js:160). */
  predicate DemandsRevalidation(cc: string) {
    HasWord(cc, "must-revalidate") || HasWord(cc, "proxy-revalidate") || HasWord(cc, "no-cache")
  }

  /** `/name(\d+)/` can match at position `i`: `name` is there exactly and a digit follows. */
  predicate ArgumentAt(s: string, name: string, i: nat) {
    i + |name| < |s| && s[i..i + |name|] == name && IsDigit(s[i + |name|])
  }

  /** The leftmost position from `from` on where `/name(\d+)/` matches. */
  function FirstArgument(s: string, name: string, from: nat): (r: Option<nat>)
    requires from <= |s|
    decreases |s| - from
    ensures r.Some? ==> from <= r.value && r.value + |name| < |s|
  {
    if from + |name| >= |s| then None
    else if ArgumentAt(s, name, from) then Some(from)
    else FirstArgument(s, name, from + 1)
  }

  /** The search stops at a match and passes over no earlier one. */
  lemma {:induction false} FirstArgumentIsLeftmost(s: string, name: string, from: nat)
    requires from <= |s|
    decreases |s| - from
    ensures var r := FirstArgument(s, name, from);
      && (r.Some? ==> ArgumentAt(s, name, r.value))
      && (r.Some? ==> forall i | from <= i < r.value :: !ArgumentAt(s, name, i))
      && (r.None? ==> forall i | from <= i :: !ArgumentAt(s, name, i))
  {
    if from + |name| < |s| && !ArgumentAt(s, name, from) {
      FirstArgumentIsLeftmost(s, name, from + 1);
    }
  }

  /** Where the maximal run of digits starting at `k` ends: what greedy `\d+` consumes. */
  function DigitsEnd(s: string, k: nat): (e: nat)
    requires k <= |s|
    decreases |s| - k
    ensures k <= e <= |s|
  {
    if k < |s| && IsDigit(s[k]) then DigitsEnd(s, k + 1) else k
  }

  /** The run is all digits and cannot be extended. */
  lemma {:induction false} DigitsEndIsMaximal(s: string, k: nat)
    requires k <= |s|
    decreases |s| - k
    ensures forall j | k <= j < DigitsEnd(s, k) :: IsDigit(s[j])
    ensures DigitsEnd(s, k) == |s| || !IsDigit(s[DigitsEnd(s, k)])
  {
    if k < |s| && IsDigit(s[k]) {
      DigitsEndIsMaximal(s, k + 1);
    }
  }

  /** The digits the group `(\d+)` captures for a match of `/name(\d+)/` at `i`. */
  function Captured(s: string, name: string, i: nat): (d: string)
    requires i + |name| < |s|
  {
    s[i + |name|..DigitsEnd(s, i + |name|)]
  }

  /** What is captured at a match is a non-empty run of digits. */
  lemma CapturedIsDigits(s: string, name: string, i: nat)
    requires ArgumentAt(s, name, i)
    ensures 1 <= |Captured(s, name, i)| && AllDigits(Captured(s, name, i))
  {
    DigitsEndIsMaximal(s, i + |name|);
  }

  /** `s.match(/name(\d+)/)` followed by `parseInt(match[1], 10)`: the number
    * after the leftmost match, or None when the expression does not match. */
  function Argument(s: string, name: string): (r: Option<nat>)
  {
    match FirstArgument(s, name, 0)
    case None => None
    case Some(i) =>
      FirstArgumentIsLeftmost(s, name, 0);
      CapturedIsDigits(s, name, i);
      Some(Value(Captured(s, name, i)))
  }

  /** The expression matches exactly when the name followed by a digit occurs somewhere. */
  lemma ArgumentFound(s: string, name: string)
    ensures Argument(s, name).Some? <==> exists i :: ArgumentAt(s, name, i)
  {
    FirstArgumentIsLeftmost(s, name, 0);
  }

  /** The leftmost match decides: a later occurrence of the same directive is ignored. */
  lemma ArgumentIsLeftmost(s: string, name: string, i: nat)
    requires ArgumentAt(s, name, i)
    requires forall j | 0 <= j < i :: !ArgumentAt(s, name, j)
    ensures AllDigits(Captured(s, name, i)) && Argument(s, name) == Some(Value(Captured(s, name, i)))
  {
    FirstArgumentIsLeftmost(s, name, 0);
    CapturedIsDigits(s, name, i);
  }

  /** The directives the cache looks at, each as its regular expression finds it. */
  datatype Directives = Directives(
    forbidsStoring: bool,
    sMaxAge: Option<nat>,
    maxAge: Option<nat>,
    staleWhileRevalidate: Option<nat>,
    staleWhileError: Option<nat>,
    demandsRevalidation: bool)

  function Parse(cc: string): Directives {
    Directives(
      ForbidsStoring(cc),
      Argument(cc, "s-maxage="),
      Argument(cc, "max-age="),
      Argument(cc, "stale-while-revalidate="),
      Argument(cc, "stale-while-error="),
      DemandsRevalidation(cc))
  }

  /** What each field of `Parse` means in terms of the header text: a word
    * field holds exactly when one of its words occurs between word
    * boundaries, and an argument field is present exactly when its name
    * followed by a digit occurs. */
  lemma ParseReadsHeader(cc: string)
    ensures Parse(cc).forbidsStoring <==>
      (exists i :: WordAt(cc, "private", i)) || (exists i :: WordAt(cc, "no-store", i))
    ensures Parse(cc).demandsRevalidation <==>
      || (exists i :: WordAt(cc, "must-revalidate", i))
      || (exists i :: WordAt(cc, "proxy-revalidate", i))
      || (exists i :: WordAt(cc, "no-cache", i))
    ensures Parse(cc).sMaxAge.Some? <==> exists i :: ArgumentAt(cc, "s-maxage=", i)
    ensures Parse(cc).maxAge.Some? <==> exists i :: ArgumentAt(cc, "max-age=", i)
    ensures Parse(cc).staleWhileRevalidate.Some? <==> exists i :: ArgumentAt(cc, "stale-while-revalidate=", i)
    ensures Parse(cc).staleWhileError.Some? <==> exists i :: ArgumentAt(cc, "stale-while-error=", i)
  {
    FindWordFinds(cc, "private", 0);
    FindWordFinds(cc, "no-store", 0);
    FindWordFinds(cc, "must-revalidate", 0);
    FindWordFinds(cc, "proxy-revalidate", 0);
    FindWordFinds(cc, "no-cache", 0);
    ArgumentFound(cc, "s-maxage=");
    ArgumentFound(cc, "max-age=");
    ArgumentFound(cc, "stale-while-revalidate=");
    ArgumentFound(cc, "stale-while-error=");
  }
}
