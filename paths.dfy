/** File and path name rules: `sanitize_file_name` and the two-argument form of `os.path.join`. */
module Paths {

  /** The characters `sanitize_file_name` keeps: ASCII letters, digits and ' - _ . ( ) @ */
  predicate AllowedInFileName(c: char) {
    ('a' <= c <= 'z') || ('A' <= c <= 'Z') || ('0' <= c <= '9') ||
    c == '\'' || c == '-' || c == '_' || c == '.' || c == '(' || c == ')' || c == '@'
  }

  /** Every character outside the allowed set is replaced by '-', one for one. */
  function SanitizeFileName(s: string): (r: string)
    ensures |r| == |s|
    ensures forall i :: 0 <= i < |r| ==> AllowedInFileName(r[i])
    ensures forall i :: 0 <= i < |s| && AllowedInFileName(s[i]) ==> r[i] == s[i]
    ensures forall i :: 0 <= i < |s| && !AllowedInFileName(s[i]) ==> r[i] == '-'
  {
    if s == [] then []
    else [if AllowedInFileName(s[0]) then s[0] else '-'] + SanitizeFileName(s[1..])
  }

  /** A name made only of allowed characters is left as it is. */
  lemma {:induction false} SanitizeKeepsAllowed(s: string)
    requires forall i :: 0 <= i < |s| ==> AllowedInFileName(s[i])
    ensures SanitizeFileName(s) == s
  {
    if s != [] {
      SanitizeKeepsAllowed(s[1..]);
    }
  }

  /** Sanitising twice gives the same name as sanitising once. */
  lemma SanitizeIdempotent(s: string)
    ensures SanitizeFileName(SanitizeFileName(s)) == SanitizeFileName(s)
  {
    SanitizeKeepsAllowed(SanitizeFileName(s));
  }

  /** `os.path.join(a, b)` on POSIX: an absolute `b` replaces `a`; otherwise one '/' separates them. */
  function Join(a: string, b: string): string {
    if |b| > 0 && b[0] == '/' then b
    else if |a| == 0 || a[|a| - 1] == '/' then a + b
    else a + "/" + b
  }

  /** ASCII lower-casing as `str.lower()` does for the ASCII names `secure_filename` produces. */
  function LowerChar(c: char): char {
    if 'A' <= c <= 'Z' then (c as int - 'A' as int + 'a' as int) as char else c
  }

  function Lower(s: string): (r: string)
    ensures |r| == |s|
    ensures forall i :: 0 <= i < |s| ==> r[i] == LowerChar(s[i])
  {
    if s == [] then [] else [LowerChar(s[0])] + Lower(s[1..])
  }

  predicate EndsWith(s: string, suffix: string) {
    |suffix| <= |s| && s[|s| - |suffix|..] == suffix
  }
}
