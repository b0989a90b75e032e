/** `sanitizeEmail` (server.js:42-44, and the identical copy at sevrerwerror.js:43-45)
    and the database path built from it.  `email.replace(/[.#$[\]]/g, '_')`
    replaces every `.`, `#`, `$`, `[` and `]` by `_` and leaves every other
    character where it is.  The replaced characters are ASCII, so working on
    characters instead of UTF-16 code units changes nothing. */
module EmailKey {

  /** The characters the pattern `[.#$[\]]` matches. */
  predicate Reserved(c: char)
  {
    c == '.' || c == '#' || c == '$' || c == '[' || c == ']'
  }

  const Placeholder := '_'

  /** The replacement applied to one character. */
  function Replace(c: char): char
  {
    if Reserved(c) then Placeholder else c
  }

  /** sanitizeEmail: a global replace, scanning the string from the left. */
  function Sanitize(email: string): (r: string)
    ensures |r| == |email|
    ensures forall i :: 0 <= i < |email| ==> r[i] == Replace(email[i])
  {
    if email == [] then [] else [Replace(email[0])] + Sanitize(email[1..])
  }

  /** Every character outside the reserved set stays at its position. */
  lemma SanitizeKeepsOthers(email: string, i: nat)
    requires i < |email| && !Reserved(email[i])
    ensures Sanitize(email)[i] == email[i]
  {}

  /** The result holds none of `. # $ [ ]`. */
  lemma SanitizeClean(email: string)
    ensures forall i :: 0 <= i < |Sanitize(email)| ==> !Reserved(Sanitize(email)[i])
  {}

  lemma SanitizeIdempotent(email: string)
    ensures Sanitize(Sanitize(email)) == Sanitize(email)
  {}

  /** Two emails share a sanitised form exactly when they have the same length and, at each
      position, both hold one of `. # $ [ ] _` or both hold the same other character. */
  lemma SanitizeCollision(a: string, b: string)
    ensures Sanitize(a) == Sanitize(b) <==> |a| == |b| && forall i :: 0 <= i < |a| ==> Replace(a[i]) == Replace(b[i])
  {}

  /** sanitizeEmail is not injective: "a.b", "a#b" and "a_b" give the same key part. */
  lemma SanitizeNotInjective()
    ensures "a.b" != "a#b" && "a.b" != "a_b" && "a#b" != "a_b"
    ensures Sanitize("a.b") == Sanitize("a#b") == Sanitize("a_b") == "a_b"
  {
    SanitizeCollision("a.b", "a_b");
    SanitizeCollision("a#b", "a_b");
  }

  /** The database path of a user record: `'users/' + sanitizeEmail(email)`. */
  function Key(email: string): (k: string)
    ensures |k| == 6 + |email| && k[..6] == "users/" && k[6..] == Sanitize(email)
  {
    "users/" + Sanitize(email)
  }

  /** Two emails share a path exactly when they share a sanitised form. */
  lemma KeyCollision(a: string, b: string)
    ensures Key(a) == Key(b) <==> Sanitize(a) == Sanitize(b)
  {}
}
