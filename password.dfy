/** passwordval.js: `validatePassword` tests the password against the anchored
    pattern  ^(?=.*[A-Z])(?=.*\d)(?=.*[\W_]).{9,}$  (no flags).

    Without the `u` flag an ECMAScript pattern works on UTF-16 code units, so a
    password is a sequence of code units here.  `.` matches every unit except a
    line terminator (U+000A, U+000D, U+2028, U+2029), `\d` is ASCII 0-9, and
    `[\W_]` is every unit that is not an ASCII letter or digit. */
module PasswordValidation {

  newtype CodeUnit = x: int | 0 <= x < 0x1_0000

  /** The character classes the pattern uses. */
  datatype CharClass = Upper | Digit | Special | LineTerminator

  predicate InClass(c: CodeUnit, k: CharClass)
  {
    match k
    case Upper => 0x41 <= c <= 0x5A                            // [A-Z]
    case Digit => 0x30 <= c <= 0x39                            // \d
    case Special => !(0x30 <= c <= 0x39 || 0x41 <= c <= 0x5A || 0x61 <= c <= 0x7A)  // [\W_]
    case LineTerminator => c == 0x0A || c == 0x0D || c == 0x2028 || c == 0x2029
  }

  /** `.`: any code unit but a line terminator. */
  predicate Dot(c: CodeUnit)
  {
    !InClass(c, LineTerminator)
  }

  // ---------------------------------------------------------------------------
  // The pattern, read literally as the regular-expression engine runs it.
  // ---------------------------------------------------------------------------

  /** `(?=.*C)` at position i: some j >= i holds a unit of class C and every unit
      from i up to j is matched by `.`. */
  ghost predicate LookaheadAt(s: seq<CodeUnit>, i: nat, k: CharClass)
  {
    exists j :: i <= j < |s| && InClass(s[j], k) && forall m :: i <= m < j ==> Dot(s[m])
  }

  /** `.{9,}$` at position i: at least nine units remain and `.` matches each of them
      up to the end of the input (`$` without the `m` flag). */
  ghost predicate TailAt(s: seq<CodeUnit>, i: nat)
  {
    i <= |s| && |s| - i >= 9 && forall m :: i <= m < |s| ==> Dot(s[m])
  }

  /** The whole pattern at start position i; `^` without the `m` flag only matches at 0. */
  ghost predicate MatchAt(s: seq<CodeUnit>, i: nat)
  {
    i == 0 && LookaheadAt(s, i, Upper) && LookaheadAt(s, i, Digit)
    && LookaheadAt(s, i, Special) && TailAt(s, i)
  }

  /** `re.test(s)`: the engine tries every start position. */
  ghost predicate RegexTest(s: seq<CodeUnit>)
  {
    exists i: nat :: i <= |s| && MatchAt(s, i)
  }

  // ---------------------------------------------------------------------------
  // The same test stated as plain conditions on the password.
  // ---------------------------------------------------------------------------

  predicate Contains(s: seq<CodeUnit>, k: CharClass)
  {
    exists i :: 0 <= i < |s| && InClass(s[i], k)
  }

  /** A lookahead from position 0 in a terminator-free input is a plain search. */
  lemma LookaheadFromStart(s: seq<CodeUnit>, k: CharClass)
    requires !Contains(s, LineTerminator)
    ensures LookaheadAt(s, 0, k) <==> Contains(s, k)
  {}

  /** validatePassword (passwordval.js:2-5): nine or more units, no line terminator, and
      at least one uppercase letter, one digit and one special unit. */
  predicate ValidatePassword(s: seq<CodeUnit>)
  {
    |s| >= 9 && !Contains(s, LineTerminator)
    && Contains(s, Upper) && Contains(s, Digit) && Contains(s, Special)
  }

  /** The plain conditions give the same verdict as `re.test` of the pattern as the
      engine runs it. */
  lemma RegexAgreement(s: seq<CodeUnit>)
    ensures RegexTest(s) <==> ValidatePassword(s)
  {
    if RegexTest(s) {
      var i: nat :| i <= |s| && MatchAt(s, i);
      assert i == 0;
      assert !Contains(s, LineTerminator) by {
        forall m | 0 <= m < |s| ensures !InClass(s[m], LineTerminator) {
          assert Dot(s[m]);
        }
      }
      LookaheadFromStart(s, Upper);
      LookaheadFromStart(s, Digit);
      LookaheadFromStart(s, Special);
    }
    if ValidatePassword(s) {
      LookaheadFromStart(s, Upper);
      LookaheadFromStart(s, Digit);
      LookaheadFromStart(s, Special);
      assert MatchAt(s, 0);
    }
  }

  // ---------------------------------------------------------------------------
  // What the rule rejects and what keeps a password accepted.
  // ---------------------------------------------------------------------------

  lemma ShortRejected(s: seq<CodeUnit>)
    requires |s| < 9
    ensures !ValidatePassword(s)
  {}

  /** Each missing class rejects the password, whatever else it holds. */
  lemma MissingClassRejected(s: seq<CodeUnit>, k: CharClass)
    requires k != LineTerminator && !Contains(s, k)
    ensures !ValidatePassword(s)
  {}

  /** A password made of ASCII letters and digits only has no special unit. */
  lemma AlphanumericRejected(s: seq<CodeUnit>)
    requires forall i :: 0 <= i < |s| ==> 0x30 <= s[i] <= 0x39 || 0x41 <= s[i] <= 0x5A || 0x61 <= s[i] <= 0x7A
    ensures !ValidatePassword(s)
  {
    assert !Contains(s, Special);
  }

  /** Underscore and space count as the special unit (`[\W_]`). */
  lemma UnderscoreOrSpaceIsSpecial(s: seq<CodeUnit>, i: nat)
    requires i < |s| && (s[i] == 0x5F || s[i] == 0x20)
    ensures Contains(s, Special)
  {
    assert InClass(s[i], Special);
  }

  /** `^` and `.{9,}$` must cover the whole input, so a line terminator anywhere rejects. */
  lemma TerminatorRejected(s: seq<CodeUnit>, i: nat)
    requires i < |s| && (s[i] == 0x0A || s[i] == 0x0D || s[i] == 0x2028 || s[i] == 0x2029)
    ensures !ValidatePassword(s)
  {
    assert InClass(s[i], LineTerminator);
  }

  lemma ContainsAppend(s: seq<CodeUnit>, t: seq<CodeUnit>, k: CharClass)
    ensures Contains(s + t, k) <==> Contains(s, k) || Contains(t, k)
  {
    if Contains(s + t, k) {
      var i :| 0 <= i < |s + t| && InClass((s + t)[i], k);
      if i >= |s| {
        assert t[i - |s|] == (s + t)[i];
      }
    }
    if Contains(s, k) {
      var i :| 0 <= i < |s| && InClass(s[i], k);
      assert (s + t)[i] == s[i];
    }
    if Contains(t, k) {
      var i :| 0 <= i < |t| && InClass(t[i], k);
      assert (s + t)[|s| + i] == t[i];
    }
  }

  /** Appending units that are not line terminators keeps an accepted password accepted. */
  lemma AppendPreservesAcceptance(s: seq<CodeUnit>, t: seq<CodeUnit>)
    requires ValidatePassword(s) && !Contains(t, LineTerminator)
    ensures ValidatePassword(s + t)
  {
    ContainsAppend(s, t, LineTerminator);
    ContainsAppend(s, t, Upper);
    ContainsAppend(s, t, Digit);
    ContainsAppend(s, t, Special);
  }

  lemma ContainsPermutation(s: seq<CodeUnit>, t: seq<CodeUnit>, k: CharClass)
    requires multiset(s) == multiset(t)
    ensures Contains(s, k) ==> Contains(t, k)
  {
    if Contains(s, k) {
      var i :| 0 <= i < |s| && InClass(s[i], k);
      assert s[i] in multiset(t);
      var j :| 0 <= j < |t| && t[j] == s[i];
    }
  }

  /** Acceptance depends only on which units occur and how often, not on their order. */
  lemma PermutationPreservesAcceptance(s: seq<CodeUnit>, t: seq<CodeUnit>)
    requires multiset(s) == multiset(t)
    ensures ValidatePassword(s) <==> ValidatePassword(t)
  {
    assert |s| == |multiset(s)| == |multiset(t)| == |t|;
    forall k: CharClass ensures Contains(s, k) <==> Contains(t, k) {
      ContainsPermutation(s, t, k);
      ContainsPermutation(t, s, k);
    }
  }

  // ---------------------------------------------------------------------------
  // Two passwords written as ASCII text.
  // ---------------------------------------------------------------------------

  /** The code units of an ASCII string. */
  function Ascii(s: string): (u: seq<CodeUnit>)
    requires forall i :: 0 <= i < |s| ==> s[i] as int < 0x80
    ensures |u| == |s| && forall i :: 0 <= i < |s| ==> u[i] as int == s[i] as int
  {
    if s == [] then [] else [s[0] as int as CodeUnit] + Ascii(s[1..])
  }

  /** Eight units are one too few, even with every class present. */
  lemma EightUnitsRejected()
    ensures !ValidatePassword(Ascii("Abcdefg1"))
  {}

  /** "Abcdefgh1!" has ten units, an uppercase A, the digit 1 and the special '!'. */
  lemma ExampleAccepted()
    ensures ValidatePassword(Ascii("Abcdefgh1!"))
  {
    var u := Ascii("Abcdefgh1!");
    assert u == [0x41, 0x62, 0x63, 0x64, 0x65, 0x66, 0x67, 0x68, 0x31, 0x21];
    assert InClass(u[0], Upper);
    assert InClass(u[8], Digit);
    assert InClass(u[9], Special);
  }
}
