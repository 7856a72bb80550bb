/** The password rule that all three request bodies carry: `@IsString`,
    `@MinLength(8)`, `@MaxLength(30)` and
    `@Matches(/^(?=.*?[A-Z])(?=.*?[a-z])(?=.*?[0-9])(?=.*?[#?!@$%^&*-]).{8,}$/)`. */
module PasswordRule {
  import opened Common
  import opened UserEntity

  /** The four character classes the pattern's look-aheads demand. */
  datatype CharClass = Upper | Lower | Digit | Special

  const ALL_CLASSES: set<CharClass> := {Upper, Lower, Digit, Special}

  /** The characters of `[#?!@$%^&*-]`; the final `-` is a literal. */
  const SPECIALS: string := "#?!@$%^&*-"

  predicate InClass(c: char, k: CharClass) {
    match k
    case Upper => IsAsciiUpper(c)
    case Lower => 'a' <= c <= 'z'
    case Digit => '0' <= c <= '9'
    case Special => c in SPECIALS
  }

  /** The characters `.` does not match in a pattern without flags. */
  predicate IsLineTerminator(c: char) {
    c == '\n' || c == '\r' || c == '\U{2028}' || c == '\U{2029}'
  }

  /** `(?=.*?X)` at the start of the input: some character of class X is
      reached over characters that `.` matches. */
  ghost predicate LookaheadFinds(p: string, k: CharClass) {
    exists i :: 0 <= i < |p| && InClass(p[i], k) && forall j :: 0 <= j < i ==> !IsLineTerminator(p[j])
  }

  /** The regular expression as anchored matching defines it: all four
      look-aheads succeed at position 0 and `.{8,}$` consumes the whole input. */
  ghost predicate MatchesPattern(p: string) {
    && (forall k: CharClass :: LookaheadFinds(p, k))
    && |p| >= 8
    && NoLineTerminator(p)
  }

  /** The classes some character of `p` belongs to. */
  function ClassesIn(p: string): (r: set<CharClass>)
    ensures forall k :: k in r <==> exists i :: 0 <= i < |p| && InClass(p[i], k)
  {
    if p == [] then {}
    else
      var rest := ClassesIn(p[1..]);
      assert forall k, i :: 0 <= i < |p[1..]| && InClass(p[1..][i], k) ==> InClass(p[i + 1], k);
      assert forall k, i :: 1 <= i < |p| && InClass(p[i], k) ==> InClass(p[1..][i - 1], k);
      rest + set k | k in ALL_CLASSES && InClass(p[0], k)
  }

  predicate NoLineTerminator(p: string) {
    forall i :: 0 <= i < |p| ==> !IsLineTerminator(p[i])
  }

  /** The executable form of the pattern test. */
  function CheckPattern(p: string): (ok: bool)
    ensures ok <==> MatchesPattern(p)
  {
    PatternByClasses(p);
    |p| >= 8 && NoLineTerminator(p) && ClassesIn(p) == ALL_CLASSES
  }

  lemma PatternByClasses(p: string)
    ensures MatchesPattern(p) <==> |p| >= 8 && NoLineTerminator(p) && ClassesIn(p) == ALL_CLASSES
  {
    if |p| >= 8 && NoLineTerminator(p) && ClassesIn(p) == ALL_CLASSES {
      forall k: CharClass ensures LookaheadFinds(p, k) {
        EveryClassListed(k);
        var i :| 0 <= i < |p| && InClass(p[i], k);
      }
    }
    if MatchesPattern(p) {
      ClassesWhenMatching(p);
    }
  }

  lemma ClassesWhenMatching(p: string)
    requires MatchesPattern(p)
    ensures ClassesIn(p) == ALL_CLASSES
  {
    ClassFound(p, Upper);
    ClassFound(p, Lower);
    ClassFound(p, Digit);
    ClassFound(p, Special);
    forall k | k in ClassesIn(p) ensures k in ALL_CLASSES {
      EveryClassListed(k);
    }
  }

  lemma EveryClassListed(k: CharClass)
    ensures k in ALL_CLASSES
  {
    match k {
      case Upper =>
      case Lower =>
      case Digit =>
      case Special =>
    }
  }

  lemma ClassFound(p: string, k: CharClass)
    requires LookaheadFinds(p, k)
    ensures k in ClassesIn(p)
  {
    var i :| 0 <= i < |p| && InClass(p[i], k) && forall j :: 0 <= j < i ==> !IsLineTerminator(p[j]);
  }

  /** The whole rule on a property that may be absent (`undefined` fails `@IsString`). */
  function PasswordValid(password: Option<string>): (ok: bool)
    ensures ok <==> password.Some? && 8 <= |password.value| <= 30 && MatchesPattern(password.value)
  {
    && password.Some?
    && 8 <= |password.value| <= 30
    && CheckPattern(password.value)
  }

  /** What the rule amounts to: 8 to 30 characters, no line terminator, and
      at least one upper-case letter, lower-case letter, digit and special
      character. The pattern's own `{8,}` adds nothing to `@MinLength(8)`. */
  lemma PasswordValidMeans(password: Option<string>)
    ensures PasswordValid(password) <==>
      && password.Some?
      && 8 <= |password.value| <= 30
      && NoLineTerminator(password.value)
      && (exists i :: 0 <= i < |password.value| && 'A' <= password.value[i] <= 'Z')
      && (exists i :: 0 <= i < |password.value| && 'a' <= password.value[i] <= 'z')
      && (exists i :: 0 <= i < |password.value| && '0' <= password.value[i] <= '9')
      && (exists i :: 0 <= i < |password.value| && password.value[i] in SPECIALS)
  {
    if password.Some? {
      var p := password.value;
      if NoLineTerminator(p) {
        forall k: CharClass
          ensures LookaheadFinds(p, k) <==> exists i :: 0 <= i < |p| && InClass(p[i], k)
        {
        }
      }
    }
  }

  /** The documented example 'StrongP@ss123' satisfies the rule. */
  lemma ExampleAccepted()
    ensures PasswordValid(Some("StrongP@ss123"))
  {
    var p := "StrongP@ss123";
    assert InClass(p[0], Upper) && InClass(p[1], Lower) && InClass(p[10], Digit) && InClass(p[7], Special);
    assert NoLineTerminator(p);
    PasswordValidMeans(Some(p));
  }
}
