/**
 * The password strength meter of the login/register modal: a score that
 * counts how many of four criteria a password meets, and the width and
 * colour of the strength bar drawn for a score.
 */
module PasswordStrength {

  /** The four criteria, in the order the scorer tests them. */
  datatype Criterion = MinLength | Uppercase | Digit | Symbol

  const AllCriteria: set<Criterion> := {MinLength, Uppercase, Digit, Symbol}

  const MinPasswordLength := 6

  /** `/[A-Z]/` */
  predicate IsUpper(c: char) { 'A' <= c <= 'Z' }

  /** `/\d/` (without the `u` flag this is exactly 0-9) */
  predicate IsDigit(c: char) { '0' <= c <= '9' }

  /** `/[^A-Za-z0-9]/`: anything but an ASCII letter or digit. */
  predicate IsSymbol(c: char) { !(IsUpper(c) || 'a' <= c <= 'z' || IsDigit(c)) }

  predicate HasUpper(password: string) { exists i :: 0 <= i < |password| && IsUpper(password[i]) }

  predicate HasDigit(password: string) { exists i :: 0 <= i < |password| && IsDigit(password[i]) }

  predicate HasSymbol(password: string) { exists i :: 0 <= i < |password| && IsSymbol(password[i]) }

  /** Whether `password` meets criterion `c`. */
  predicate Meets(c: Criterion, password: string) {
    match c
    case MinLength => |password| >= MinPasswordLength
    case Uppercase => HasUpper(password)
    case Digit => HasDigit(password)
    case Symbol => HasSymbol(password)
  }

  /** The criteria `password` meets. */
  ghost function Satisfied(password: string): set<Criterion> {
    set c | c in AllCriteria && Meets(c, password)
  }

  /** A set of criteria never has more than four members. */
  lemma AtMostFourCriteria(s: set<Criterion>)
    ensures |s| <= 4
  {
    CountCriteria(s);
  }

  /** One point when `password` meets `c`. */
  function Point(c: Criterion, password: string): nat {
    if Meets(c, password) then 1 else 0
  }

  /** Taking one criterion out of a set lowers its size by one exactly when the criterion was in it. */
  lemma RemoveOne(s: set<Criterion>, c: Criterion)
    ensures |s| == |s - {c}| + (if c in s then 1 else 0)
  {
    if c in s { assert s == (s - {c}) + {c}; } else { assert s - {c} == s; }
  }

  /** The size of a set of criteria, counted member by member. */
  lemma CountCriteria(s: set<Criterion>)
    ensures |s| == (if MinLength in s then 1 else 0) + (if Uppercase in s then 1 else 0)
                 + (if Digit in s then 1 else 0) + (if Symbol in s then 1 else 0)
  {
    var t1 := s - {MinLength};
    var t2 := t1 - {Uppercase};
    var t3 := t2 - {Digit};
    var t4 := t3 - {Symbol};
    RemoveOne(s, MinLength);
    RemoveOne(t1, Uppercase);
    RemoveOne(t2, Digit);
    RemoveOne(t3, Symbol);
    assert t4 == {} by {
      forall c | c in t4 ensures false { match c case MinLength => case Uppercase => case Digit => case Symbol => }
    }
  }

  /** The number of criteria met is the sum of the four points. */
  lemma SatisfiedCount(password: string)
    ensures |Satisfied(password)| == Point(MinLength, password) + Point(Uppercase, password) + Point(Digit, password) + Point(Symbol, password)
  {
    CountCriteria(Satisfied(password));
  }

  /**
   * getPasswordScore: one point per criterion met, added up one test after
   * another as `getPasswordScore` does. The score is the number of criteria met, so
   * it lies in 0..4.
   */
  method GetPasswordScore(password: string) returns (score: nat)
    ensures score == |Satisfied(password)|
    ensures score <= 4
  {
    score := 0;
    if |password| >= MinPasswordLength { score := score + 1; }
    assert score == Point(MinLength, password);
    if HasUpper(password) { score := score + 1; }
    assert score == Point(MinLength, password) + Point(Uppercase, password);
    if HasDigit(password) { score := score + 1; }
    assert score == Point(MinLength, password) + Point(Uppercase, password) + Point(Digit, password);
    if HasSymbol(password) { score := score + 1; }
    SatisfiedCount(password);
    AtMostFourCriteria(Satisfied(password));
  }

  /** The empty password meets no criterion. */
  lemma EmptyPasswordScoresZero()
    ensures Satisfied("") == {}
  {
    forall c | c in Satisfied("") ensures false { match c case MinLength => case Uppercase => case Digit => case Symbol => }
  }

  /**
   * Appending characters never loses a criterion: a longer password keeps
   * its length, and a character found in the prefix is still there.
   */
  lemma ExtensionKeepsCriteria(password: string, suffix: string)
    ensures Satisfied(password) <= Satisfied(password + suffix)
  {
    var longer := password + suffix;
    forall c | c in Satisfied(password) ensures Meets(c, longer) {
      match c
      case MinLength =>
      case Uppercase =>
        var i :| 0 <= i < |password| && IsUpper(password[i]);
        assert longer[i] == password[i];
      case Digit =>
        var i :| 0 <= i < |password| && IsDigit(password[i]);
        assert longer[i] == password[i];
      case Symbol =>
        var i :| 0 <= i < |password| && IsSymbol(password[i]);
        assert longer[i] == password[i];
    }
  }

  /** So the score never drops as a password grows. */
  lemma ExtensionNeverLowersScore(password: string, suffix: string)
    ensures |Satisfied(password)| <= |Satisfied(password + suffix)|
  {
    ExtensionKeepsCriteria(password, suffix);
    var small, large := Satisfied(password), Satisfied(password + suffix);
    assert large == small + (large - small);
  }

  /** The bar colours of the strength meter. */
  datatype Colour = NoColour | Red | DarkYellow | Yellow | Green

  /** The bar: its width in quarters of the track, and its colour. */
  datatype Bar = Bar(quarters: nat, colour: Colour)

  /**
   * The strength bar for a score: 0 draws nothing (w-0), 1..3 fill that many
   * quarters, and every other score fills the whole track in green.
   */
  function StrengthBar(score: int): (bar: Bar)
    ensures bar.quarters <= 4
    ensures 0 <= score <= 4 ==> bar.quarters == score
    ensures bar.quarters == 0 <==> bar.colour == NoColour
    ensures !(0 <= score <= 3) ==> bar == Bar(4, Green)
  {
    if score == 0 then Bar(0, NoColour)
    else if score == 1 then Bar(1, Red)
    else if score == 2 then Bar(2, DarkYellow)
    else if score == 3 then Bar(3, Yellow)
    else Bar(4, Green)
  }

  /** The bar fills one quarter per criterion met, and a longer password never draws a shorter bar. */
  lemma BarTracksCriteria(password: string, suffix: string)
    ensures StrengthBar(|Satisfied(password)|).quarters == |Satisfied(password)|
    ensures StrengthBar(|Satisfied(password)|).quarters <= StrengthBar(|Satisfied(password + suffix)|).quarters
  {
    AtMostFourCriteria(Satisfied(password));
    AtMostFourCriteria(Satisfied(password + suffix));
    ExtensionNeverLowersScore(password, suffix);
  }
}
