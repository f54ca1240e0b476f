/** The field validators of the request bodies: `UserCreate.email`,
    `UserCreate.phone`, `LocationUpdate.latitude`/`longitude` and
    `NearbyUsersRequest.radius_miles`. The two regular expressions are read with
    Python's `re.match` semantics, where a trailing `$` matches at the end of the
    string and also just before a final newline. */
module Validators {
  import opened Types

  /** No character of s is '@': every character is in the class `[^@]`. */
  predicate AtFree(s: string)
  {
    forall k | 0 <= k < |s| :: s[k] != '@'
  }

  /** An '@' at position `at` and a '.' at position `dot` split s into three
      non-empty '@'-free runs, as `[^@]+@[^@]+\.[^@]+` requires. */
  predicate EmailSplit(s: string, at: int, dot: int)
  {
    && 0 < at < |s| && at + 1 < dot < |s| - 1
    && s[at] == '@' && s[dot] == '.'
    && AtFree(s[..at]) && AtFree(s[at + 1..dot]) && AtFree(s[dot + 1..])
  }

  /** `[^@]+@[^@]+\.[^@]+` matches all of s. */
  predicate EmailBody(s: string)
  {
    exists at, dot | 0 < at < |s| && at + 1 < dot < |s| - 1 :: EmailSplit(s, at, dot)
  }

  /** `re.match(r'^[^@]+@[^@]+\.[^@]+$', s)` succeeds. */
  predicate EmailValid(s: string)
    ensures EmailValid(s) ==> '@' in s && |s| >= 5
  {
    EmailBody(s) || (|s| > 0 && s[|s| - 1] == '\n' && EmailBody(s[..|s| - 1]))
  }

  /** The class `[\d\s\-\(\)]`, with `\d` and `\s` read as their ASCII classes
      (digits; space, tab, newline, vertical tab, form feed, carriage return). */
  predicate PhoneChar(c: char)
  {
    ('0' <= c <= '9') || c == ' ' || ('\t' <= c <= '\r') || c == '-' || c == '(' || c == ')'
  }

  /** What is left of s once the optional leading '+' (`\+?`) is taken off.
      A '+' is not in the class, so it can only be matched by `\+?`. */
  function PhoneDigits(s: string): string
  {
    if |s| > 0 && s[0] == '+' then s[1..] else s
  }

  /** `\+?[\d\s\-\(\)]{10,15}` matches all of s. */
  predicate PhoneBody(s: string)
  {
    var t := PhoneDigits(s);
    10 <= |t| <= 15 && forall k | 0 <= k < |t| :: PhoneChar(t[k])
  }

  /** `re.match(r'^\+?[\d\s\-\(\)]{10,15}$', s)` succeeds. */
  predicate PhoneValid(s: string)
    ensures PhoneValid(s) ==> 10 <= |s| <= 17
  {
    PhoneBody(s) || (|s| > 0 && s[|s| - 1] == '\n' && PhoneBody(s[..|s| - 1]))
  }

  predicate LatitudeValid(v: real)
  {
    -90.0 <= v <= 90.0
  }

  predicate LongitudeValid(v: real)
  {
    -180.0 <= v <= 180.0
  }

  const MinRadiusMiles: real := 0.5
  const MaxRadiusMiles: real := 5.0
  const DefaultRadiusMiles: real := 1.0

  /** The `radius_miles` field of a nearby-users request: absent means the
      default, present must lie within the bounds. */
  function RadiusMiles(given: Option<real>): (r: Result<real>)
    ensures r.Success? ==> MinRadiusMiles <= r.value <= MaxRadiusMiles
    ensures r.Failure? ==> r.error == ValidationError
    ensures given.None? ==> r == Success(DefaultRadiusMiles)
    ensures given.Some? ==> (r.Success? <==> MinRadiusMiles <= given.value <= MaxRadiusMiles)
    ensures given.Some? && r.Success? ==> r.value == given.value
  {
    match given
    case None => Success(DefaultRadiusMiles)
    case Some(v) => if MinRadiusMiles <= v <= MaxRadiusMiles then Success(v) else Failure(ValidationError)
  }

  /** The `$` that may match before a final newline admits nothing new for
      email addresses: the last run `[^@]+` can take the newline itself. */
  lemma EmailValidIsBody(s: string)
    ensures EmailValid(s) <==> EmailBody(s)
  {
    if |s| > 0 && s[|s| - 1] == '\n' && EmailBody(s[..|s| - 1]) {
      var p := s[..|s| - 1];
      var at, dot :| 0 < at < |p| && at + 1 < dot < |p| - 1 && EmailSplit(p, at, dot);
      SplitTakesNewline(p, at, dot);
      assert p + ['\n'] == s;
    }
  }

  /** A split of p is a split of p + "\n": the last run takes the newline. */
  lemma SplitTakesNewline(p: string, at: int, dot: int)
    requires EmailSplit(p, at, dot)
    ensures EmailSplit(p + ['\n'], at, dot)
  {
    var s := p + ['\n'];
    assert s[..at] == p[..at];
    assert s[at + 1..dot] == p[at + 1..dot];
    assert s[dot + 1..] == p[dot + 1..] + ['\n'];
  }

  lemma AtFreeJoin(a: string, c: char, b: string)
    requires AtFree(a) && c != '@' && AtFree(b)
    ensures AtFree(a + [c] + b)
  {
  }

  /** An accepted address holds exactly one '@', neither first nor last. */
  lemma EmailSingleAt(s: string)
    requires EmailValid(s)
    ensures exists at | 0 < at < |s| - 1 :: s[at] == '@' && AtFree(s[..at]) && AtFree(s[at + 1..])
  {
    EmailValidIsBody(s);
    var at, dot :| 0 < at < |s| && at + 1 < dot < |s| - 1 && EmailSplit(s, at, dot);
    assert s[at + 1..] == s[at + 1..dot] + [s[dot]] + s[dot + 1..];
    AtFreeJoin(s[at + 1..dot], s[dot], s[dot + 1..]);
    assert s[at] == '@' && AtFree(s[..at]);
  }

  /** Any '@'-free local part, '@', and '@'-free domain with a '.' that is
      neither its first nor its last character make an accepted address. */
  lemma EmailFromParts(local: string, domain: string, dot: nat)
    requires |local| > 0 && AtFree(local) && AtFree(domain)
    requires 0 < dot < |domain| - 1 && domain[dot] == '.'
    ensures EmailValid(local + "@" + domain)
  {
    var s := local + "@" + domain;
    var at := |local|;
    assert s[..at] == local;
    assert s[at + 1..at + 1 + dot] == domain[..dot];
    assert s[at + 1 + dot + 1..] == domain[dot + 1..];
    assert EmailSplit(s, at, at + 1 + dot);
  }

  /** The address the backend's signup test sends, with its clock reading
      taken to be 1, is accepted. */
  lemma EmailAcceptsExample()
    ensures EmailValid("alice.test.1@example.com")
  {
    EmailFromParts("alice.test.1", "example.com", 7);
    assert "alice.test.1" + "@" + "example.com" == "alice.test.1@example.com";
  }

  /** A string without '@', such as the backend's test value "invalid-email",
      is rejected. */
  lemma EmailRejectsWithoutAt(s: string)
    requires AtFree(s)
    ensures !EmailValid(s)
  {
    if EmailValid(s) {
      EmailSingleAt(s);
      assert false;
    }
  }

  lemma EmailRejectsExample()
    ensures !EmailValid("invalid-email")
  {
    var s := "invalid-email";
    assert forall k | 0 <= k < |s| :: s[k] != '@';
    EmailRejectsWithoutAt(s);
  }

  /** The phone validator accepts exactly: an optional '+', then 10 to 15
      characters of the class, or 16 when the sixteenth is the final newline
      that `$` may stand before. */
  lemma PhoneValidIff(s: string)
    ensures PhoneValid(s) <==>
      var t := PhoneDigits(s);
      (forall k | 0 <= k < |t| :: PhoneChar(t[k])) &&
      (10 <= |t| <= 15 || (|t| == 16 && t[15] == '\n'))
  {
    var t := PhoneDigits(s);
    if |s| > 0 && s[|s| - 1] == '\n' {
      var p := s[..|s| - 1];
      if |s| > 1 {
        assert PhoneDigits(p) == t[..|t| - 1];
        assert t == t[..|t| - 1] + ['\n'];
      } else {
        assert PhoneDigits(p) == [];
      }
    }
  }

  /** The backend's test phone is accepted; the eight-character "555-0100" is
      too short; a fifteen-character body with a final newline is accepted
      although sixteen characters of the class are rejected. */
  lemma PhoneExamples()
    ensures PhoneValid("+1234567890")
    ensures !PhoneValid("555-0100")
    ensures PhoneValid("123456789012345\n")
    ensures !PhoneValid("1234567890123456")
  {
    PhoneValidIff("555-0100");
    var withNewline := "123456789012345\n";
    assert withNewline[..|withNewline| - 1] == "123456789012345";
    assert PhoneBody("123456789012345");
    PhoneValidIff("1234567890123456");
  }

  /** The coordinate validators accept exactly the closed ranges; the
      backend's test latitude of 200 is rejected. */
  lemma CoordinateExamples()
    ensures !LatitudeValid(200.0) && LatitudeValid(37.7749) && LongitudeValid(-122.4194)
    ensures LatitudeValid(-90.0) && LatitudeValid(90.0) && !LatitudeValid(90.5)
    ensures LongitudeValid(-180.0) && LongitudeValid(180.0) && !LongitudeValid(-180.5)
  {
  }
}
