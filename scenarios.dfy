/** Request sequences over the handlers, replayed against their contracts:
    what a client can conclude from the contracts alone. `TestSuiteAuthRun`
    follows the authentication part of the backend's own test run, with its
    data; the others are request sequences of the handlers' edge cases. */
module Scenarios {
  import opened Types
  import opened Validators
  import opened VerificationCodes
  import opened Directory
  import opened Server

  const AliceEmail: string := "alice.test.1@example.com"

  /** A fresh backend after Alice's signup, and the code she was sent. */
  method AliceSignedUp() returns (b: Backend, code: string)
    ensures fresh(b) && b.Valid()
    ensures IsVerificationCode(code)
    ensures b.order == ["alice"]
    ensures b.users == map["alice" := UserRecord("Alice Johnson", AliceEmail, "+1234567890", Some(code), false, 0, 0, None, [])]
  {
    EmailAcceptsExample();
    PhoneExamples();
    b := new Backend();
    var first := b.Signup("Alice Johnson", AliceEmail, "+1234567890", "alice", 0);
    code := first.value.1;
  }

  /** The test suite's authentication run, in its order: a valid signup, a
      signup with an invalid email, verification with the code sent, a second
      verification with "000000", and login by email. */
  method TestSuiteAuthRun() returns (invalid: Result<(UserId, string)>, verified: Result<Session>,
                                     wrongCode: Result<Session>, login: Result<Session>)
    ensures invalid == Failure(ValidationError)
    ensures verified.Success? && verified.value.token == Token("alice")
    ensures wrongCode == Failure(InvalidVerificationCode)
    ensures login.Success? && login.value.token == Token("alice")
  {
    var b, code := AliceSignedUp();
    EmailRejectsExample();
    PhoneExamples();
    invalid := b.Signup("Invalid User", "invalid-email", "+1234567890", "u1", 1);
    verified := b.VerifyCode(Some("alice"), Some(code));
    wrongCode := b.VerifyCode(Some("alice"), Some("000000"));
    assert HasEmail(b.users, "alice", AliceEmail);
    assert FindByEmail(b.order, b.users, AliceEmail) == Some("alice");
    login := b.Login(AliceEmail);
  }

  /** Sign up, sign up again with the same email, and log in before
      verifying. */
  method SignupTwice() returns (duplicate: Result<(UserId, string)>, early: Result<Session>)
    ensures duplicate == Failure(UserAlreadyExists)
    ensures early == Failure(UserNotVerified)
  {
    var b, code := AliceSignedUp();
    EmailAcceptsExample();
    PhoneExamples();
    assert HasEmail(b.users, "alice", AliceEmail);
    assert FindByEmail(b.order, b.users, AliceEmail) == Some("alice");
    duplicate := b.Signup("Alice Johnson", AliceEmail, "+1234567890", "alice2", 1);
    assert FindByEmail(b.order, b.users, AliceEmail) == Some("alice");
    early := b.Login(AliceEmail);
  }

  /** After signup: a wrong code fails, the right one verifies once, and
      then fails. */
  method VerifyOnce() returns (wrong: Result<Session>, right: Result<Session>, reused: Result<Session>)
    ensures wrong == Failure(InvalidVerificationCode)
    ensures right.Success? && right.value.token == Token("alice")
    ensures reused == Failure(InvalidVerificationCode)
  {
    var b, code := AliceSignedUp();
    assert "000000" != code;
    wrong := b.VerifyCode(Some("alice"), Some("000000"));
    right := b.VerifyCode(Some("alice"), Some(code));
    reused := b.VerifyCode(Some("alice"), Some(code));
  }

  /** After verification, a request without a code verifies again, and login
      succeeds. */
  method VerifiedWithoutCode() returns (withoutCode: Result<Session>, login: Result<Session>)
    ensures withoutCode.Success? && withoutCode.value.token == Token("alice")
    ensures login.Success? && login.value.token == Token("alice")
  {
    var b, code := AliceSignedUp();
    var right := b.VerifyCode(Some("alice"), Some(code));
    withoutCode := b.VerifyCode(Some("alice"), None);
    assert HasEmail(b.users, "alice", AliceEmail);
    assert FindByEmail(b.order, b.users, AliceEmail) == Some("alice");
    login := b.Login(AliceEmail);
  }

  /** A signup with an invalid email or an eight-character phone is refused
      with 422. */
  method InvalidSignups() returns (badEmail: Result<(UserId, string)>, shortPhone: Result<(UserId, string)>)
    ensures badEmail == Failure(ValidationError)
    ensures shortPhone == Failure(ValidationError)
  {
    EmailRejectsExample();
    PhoneExamples();
    var b := new Backend();
    badEmail := b.Signup("Invalid User", "invalid-email", "+1234567890", "u1", 0);
    shortPhone := b.Signup("Alice Johnson", AliceEmail, "555-0100", "u2", 0);
    assert b.users == map[];
  }
}
