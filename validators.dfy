/** The express-validator rules the route files attach to their endpoints.
    A chain runs every check on its field and reports one failure per check
    that fails, in the order the checks are listed; an endpoint's failures
    are those of its chains, in order. `isEmail` and `isUUID` are library
    checks whose outcome is taken as given. */
module RouteValidators {
  import opened Wrappers
  import Text

  /** One entry of `validationResult(req).array()`: the value submitted,
      the message, the field's name and where the field was read ("body"
      for `checkBody`, "params" for `checkParam`). */
  datatype Failure = Failure(value: string, msg: string, param: string, location: string)

  /** The message express-validator reports for a check without `withMessage`. */
  const InvalidValue := "Invalid value"

  function Check(ok: bool, location: string, param: string, value: string, msg: string): (r: seq<Failure>)
    ensures r == [] <==> ok
    ensures !ok ==> r == [Failure(value, msg, param, location)]
  {
    if ok then [] else [Failure(value, msg, param, location)]
  }

  /** A check in a `checkBody(param)` chain. */
  function BodyCheck(ok: bool, param: string, value: string, msg: string): seq<Failure> {
    Check(ok, "body", param, value, msg)
  }

  // ---- checkValidPasswordInBody ----------------------------------------------------

  const LengthMessage := "must be between 8 and 48 characters"
  const DigitMessage := "must include at least 1 digit"
  const UpperMessage := "must include at least 1 upper-case character"
  const LowerMessage := "must include at least 1 lower-case character"
  const SpecialMessage := "must include at least 1 special character: .,'!&[]+$-#*\\%@~`=/^:()"

  /** The characters of the class `[.,'!&\[\]+$\-#*\\%@~`=\/^:()]`. */
  const SpecialCharacters := ".,'!&[]+$-#*\\%@~`=/^:()"

  predicate HasDigit(p: string) { exists i | 0 <= i < |p| :: '0' <= p[i] <= '9' }
  predicate HasUpper(p: string) { exists i | 0 <= i < |p| :: 'A' <= p[i] <= 'Z' }
  predicate HasLower(p: string) { exists i | 0 <= i < |p| :: 'a' <= p[i] <= 'z' }
  predicate HasSpecial(p: string) { exists i | 0 <= i < |p| :: p[i] in SpecialCharacters }

  /** The password policy: 8 to 48 characters, with a digit, an upper-case
      and a lower-case ASCII letter, and one of the special characters. */
  predicate StrongPassword(p: string) {
    8 <= |p| <= 48 && HasDigit(p) && HasUpper(p) && HasLower(p) && HasSpecial(p)
  }

  /** `checkValidPasswordInBody(key)`: the five checks in order, each
      reporting its own message against `key`. */
  function PasswordFailures(key: string, p: string): (r: seq<Failure>)
    ensures r == [] <==> StrongPassword(p)
    ensures forall k | 0 <= k < |r| :: r[k].param == key && r[k].value == p && r[k].location == "body"
    ensures !(8 <= |p| <= 48) ==> r[0] == Failure(p, LengthMessage, key, "body")
    ensures 8 <= |p| <= 48 && !HasDigit(p) ==> r[0] == Failure(p, DigitMessage, key, "body")
    ensures |r| == (if 8 <= |p| <= 48 then 0 else 1) + (if HasDigit(p) then 0 else 1) + (if HasUpper(p) then 0 else 1)
                   + (if HasLower(p) then 0 else 1) + (if HasSpecial(p) then 0 else 1)
  {
    BodyCheck(8 <= |p| <= 48, key, p, LengthMessage)
    + BodyCheck(HasDigit(p), key, p, DigitMessage)
    + BodyCheck(HasUpper(p), key, p, UpperMessage)
    + BodyCheck(HasLower(p), key, p, LowerMessage)
    + BodyCheck(HasSpecial(p), key, p, SpecialMessage)
  }

  /** One failure when a check fails, none when it passes. */
  function Lacks(ok: bool): nat { if ok then 0 else 1 }

  /** Each property the password lacks is reported with its own message at
      the position its check holds in the chain (length, digit, upper-case,
      lower-case, special), after the failures of the checks before it; with
      the count this fixes every entry of the list. */
  lemma PasswordFailuresInOrder(key: string, p: string)
    ensures var r := PasswordFailures(key, p);
      var n0 := Lacks(8 <= |p| <= 48);
      var n1 := n0 + Lacks(HasDigit(p));
      var n2 := n1 + Lacks(HasUpper(p));
      var n3 := n2 + Lacks(HasLower(p));
      && |r| == n3 + Lacks(HasSpecial(p))
      && (!(8 <= |p| <= 48) ==> r[0] == Failure(p, LengthMessage, key, "body"))
      && (!HasDigit(p) ==> r[n0] == Failure(p, DigitMessage, key, "body"))
      && (!HasUpper(p) ==> r[n1] == Failure(p, UpperMessage, key, "body"))
      && (!HasLower(p) ==> r[n2] == Failure(p, LowerMessage, key, "body"))
      && (!HasSpecial(p) ==> r[n3] == Failure(p, SpecialMessage, key, "body"))
  {
    var c0 := BodyCheck(8 <= |p| <= 48, key, p, LengthMessage);
    var c1 := BodyCheck(HasDigit(p), key, p, DigitMessage);
    var c2 := BodyCheck(HasUpper(p), key, p, UpperMessage);
    var c3 := BodyCheck(HasLower(p), key, p, LowerMessage);
    var c4 := BodyCheck(HasSpecial(p), key, p, SpecialMessage);
    var r := PasswordFailures(key, p);
    assert r == (((c0 + c1) + c2) + c3) + c4;
    assert |c0| == Lacks(8 <= |p| <= 48) && |c1| == Lacks(HasDigit(p)) && |c2| == Lacks(HasUpper(p));
    assert |c3| == Lacks(HasLower(p)) && |c4| == Lacks(HasSpecial(p));
  }

  /** No special character is an ASCII letter or digit. */
  lemma SpecialsAreNotAlphanumeric(c: char)
    requires c in SpecialCharacters
    ensures !('a' <= c <= 'z') && !('A' <= c <= 'Z') && !('0' <= c <= '9')
  {
    var k :| 0 <= k < |SpecialCharacters| && SpecialCharacters[k] == c;
  }

  /** "Passw0rd!" meets the policy. */
  lemma StrongPasswordExample()
    ensures PasswordFailures("password", "Passw0rd!") == []
  {
    var good := "Passw0rd!";
    assert good[8] == SpecialCharacters[3];
    assert '0' <= good[5] <= '9' && 'A' <= good[0] <= 'Z' && 'a' <= good[1] <= 'z' && good[8] in SpecialCharacters;
  }

  /** "password" fails for exactly its missing digit, upper-case letter and
      special character, in that order, each entry echoing the password. */
  lemma WeakPasswordExample()
    ensures var bad := "password";
      PasswordFailures("password", bad)
      == [Failure(bad, DigitMessage, "password", "body"), Failure(bad, UpperMessage, "password", "body"),
          Failure(bad, SpecialMessage, "password", "body")]
  {
    var bad := "password";
    assert HasLower(bad) by { assert 'a' <= bad[0] <= 'z'; }
    assert !HasDigit(bad) && !HasUpper(bad) by {
      forall i | 0 <= i < |bad| ensures 'a' <= bad[i] <= 'z' { }
    }
    assert !HasSpecial(bad) by {
      forall i | 0 <= i < |bad| ensures bad[i] !in SpecialCharacters {
        if bad[i] in SpecialCharacters { SpecialsAreNotAlphanumeric(bad[i]); }
      }
    }
  }

  /** Lower-casing a password always breaks the policy. */
  lemma LowerCasedPasswordRejected(p: string)
    ensures !StrongPassword(Text.ToLower(p))
  {
  }

  // ---- names -----------------------------------------------------------------------

  /** `isLength({ min: 1, max: 255 })`. */
  predicate NameLengthOk(s: string) { 1 <= |s| <= 255 }

  function NameFailures(key: string, s: string): (r: seq<Failure>)
    ensures r == [] <==> 1 <= |s| <= 255
    ensures r != [] ==> r == [Failure(s, InvalidValue, key, "body")]
  {
    BodyCheck(NameLengthOk(s), key, s, InvalidValue)
  }

  // ---- amount ----------------------------------------------------------------------

  const AmountMessage := "amount must be a valid, positive integer serialized as a string"

  /** The custom `amount` check: `BigInt(value) > 0`, with a value `BigInt`
      cannot parse rejected rather than thrown. */
  predicate AmountValid(value: string) {
    match Text.ParseBigInt(value)
    case None => false
    case Some(n) => n > 0
  }

  function AmountFailures(value: string): (r: seq<Failure>)
    ensures r == [] <==> AmountValid(value)
    ensures r != [] ==> r == [Failure(value, AmountMessage, "amount", "body")]
  {
    BodyCheck(AmountValid(value), "amount", value, AmountMessage)
  }

  /** Over the decimal texts of all integers, the check accepts exactly the
      positive ones; anything it accepts parses to a positive integer, so the
      controller's own `BigInt(amount)` cannot throw. */
  lemma AmountAcceptsExactlyPositive(n: int, value: string)
    ensures AmountValid(Text.DecimalString(n)) <==> n > 0
    ensures AmountValid(value) ==> Text.ParseBigInt(value).Some? && Text.ParseBigInt(value).value > 0
  {
    Text.DecimalRoundTrip(n);
  }

  /** A blank amount, empty or white space only, is rejected: `BigInt`
      reads it as 0. */
  lemma AmountRejectsBlank(value: string)
    requires Text.AllWhitespace(value)
    ensures Text.ParseBigInt(value) == Some(0)
    ensures AmountFailures(value) == [Failure(value, AmountMessage, "amount", "body")]
  {
    Text.TrimStartSkipsWhitespace(value, []);
    assert value + [] == value;
  }

  // ---- endpoints both revisions share ---------------------------------------------

  /** `POST /users`: `email` must be an email address, both names 1 to 255
      characters, and the password must meet the policy. */
  function CreateUserFailures(email: string, email_ok: bool, first_name: string, last_name: string, password: string)
    : (r: seq<Failure>)
    ensures r == [] <==> email_ok && NameLengthOk(first_name) && NameLengthOk(last_name) && StrongPassword(password)
    ensures !email_ok ==> r[0] == Failure(email, InvalidValue, "email", "body")
  {
    BodyCheck(email_ok, "email", email, InvalidValue) + NameFailures("first_name", first_name) + NameFailures("last_name", last_name)
    + PasswordFailures("password", password)
  }

  /** `POST /users/login`: `username` must be an email address, `password`
      must not be empty, and `grant_type` must be exactly "password". */
  function LoginFailures(username: string, username_ok: bool, password: string, grant_type: string): (r: seq<Failure>)
    ensures r == [] <==> username_ok && password != "" && grant_type == "password"
    ensures grant_type != "password" ==> Failure(grant_type, InvalidValue, "grant_type", "body") in r
  {
    BodyCheck(username_ok, "username", username, InvalidValue) + BodyCheck(password != "", "password", password, InvalidValue)
    + BodyCheck(grant_type == "password", "grant_type", grant_type, InvalidValue)
  }
}
