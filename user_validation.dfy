/** The registration schema `userValidation` and its two regular expressions. */
module UserValidation {
  import opened Wrappers
  import opened Chars
  import opened Joi

  /** The classes the password's three lookaheads look for. */
  datatype CharClass = Lower | Upper | Digit

  predicate InClass(c: char, k: CharClass)
  {
    match k
    case Lower => IsLower(c)
    case Upper => IsUpper(c)
    case Digit => IsDigit(c)
  }

  /** `(?=.*[k])` at the start of the string: a character of class `k` occurs
      with no line terminator before it (`.` does not match those). */
  predicate Lookahead(s: string, k: CharClass)
  {
    exists i :: 0 <= i < |s| && InClass(s[i], k) && forall j :: 0 <= j < i ==> !IsLineTerminator(s[j])
  }

  /** `^(?=.*[a-z])(?=.*[A-Z])(?=.*\d)[A-Za-z\d]{5,}$` */
  predicate PasswordPattern(s: string)
  {
    && Lookahead(s, Lower) && Lookahead(s, Upper) && Lookahead(s, Digit)
    && |s| >= 5 && forall i :: 0 <= i < |s| ==> IsAlnum(s[i])
  }

  /** A part of an email address between its separators: `[^\s@]+` */
  predicate EmailPart(t: string)
  {
    t != [] && forall i :: 0 <= i < |t| ==> t[i] != '@' && !IsSpace(t[i])
  }

  /** One way `^[^\s@]+@[^\s@]+\.[^\s@]+$` can match: the '@' at `at` and the
      separating '.' at `dot`. */
  predicate EmailSplit(s: string, at: nat, dot: nat)
  {
    && at < dot < |s| && s[at] == '@' && s[dot] == '.'
    && EmailPart(s[..at]) && EmailPart(s[at + 1..dot]) && EmailPart(s[dot + 1..])
  }

  /** `^[^\s@]+@[^\s@]+\.[^\s@]+$` */
  predicate EmailPattern(s: string)
  {
    exists at: nat, dot: nat | at < dot < |s| :: EmailSplit(s, at, dot)
  }

  /** The registration body. */
  datatype UserForm = UserForm(
    userName: Field<string>, email: Field<string>, password: Field<string>,
    confirmPassword: Field<string>, role: Field<string>)

  /** `userValidation`, key by key in declaration order. */
  function UserChecks(u: UserForm): (r: seq<Check>)
    ensures Keys(r) == ["userName", "email", "password", "confirmPassword", "role"]
  {
    [ Check("userName", IsString(u.userName) && |u.userName.value| >= 5),
      Check("email", IsString(u.email) && EmailPattern(u.email.value)),
      Check("password", IsString(u.password) && PasswordPattern(u.password.value)),
      Check("confirmPassword", u.confirmPassword.Given? && u.password.Given? &&
                               u.confirmPassword.value == u.password.value),
      Check("role", OneOf(u.role, {"artist", "director"})) ]
  }

  predicate UserValid(u: UserForm)
  {
    Passes(UserChecks(u))
  }

  /** A password matches exactly when it has at least five characters, all
      ASCII letters or digits, among them a lower-case letter, an upper-case
      letter and a digit. */
  lemma PasswordRule(s: string)
    ensures PasswordPattern(s) <==>
      && |s| >= 5
      && (forall i :: 0 <= i < |s| ==> IsAlnum(s[i]))
      && (exists i :: 0 <= i < |s| && IsLower(s[i]))
      && (exists i :: 0 <= i < |s| && IsUpper(s[i]))
      && (exists i :: 0 <= i < |s| && IsDigit(s[i]))
  {
    if forall i :: 0 <= i < |s| ==> IsAlnum(s[i]) {
      assert forall j :: 0 <= j < |s| ==> !IsLineTerminator(s[j]);
      if i :| 0 <= i < |s| && IsLower(s[i]) { assert InClass(s[i], Lower); }
      if i :| 0 <= i < |s| && IsUpper(s[i]) { assert InClass(s[i], Upper); }
      if i :| 0 <= i < |s| && IsDigit(s[i]) { assert InClass(s[i], Digit); }
    }
  }

  /** No string shorter than five characters is an accepted password. */
  lemma ShortPasswordRejected(u: UserForm)
    requires u.password.Given? && |u.password.value| < 5
    ensures !UserValid(u)
  {
    assert !UserChecks(u)[2].ok;
  }

  /** An email matches exactly when it has no whitespace, exactly one '@' with
      something before it, and after the '@' a '.' with a character on each side. */
  lemma EmailRule(s: string)
    ensures EmailPattern(s) <==>
      && (forall k :: 0 <= k < |s| ==> !IsSpace(s[k]))
      && (exists at :: 0 < at < |s| && s[at] == '@'
            && (forall k :: 0 <= k < |s| && k != at ==> s[k] != '@')
            && (exists d :: at + 1 < d < |s| - 1 && s[d] == '.'))
  {
    if EmailPattern(s) {
      var at: nat, dot: nat :| at < dot < |s| && EmailSplit(s, at, dot);
      assert forall k :: 0 <= k < at ==> s[k] == s[..at][k];
      assert forall k :: at < k < dot ==> s[k] == s[at + 1..dot][k - at - 1];
      assert forall k :: dot < k < |s| ==> s[k] == s[dot + 1..][k - dot - 1];
      assert |s[at + 1..dot]| > 0 && |s[dot + 1..]| > 0;
    } else {
      if (forall k :: 0 <= k < |s| ==> !IsSpace(s[k])) {
        forall at | 0 < at < |s| && s[at] == '@' && (forall k :: 0 <= k < |s| && k != at ==> s[k] != '@')
          ensures forall d :: at + 1 < d < |s| - 1 ==> s[d] != '.'
        {
          forall d | at + 1 < d < |s| - 1
            ensures s[d] != '.'
          {
            if s[d] == '.' {
              assert EmailPart(s[..at]);
              assert EmailPart(s[at + 1..d]);
              assert EmailPart(s[d + 1..]);
              assert EmailSplit(s, at, d);
            }
          }
        }
      }
    }
  }

  /** Registration is rejected whenever the confirmation differs from the password. */
  lemma ConfirmMustMatch(u: UserForm)
    requires u.confirmPassword != u.password
    ensures !UserValid(u)
  {
    assert !UserChecks(u)[3].ok;
  }

  /** `userValidation` accepts a body exactly when each of its five keys satisfies its rule. */
  lemma UserRules(u: UserForm)
    ensures UserValid(u) <==>
      && u.userName.Given? && |u.userName.value| >= 5
      && u.email.Given? && EmailPattern(u.email.value)
      && u.password.Given? && PasswordPattern(u.password.value)
      && u.confirmPassword == u.password
      && u.role.Given? && u.role.value in {"artist", "director"}
  {
    var cs := UserChecks(u);
    if UserValid(u) {
      assert cs[0].ok && cs[1].ok && cs[2].ok && cs[3].ok && cs[4].ok;
    }
  }
}
