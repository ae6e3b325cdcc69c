/** The credential schema of the login form (validators/Auth.ts). */
module Auth {
  import opened Wrappers

  const MIN_PASSWORD_LENGTH: nat := 8

  const TOO_SHORT := "Password must be at least 8 characters"
  const NO_NUMBER := "Password must contain at least one number"
  const NO_SPECIAL_CHARACTER := "Password must contain at least one special character"
  const NO_LOWERCASE := "Password must contain at least one lowercase letter"
  const NO_UPPERCASE := "Password must contain at least one uppercase letter"

  /** The characters of the class `[!"#$%&()*,.:<>?@^{|}]`. */
  const SPECIAL_CHARACTERS := "!\"#$%&()*,.:<>?@^{|}"

  /** A username/password pair as submitted by the form. */
  datatype Credentials = Credentials(username: string, password: string)

  /** A schema issue: the field it is about and its message. */
  datatype Issue = Issue(path: string, message: string)

  /** The password checks, in the order the schema chains them. */
  datatype PasswordRule = MinLength | Digit | Special | Lowercase | Uppercase

  const PASSWORD_RULES := [MinLength, Digit, Special, Lowercase, Uppercase]

  /** A string's length as JavaScript counts it: in UTF-16 code units, so a
      character outside the Basic Multilingual Plane counts twice. */
  function Utf16Length(s: string): (n: nat)
    ensures |s| <= n <= 2 * |s|
    ensures (forall i :: 0 <= i < |s| ==> s[i] as int < 0x1_0000) ==> n == |s|
    ensures |s| == 1 ==> n == (if s[0] as int >= 0x1_0000 then 2 else 1)
  {
    if s == [] then 0
    else (if s[0] as int >= 0x1_0000 then 2 else 1) + Utf16Length(s[1..])
  }

  /** `/\d/`: without the `u` flag `\d` is exactly `[0-9]`. */
  predicate IsDigit(c: char) { '0' <= c <= '9' }

  predicate IsSpecial(c: char) { c in SPECIAL_CHARACTERS }

  predicate IsLowercase(c: char) { 'a' <= c <= 'z' }

  predicate IsUppercase(c: char) { 'A' <= c <= 'Z' }

  /** Whether the password satisfies one rule. A regex rule holds when some
      character of the password is in its class. */
  predicate Holds(rule: PasswordRule, password: string): (ok: bool)
    ensures rule == MinLength ==> (|password| >= MIN_PASSWORD_LENGTH ==> ok) && (ok ==> 2 * |password| >= MIN_PASSWORD_LENGTH)
    ensures rule == Digit ==> (ok <==> exists c :: c in password && IsDigit(c))
    ensures rule == Special ==> (ok <==> exists c :: c in password && IsSpecial(c))
    ensures rule == Lowercase ==> (ok <==> exists c :: c in password && IsLowercase(c))
    ensures rule == Uppercase ==> (ok <==> exists c :: c in password && IsUppercase(c))
  {
    assert forall i :: 0 <= i < |password| ==> password[i] in password;
    match rule
    case MinLength => Utf16Length(password) >= MIN_PASSWORD_LENGTH
    case Digit => exists i :: 0 <= i < |password| && IsDigit(password[i])
    case Special => exists i :: 0 <= i < |password| && IsSpecial(password[i])
    case Lowercase => exists i :: 0 <= i < |password| && IsLowercase(password[i])
    case Uppercase => exists i :: 0 <= i < |password| && IsUppercase(password[i])
  }

  function Message(rule: PasswordRule): string
  {
    match rule
    case MinLength => TOO_SHORT
    case Digit => NO_NUMBER
    case Special => NO_SPECIAL_CHARACTER
    case Lowercase => NO_LOWERCASE
    case Uppercase => NO_UPPERCASE
  }

  /** `sub` is `s` with some elements deleted: its elements occur in `s`, in
      the same order. Matching the first element greedily loses nothing. */
  predicate Subsequence<T(==)>(sub: seq<T>, s: seq<T>)
    decreases |s|
  {
    sub == [] || (s != [] && if sub[0] == s[0] then Subsequence(sub[1..], s[1..]) else Subsequence(sub, s[1..]))
  }

  /** The rules of `rules` the password breaks, in order. Every check of the
      chain runs, so a password that breaks several rules gets several issues. */
  function FailedRules(rules: seq<PasswordRule>, password: string): (failed: seq<PasswordRule>)
    ensures forall r :: r in failed <==> r in rules && !Holds(r, password)
    ensures |failed| <= |rules|
    ensures Subsequence(failed, rules)
  {
    if rules == [] then []
    else if Holds(rules[0], password) then FailedRules(rules[1..], password)
    else [rules[0]] + FailedRules(rules[1..], password)
  }

  function Messages(rules: seq<PasswordRule>): (messages: seq<string>)
    ensures |messages| == |rules|
    ensures forall i :: 0 <= i < |rules| ==> messages[i] == Message(rules[i])
  {
    if rules == [] then [] else [Message(rules[0])] + Messages(rules[1..])
  }

  /** `passwordSchema.safeParse`: the password itself, or the messages of
      every rule it breaks, in chain order. */
  function ParsePassword(password: string): (r: Result<string, seq<string>>)
    ensures r.Success? ==> r.value == password
    ensures r.Failure? ==> r.error != []
  {
    var failed := FailedRules(PASSWORD_RULES, password);
    if failed == [] then Success(password) else Failure(Messages(failed))
  }

  /** `usernameSchema`: any string. */
  function ParseUsername(username: string): (r: Result<string, seq<string>>)
    ensures r == Success(username)
  {
    Success(username)
  }

  /** `loginSchema.safeParse`: the object schema checks each field of its
      shape and reports every issue with the field name as its path. */
  function ParseLogin(credentials: Credentials): (r: Result<Credentials, seq<Issue>>)
    ensures r.Success? ==> r.value == credentials
  {
    var password := ParsePassword(credentials.password);
    var username := ParseUsername(credentials.username);
    var issues := FieldIssues("password", password) + FieldIssues("username", username);
    if issues == [] then Success(Credentials(username.value, password.value))
    else Failure(issues)
  }

  function FieldIssues(path: string, r: Result<string, seq<string>>): (issues: seq<Issue>)
    ensures |issues| == (if r.Success? then 0 else |r.error|)
    ensures forall i :: 0 <= i < |issues| ==> issues[i] == Issue(path, r.error[i])
  {
    if r.Success? then [] else AtPath(path, r.error)
  }

  function AtPath(path: string, messages: seq<string>): (issues: seq<Issue>)
    ensures |issues| == |messages|
    ensures forall i :: 0 <= i < |messages| ==> issues[i] == Issue(path, messages[i])
  {
    if messages == [] then [] else [Issue(path, messages[0])] + AtPath(path, messages[1..])
  }

  // ---------------------------------------------------------------------
  // Properties of the schema

  /** The five messages differ (at their 36th character). */
  lemma MessagesDistinct(r: PasswordRule, s: PasswordRule)
    ensures Message(r) == Message(s) <==> r == s
  {
  }

  /** A password is accepted exactly when all five rules hold. */
  lemma PasswordAcceptedIff(password: string)
    ensures ParsePassword(password).Success? <==>
      && Utf16Length(password) >= MIN_PASSWORD_LENGTH
      && Holds(Digit, password)
      && Holds(Special, password)
      && Holds(Lowercase, password)
      && Holds(Uppercase, password)
  {
  }

  /** Each rule reports its own message, and reports it exactly when the
      password breaks that rule, whatever the other rules say. */
  lemma RuleReportedIffBroken(rule: PasswordRule, password: string)
    ensures !Holds(rule, password) <==>
      ParsePassword(password).Failure? && Message(rule) in ParsePassword(password).error
  {
    var failed := FailedRules(PASSWORD_RULES, password);
    var messages := Messages(failed);
    if !Holds(rule, password) {
      assert rule in failed;
      var i :| 0 <= i < |failed| && failed[i] == rule;
      assert messages[i] == Message(rule);
    }
    if ParsePassword(password).Failure? && Message(rule) in ParsePassword(password).error {
      var i :| 0 <= i < |messages| && messages[i] == Message(rule);
      MessagesDistinct(failed[i], rule);
      assert failed[i] in failed;
    }
  }

  /** `-`, `_` and `+` are outside the special-character class: a password
      whose only symbols are these breaks that rule and no other. */
  lemma HyphenUnderscorePlusAreNotSpecial()
    ensures ParsePassword("Password1-_+") == Failure([NO_SPECIAL_CHARACTER])
  {
    var p := "Password1-_+";
    RulesOfSample(p);
    OnlySpecialBroken(p);
  }

  lemma RulesOfSample(p: string)
    requires p == "Password1-_+"
    ensures Holds(MinLength, p) && Holds(Digit, p) && Holds(Lowercase, p) && Holds(Uppercase, p)
    ensures !Holds(Special, p)
  {
    SampleHasNoSpecial(p);
    SampleLength(p);
    assert IsUppercase(p[0]) && IsLowercase(p[1]) && IsDigit(p[8]);
  }

  lemma SampleHasNoSpecial(p: string)
    requires p == "Password1-_+"
    ensures !Holds(Special, p)
  {
  }

  lemma SampleLength(p: string)
    requires p == "Password1-_+"
    ensures Utf16Length(p) == 12
  {
  }

  /** A password that breaks only the special-character rule gets exactly
      that rule's message. */
  lemma OnlySpecialBroken(p: string)
    requires Holds(MinLength, p) && Holds(Digit, p) && Holds(Lowercase, p) && Holds(Uppercase, p)
    requires !Holds(Special, p)
    ensures ParsePassword(p) == Failure([NO_SPECIAL_CHARACTER])
  {
    var rules := PASSWORD_RULES;
    assert FailedRules(rules[4..], p) == [];
    assert FailedRules(rules[3..], p) == [];
    assert FailedRules(rules[2..], p) == [Special];
    assert FailedRules(rules, p) == [Special];
    assert Messages([Special]) == [NO_SPECIAL_CHARACTER];
  }

  /** The length rule counts UTF-16 code units: two emoji make up the missing
      length of a six-character password. */
  lemma AstralCharactersCountTwice()
    ensures |"Aa1!\U{1F600}\U{1F600}"| == 6
    ensures ParsePassword("Aa1!\U{1F600}\U{1F600}") == Success("Aa1!\U{1F600}\U{1F600}")
  {
    var p := "Aa1!\U{1F600}\U{1F600}";
    AstralSampleLength(p);
    AstralSampleClasses(p);
    PasswordAcceptedIff(p);
  }

  lemma AstralSampleLength(p: string)
    requires p == "Aa1!\U{1F600}\U{1F600}"
    ensures Utf16Length(p) == 8
  {
    assert Utf16Length(p[5..]) == 2;
    assert Utf16Length(p[4..]) == 4;
    assert Utf16Length(p[3..]) == 5;
    assert Utf16Length(p[2..]) == 6;
    assert Utf16Length(p[1..]) == 7;
  }

  lemma AstralSampleClasses(p: string)
    requires p == "Aa1!\U{1F600}\U{1F600}"
    ensures Holds(Digit, p) && Holds(Special, p) && Holds(Lowercase, p) && Holds(Uppercase, p)
  {
    assert IsUppercase(p[0]) && IsLowercase(p[1]) && IsDigit(p[2]) && IsSpecial(p[3]);
  }

  /** JavaScript length is additive over concatenation; with the
      one-character values in the contract of `Utf16Length` it fixes the
      length of every string: one unit per character, two per character
      outside the Basic Multilingual Plane. */
  lemma {:induction false} Utf16Additive(a: string, b: string)
    ensures Utf16Length(a + b) == Utf16Length(a) + Utf16Length(b)
    decreases |a|
  {
    if a != [] {
      assert (a + b)[1..] == a[1..] + b;
      Utf16Additive(a[1..], b);
    } else {
      assert a + b == b;
    }
  }

  /** The first rule reported is the first rule of the chain the password
      breaks: a check that passes reports nothing and does not reorder the
      ones after it. */
  lemma {:induction false} FirstFailedRule(rules: seq<PasswordRule>, password: string, k: nat)
    requires k < |rules| && !Holds(rules[k], password)
    requires forall j :: 0 <= j < k ==> Holds(rules[j], password)
    ensures FailedRules(rules, password) != []
    ensures FailedRules(rules, password)[0] == rules[k]
    decreases k
  {
    if k > 0 {
      assert Holds(rules[0], password);
      assert forall j :: 0 <= j < k - 1 ==> rules[1..][j] == rules[j + 1];
      FirstFailedRule(rules[1..], password, k - 1);
    }
  }

  /** The first message of a rejected password is the message of the first
      rule of the chain it breaks. */
  lemma FirstMessageIsFirstBrokenRule(password: string, k: nat)
    requires k < |PASSWORD_RULES| && !Holds(PASSWORD_RULES[k], password)
    requires forall j :: 0 <= j < k ==> Holds(PASSWORD_RULES[j], password)
    ensures ParsePassword(password).Failure?
    ensures ParsePassword(password).error[0] == Message(PASSWORD_RULES[k])
  {
    FirstFailedRule(PASSWORD_RULES, password, k);
  }

  /** The login schema accepts a pair exactly when the password is accepted,
      since the username never fails, and then every issue is a password
      issue. */
  lemma LoginAcceptedIffPasswordAccepted(credentials: Credentials)
    ensures ParseLogin(credentials).Success? <==> ParsePassword(credentials.password).Success?
    ensures ParseLogin(credentials).Failure? ==>
      && |ParseLogin(credentials).error| == |ParsePassword(credentials.password).error|
      && forall i :: 0 <= i < |ParseLogin(credentials).error| ==>
           ParseLogin(credentials).error[i] == Issue("password", ParsePassword(credentials.password).error[i])
  {
  }
}
