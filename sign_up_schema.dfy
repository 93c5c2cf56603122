/**
 * The sign-up form schema: per-field rules (length bounds and regular
 * expressions) and the cross-field rule that the two passwords agree.
 *
 * `Issues` lists the failed checks in the order the validator reports them
 * (fields in declaration order, each field's checks in the order they are
 * chained, then the refinement), each with its path and message. Beside
 * the checks as written stand reference predicates (`NameAccepted`,
 * `PhoneAccepted`, ...) saying what each rule means; the contracts connect
 * the two. The e-mail format check belongs to the validation library and is
 * a parameter, `isEmail`.
 *
 * The regular expressions are matched by the functions `MatchesNamePattern`,
 * `MatchesPhonePattern` and `MatchesPasswordPattern`; in them `\s` is
 * `JsText.IsSpace`, `\d` is an ASCII digit and `.` is any character but a
 * line terminator.
 */
module SignUpSchema {
  import opened JsText

  /** The form's five fields. */
  datatype SignUpFormData = SignUpFormData(
    name: string,
    email: string,
    phone: string,
    password: string,
    confirmPassword: string)

  /** What is submitted: the form without `confirmPassword`. */
  datatype SignUpSubmitData = SignUpSubmitData(
    email: string,
    phone: string,
    password: string,
    name: string)

  datatype Field = Name | Email | Phone | Password | ConfirmPassword

  /** One failed check: the path it is reported on and its message. */
  datatype Issue = Issue(path: Field, message: string)

  // ----- character classes -----

  predicate IsAsciiLower(c: char) { 'a' <= c <= 'z' }
  predicate IsAsciiUpper(c: char) { 'A' <= c <= 'Z' }
  predicate IsDigit(c: char) { '0' <= c <= '9' }
  predicate IsNonZeroDigit(c: char) { '1' <= c <= '9' }

  /** The range `À-ÿ`, U+00C0 to U+00FF (it includes `×` and `÷`). */
  predicate IsInAgraveToYdiaeresis(c: char) { '\U{00C0}' <= c <= '\U{00FF}' }

  /** The class `[a-zA-ZÀ-ÿ\s]`. */
  predicate IsNameChar(c: char) {
    IsAsciiLower(c) || IsAsciiUpper(c) || IsInAgraveToYdiaeresis(c) || IsSpace(c)
  }

  // ----- the regular expressions -----

  /** `/^[a-zA-ZÀ-ÿ\s]+$/`: one or more name characters and nothing else. */
  function MatchesNamePattern(s: string): (b: bool)
    ensures b <==> |s| >= 1 && forall i :: 0 <= i < |s| ==> IsNameChar(s[i])
  {
    |s| >= 1 && IsNameChar(s[0]) && (|s| == 1 || MatchesNamePattern(s[1..]))
  }

  /** `\d{lo,hi}$`: between `lo` and `hi` ASCII digits, then the end of the input. */
  function MatchesDigitRun(s: string, lo: nat, hi: nat): (b: bool)
    ensures b <==> lo <= |s| <= hi && forall i :: 0 <= i < |s| ==> IsDigit(s[i])
  {
    if s == [] then lo == 0
    else hi > 0 && IsDigit(s[0]) && MatchesDigitRun(s[1..], if lo > 0 then lo - 1 else 0, hi - 1)
  }

  /** `[1-9]\d{1,14}$`, the part of the phone pattern after the optional `+`. */
  predicate MatchesPhoneDigits(t: string) {
    |t| >= 1 && IsNonZeroDigit(t[0]) && MatchesDigitRun(t[1..], 1, 14)
  }

  /** `/^\+?[1-9]\d{1,14}$/`: the `+` is tried first, and then its absence. */
  predicate MatchesPhonePattern(s: string) {
    (|s| >= 1 && s[0] == '+' && MatchesPhoneDigits(s[1..])) || MatchesPhoneDigits(s)
  }

  /** The three classes the password must contain. */
  datatype CharClass = Lower | Upper | Digit

  predicate InClass(c: char, k: CharClass) {
    match k
    case Lower => IsAsciiLower(c)
    case Upper => IsAsciiUpper(c)
    case Digit => IsDigit(c)
  }

  /** No line terminator occurs in `s` before index `i`. */
  predicate NoLineTerminatorBefore(s: string, i: int) {
    forall j :: 0 <= j < i && j < |s| ==> !IsLineTerminator(s[j])
  }

  /** A character of class `k` at index `i` that `.*` can reach from the start of `s`. */
  predicate ReachableAt(s: string, k: CharClass, i: int) {
    0 <= i < |s| && InClass(s[i], k) && NoLineTerminatorBefore(s, i)
  }

  /** The lookahead `(?=.*[k])` at the start of `s`. */
  function LookaheadFinds(s: string, k: CharClass): (b: bool)
    ensures b <==> exists i :: 0 <= i < |s| && ReachableAt(s, k, i)
  {
    if s == [] then
      false
    else if InClass(s[0], k) then
      assert ReachableAt(s, k, 0);
      true
    else if IsLineTerminator(s[0]) then
      false
    else
      var b := LookaheadFinds(s[1..], k);
      assert forall i :: ReachableAt(s[1..], k, i) <==> ReachableAt(s, k, i + 1) by {
        forall i ensures ReachableAt(s[1..], k, i) <==> ReachableAt(s, k, i + 1) {
          if 0 <= i < |s[1..]| {
            assert forall j :: 0 <= j < i ==> s[1..][j] == s[j + 1];
            if NoLineTerminatorBefore(s, i + 1) {
              assert NoLineTerminatorBefore(s[1..], i);
            }
            if NoLineTerminatorBefore(s[1..], i) {
              assert forall j :: 1 <= j < i + 1 ==> !IsLineTerminator(s[j]) by {
                forall j | 1 <= j < i + 1 ensures !IsLineTerminator(s[j]) {
                  assert s[j] == s[1..][j - 1];
                }
              }
            }
          }
        }
      }
      assert b ==> exists i :: ReachableAt(s, k, i) by {
        if b {
          var i :| ReachableAt(s[1..], k, i);
          assert ReachableAt(s, k, i + 1);
        }
      }
      assert (exists i :: ReachableAt(s, k, i)) ==> b by {
        if exists i :: ReachableAt(s, k, i) {
          var i :| ReachableAt(s, k, i);
          assert ReachableAt(s[1..], k, i - 1);
        }
      }
      b
  }

  /** `/^(?=.*[a-z])(?=.*[A-Z])(?=.*\d)/`. */
  predicate MatchesPasswordPattern(s: string) {
    LookaheadFinds(s, Lower) && LookaheadFinds(s, Upper) && LookaheadFinds(s, Digit)
  }

  // ----- what each rule means -----

  predicate NameAccepted(s: string) {
    2 <= |s| <= 50 && forall i :: 0 <= i < |s| ==> IsNameChar(s[i])
  }

  predicate EmailAccepted(s: string, isEmail: string -> bool) {
    isEmail(s) && |s| >= 1
  }

  /** Nine digits not starting with 0, or `+` and eight digits not starting with 0. */
  predicate PhoneAccepted(s: string) {
    && |s| == 9
    && (|| (IsNonZeroDigit(s[0]) && forall i :: 1 <= i < 9 ==> IsDigit(s[i]))
        || (s[0] == '+' && IsNonZeroDigit(s[1]) && forall i :: 2 <= i < 9 ==> IsDigit(s[i])))
  }

  /** At least 8 characters, with a lower-case letter, an upper-case letter and a digit, each before any line break. */
  predicate PasswordAccepted(s: string) {
    && |s| >= 8
    && (exists i :: 0 <= i < |s| && ReachableAt(s, Lower, i))
    && (exists i :: 0 <= i < |s| && ReachableAt(s, Upper, i))
    && (exists i :: 0 <= i < |s| && ReachableAt(s, Digit, i))
  }

  predicate ConfirmAccepted(s: string) {
    |s| >= 1
  }

  predicate FieldsAccepted(d: SignUpFormData, isEmail: string -> bool) {
    && NameAccepted(d.name)
    && EmailAccepted(d.email, isEmail)
    && PhoneAccepted(d.phone)
    && PasswordAccepted(d.password)
    && ConfirmAccepted(d.confirmPassword)
  }

  /** The whole schema: every field rule, and the two passwords equal. */
  predicate Accepted(d: SignUpFormData, isEmail: string -> bool) {
    FieldsAccepted(d, isEmail) && d.password == d.confirmPassword
  }

  // ----- the checks as written, with their messages -----

  /** Some issue in `issues` is reported on path `f`. */
  predicate HasIssueAt(issues: seq<Issue>, f: Field) {
    exists k :: 0 <= k < |issues| && issues[k].path == f
  }

  /** Every issue in `issues` is reported on path `f`. */
  predicate AllAt(issues: seq<Issue>, f: Field) {
    forall k :: 0 <= k < |issues| ==> issues[k].path == f
  }

  function NameIssues(s: string): (r: seq<Issue>)
    ensures AllAt(r, Name)
    ensures r == [] <==> NameAccepted(s)
  {
    (if |s| < 2 then [Issue(Name, "Nome deve ter pelo menos 2 caracteres")] else [])
    + (if |s| > 50 then [Issue(Name, "Nome deve ter no máximo 50 caracteres")] else [])
    + (if !MatchesNamePattern(s) then [Issue(Name, "Nome deve conter apenas letras e espaços")] else [])
  }

  function EmailIssues(s: string, isEmail: string -> bool): (r: seq<Issue>)
    ensures AllAt(r, Email)
    ensures r == [] <==> EmailAccepted(s, isEmail)
  {
    (if !isEmail(s) then [Issue(Email, "Email inválido")] else [])
    + (if |s| < 1 then [Issue(Email, "Email é obrigatório")] else [])
  }

  /** With the length fixed at 9, the phone pattern accepts exactly the two forms of `PhoneAccepted`. */
  lemma PhonePatternAtNine(s: string)
    requires |s| == 9
    ensures MatchesPhonePattern(s) <==> PhoneAccepted(s)
  {
    assert forall i :: 0 <= i < |s[1..][1..]| ==> s[1..][1..][i] == s[i + 2];
    assert forall i :: 0 <= i < |s[1..]| ==> s[1..][i] == s[i + 1];
    if PhoneAccepted(s) {
      if IsNonZeroDigit(s[0]) {
        assert forall i :: 0 <= i < |s[1..]| ==> IsDigit(s[1..][i]);
        assert MatchesPhoneDigits(s);
      } else {
        assert forall i :: 0 <= i < |s[1..][1..]| ==> IsDigit(s[1..][1..][i]);
        assert MatchesPhoneDigits(s[1..]);
      }
    }
    if MatchesPhonePattern(s) {
      if MatchesPhoneDigits(s) {
        forall i | 1 <= i < 9 ensures IsDigit(s[i]) { assert s[i] == s[1..][i - 1]; }
      } else {
        forall i | 2 <= i < 9 ensures IsDigit(s[i]) { assert s[i] == s[1..][1..][i - 2]; }
      }
    }
  }

  function PhoneIssues(s: string): (r: seq<Issue>)
    ensures AllAt(r, Phone)
    ensures r == [] <==> PhoneAccepted(s)
  {
    assert |s| == 9 ==> (MatchesPhonePattern(s) <==> PhoneAccepted(s)) by {
      if |s| == 9 { PhonePatternAtNine(s); }
    }
    (if |s| > 9 then [Issue(Phone, "Telefone deve ter no máximo 9 dígitos")] else [])
    + (if |s| < 9 then [Issue(Phone, "Telefone deve ter pelo menos 9 dígitos")] else [])
    + (if !MatchesPhonePattern(s) then [Issue(Phone, "Formato de telefone inválido")] else [])
  }

  function PasswordIssues(s: string): (r: seq<Issue>)
    ensures AllAt(r, Password)
    ensures r == [] <==> PasswordAccepted(s)
  {
    (if |s| < 8 then [Issue(Password, "Senha deve ter pelo menos 8 caracteres")] else [])
    + (if !MatchesPasswordPattern(s) then
         [Issue(Password, "Senha deve conter pelo menos uma letra minúscula, uma maiúscula e um número")]
       else [])
  }

  function ConfirmIssues(s: string): (r: seq<Issue>)
    ensures AllAt(r, ConfirmPassword)
    ensures r == [] <==> ConfirmAccepted(s)
  {
    if |s| < 1 then [Issue(ConfirmPassword, "Confirmação de senha é obrigatória")] else []
  }

  /** The refinement: a mismatch is reported on the `confirmPassword` path. */
  function MismatchIssues(d: SignUpFormData): (r: seq<Issue>)
    ensures AllAt(r, ConfirmPassword)
    ensures r == [] <==> d.password == d.confirmPassword
  {
    if d.password != d.confirmPassword then [Issue(ConfirmPassword, "Senhas não coincidem")] else []
  }

  /** An issue at `f` in a concatenation is an issue at `f` in one of its parts. */
  lemma HasIssueAtConcat(a: seq<Issue>, b: seq<Issue>, f: Field)
    ensures HasIssueAt(a + b, f) <==> HasIssueAt(a, f) || HasIssueAt(b, f)
  {
    if HasIssueAt(a + b, f) {
      var k :| 0 <= k < |a + b| && (a + b)[k].path == f;
      if k >= |a| { assert b[k - |a|].path == f; }
    }
    if HasIssueAt(a, f) {
      var k :| 0 <= k < |a| && a[k].path == f;
      assert (a + b)[k].path == f;
    }
    if HasIssueAt(b, f) {
      var k :| 0 <= k < |b| && b[k].path == f;
      assert (a + b)[k + |a|].path == f;
    }
  }

  /** A list whose issues are all at `g` has an issue at `f` only if `f == g`, and then exactly when it is non-empty. */
  lemma HasIssueAtUniform(a: seq<Issue>, g: Field, f: Field)
    requires AllAt(a, g)
    ensures HasIssueAt(a, f) <==> (f == g && a != [])
  {
    if f == g && a != [] { assert a[0].path == f; }
  }

  /** Adding a list of issues all at `g` adds exactly `g` to the paths, when it is non-empty. */
  lemma HasIssueAtAppend(acc: seq<Issue>, part: seq<Issue>, g: Field, f: Field)
    requires AllAt(part, g)
    ensures HasIssueAt(acc + part, f) <==> HasIssueAt(acc, f) || (f == g && part != [])
  {
    HasIssueAtConcat(acc, part, f);
    HasIssueAtUniform(part, g, f);
  }

  /** The paths of the schema's six issue lists, concatenated in order. */
  lemma PathsOfParts(n: seq<Issue>, e: seq<Issue>, p: seq<Issue>, w: seq<Issue>, c: seq<Issue>, m: seq<Issue>, f: Field)
    requires AllAt(n, Name) && AllAt(e, Email) && AllAt(p, Phone)
    requires AllAt(w, Password) && AllAt(c, ConfirmPassword) && AllAt(m, ConfirmPassword)
    ensures HasIssueAt(n + e + p + w + c + m, f)
        <==> (|| (f == Name && n != []) || (f == Email && e != []) || (f == Phone && p != [])
              || (f == Password && w != []) || (f == ConfirmPassword && (c != [] || m != [])))
  {
    HasIssueAtUniform(n, Name, f);
    HasIssueAtAppend(n, e, Email, f);
    HasIssueAtAppend(n + e, p, Phone, f);
    HasIssueAtAppend(n + e + p, w, Password, f);
    HasIssueAtAppend(n + e + p + w, c, ConfirmPassword, f);
    HasIssueAtAppend(n + e + p + w + c, m, ConfirmPassword, f);
  }

  /** Every issue the schema reports, in order. */
  function Issues(d: SignUpFormData, isEmail: string -> bool): (r: seq<Issue>)
    ensures HasIssueAt(r, Name) <==> !NameAccepted(d.name)
    ensures HasIssueAt(r, Email) <==> !EmailAccepted(d.email, isEmail)
    ensures HasIssueAt(r, Phone) <==> !PhoneAccepted(d.phone)
    ensures HasIssueAt(r, Password) <==> !PasswordAccepted(d.password)
    ensures HasIssueAt(r, ConfirmPassword)
        <==> !ConfirmAccepted(d.confirmPassword) || d.password != d.confirmPassword
    ensures r == [] <==> Accepted(d, isEmail)
  {
    var n, e, p, w, c, m :=
      NameIssues(d.name), EmailIssues(d.email, isEmail), PhoneIssues(d.phone),
      PasswordIssues(d.password), ConfirmIssues(d.confirmPassword), MismatchIssues(d);
    PathsOfParts(n, e, p, w, c, m, Name);
    PathsOfParts(n, e, p, w, c, m, Email);
    PathsOfParts(n, e, p, w, c, m, Phone);
    PathsOfParts(n, e, p, w, c, m, Password);
    PathsOfParts(n, e, p, w, c, m, ConfirmPassword);
    n + e + p + w + c + m
  }

  /** The validator's verdict: the data itself when no check fails, otherwise the issues. */
  function SafeParse(d: SignUpFormData, isEmail: string -> bool): (r: Result<SignUpFormData, seq<Issue>>)
    ensures r.Success? <==> Accepted(d, isEmail)
    ensures r.Success? ==> r.value == d
    ensures r.Failure? ==> r.error != [] && r.error == Issues(d, isEmail)
  {
    var issues := Issues(d, isEmail);
    if issues == [] then Success(d) else Failure(issues)
  }

  /** Valid fields with different passwords: rejected with the single mismatch issue on `confirmPassword`. */
  lemma MismatchRejected(d: SignUpFormData, isEmail: string -> bool)
    requires FieldsAccepted(d, isEmail)
    requires d.password != d.confirmPassword
    ensures SafeParse(d, isEmail) == Failure([Issue(ConfirmPassword, "Senhas não coincidem")])
  {
    assert NameIssues(d.name) == [] && EmailIssues(d.email, isEmail) == [];
    assert PhoneIssues(d.phone) == [] && PasswordIssues(d.password) == [];
    assert ConfirmIssues(d.confirmPassword) == [];
    assert Issues(d, isEmail) == MismatchIssues(d);
  }

  /** For a password without line breaks, the pattern just asks for one character of each class. */
  lemma PasswordPatternWithoutLineBreaks(s: string)
    requires forall j :: 0 <= j < |s| ==> !IsLineTerminator(s[j])
    ensures MatchesPasswordPattern(s)
        <==> (&& (exists i :: 0 <= i < |s| && IsAsciiLower(s[i]))
              && (exists i :: 0 <= i < |s| && IsAsciiUpper(s[i]))
              && (exists i :: 0 <= i < |s| && IsDigit(s[i])))
  {
    forall i | 0 <= i < |s|
      ensures ReachableAt(s, Lower, i) == IsAsciiLower(s[i])
      ensures ReachableAt(s, Upper, i) == IsAsciiUpper(s[i])
      ensures ReachableAt(s, Digit, i) == IsDigit(s[i])
    {
    }
  }

  /** The submitted record: every field but `confirmPassword`. */
  function ToSubmitData(d: SignUpFormData): SignUpSubmitData {
    SignUpSubmitData(d.email, d.phone, d.password, d.name)
  }

  /** Two forms give the same submitted record exactly when they agree on all fields but `confirmPassword`. */
  lemma ToSubmitDataDropsOnlyConfirm(d: SignUpFormData, d': SignUpFormData)
    ensures ToSubmitData(d) == ToSubmitData(d')
        <==> (d.name == d'.name && d.email == d'.email && d.phone == d'.phone && d.password == d'.password)
    ensures ToSubmitData(d).name == d.name && ToSubmitData(d).email == d.email
    ensures ToSubmitData(d).phone == d.phone && ToSubmitData(d).password == d.password
  {
  }
}
