/**
 * The validation rules that the Register, Login and Profile forms hand to
 * react-hook-form. The library checks a field's rules in a fixed order
 * (`required`, then `minLength`, then `pattern`, then `validate`) and reports
 * the message of the first rule that fails; `minLength` and `pattern` are not
 * checked on an empty value. A field's result here is `None` when it is
 * accepted and `Some(message)` otherwise.
 */
module FormRules {
  import opened Wrappers
  import opened Text

  // ---------------------------------------------------------------------------
  // The email pattern /^[A-Z0-9._%+-]+@[A-Z0-9.-]+\.[A-Z]{2,}$/i
  // ---------------------------------------------------------------------------

  /** `[A-Z0-9._%+-]` under the `i` flag. */
  predicate IsLocalChar(c: char) { IsAsciiLetter(c) || IsDigit(c) || c in "._%+-" }

  /** `[A-Z0-9.-]` under the `i` flag. */
  predicate IsDomainChar(c: char) { IsAsciiLetter(c) || IsDigit(c) || c in ".-" }

  predicate AllLocal(s: string) { forall i :: 0 <= i < |s| ==> IsLocalChar(s[i]) }

  predicate AllDomain(s: string) { forall i :: 0 <= i < |s| ==> IsDomainChar(s[i]) }

  predicate AllLetters(s: string) { forall i :: 0 <= i < |s| ==> IsAsciiLetter(s[i]) }

  /**
   * One way the regular expression can match `s`: the '@' at `at`, the
   * literal '.' at `dot`, one or more local characters before the '@', one or
   * more domain characters between them and at least two letters after.
   */
  predicate EmailShape(s: string, at: int, dot: int)
  {
    && 0 < at && at + 1 < dot && dot + 3 <= |s|
    && s[at] == '@' && s[dot] == '.'
    && AllLocal(s[..at]) && AllDomain(s[at + 1..dot]) && AllLetters(s[dot + 1..])
  }

  /** The regular expression matches `s`. */
  ghost predicate MatchesEmailPattern(s: string)
  {
    exists at, dot :: EmailShape(s, at, dot)
  }

  /**
   * A direct check of the pattern: split at the first '@', then split the
   * rest at its last '.', and check the three pieces.
   */
  predicate IsValidEmail(s: string)
  {
    && '@' in s
    && var at := IndexOf(s, '@');
    && '.' in s[at + 1..]
    && EmailShape(s, at, at + 1 + LastIndexOf(s[at + 1..], '.'))
  }

  /** The direct check accepts exactly the strings the regular expression matches. */
  lemma EmailCheckIsPattern(s: string)
    ensures IsValidEmail(s) <==> MatchesEmailPattern(s)
  {
    if MatchesEmailPattern(s) {
      var at, dot :| EmailShape(s, at, dot);
      EmailCheckComplete(s, at, dot);
    }
  }

  /** Every match of the pattern is found by the direct check. */
  lemma EmailCheckComplete(s: string, at: int, dot: int)
    requires EmailShape(s, at, dot)
    ensures IsValidEmail(s)
  {
    NoLocalAt(s[..at]);
    IndexOfIs(s, '@', at);
    var domain := s[at + 1..];
    var d := dot - at - 1;
    assert domain[d + 1..] == s[dot + 1..];
    NoDotInLetters(s[dot + 1..]);
    LastIndexOfIs(domain, '.', d);
  }

  lemma NoLocalAt(s: string)
    requires AllLocal(s)
    ensures '@' !in s
  {
  }

  lemma NoDotInLetters(s: string)
    requires AllLetters(s)
    ensures '.' !in s
  {
  }

  /**
   * An accepted address holds exactly one '@': none before the first (which
   * `IndexOf` promises) and none after it.
   */
  lemma ValidEmailHasOneAt(s: string)
    requires IsValidEmail(s)
    ensures '@' !in s[IndexOf(s, '@') + 1..]
  {
    var at := IndexOf(s, '@');
    var dot := at + 1 + LastIndexOf(s[at + 1..], '.');
    ShapeHasOneAt(s, at, dot);
  }

  /** A match of the pattern has no '@' after the one at `at`. */
  lemma ShapeHasOneAt(s: string, at: int, dot: int)
    requires EmailShape(s, at, dot)
    ensures '@' !in s[at + 1..]
  {
    var domain, tld := s[at + 1..dot], s[dot + 1..];
    assert s[at + 1..] == domain + ['.'] + tld;
    assert '@' !in domain;
    assert '@' !in tld;
  }

  // ---------------------------------------------------------------------------
  // Rules shared by the three forms
  // ---------------------------------------------------------------------------

  const EmailRequired := "Email é obrigatório"
  const EmailInvalid := "Email inválido"
  const PasswordRequired := "Senha é obrigatória"
  const PasswordTooShort := "Senha deve ter pelo menos 6 caracteres"
  const PasswordsDiffer := "As senhas não coincidem"
  const ConfirmRequired := "Confirmação de senha é obrigatória"

  /** `required` alone. */
  function RequiredError(v: string, message: string): (r: Option<string>)
    ensures r.None? <==> v != ""
    ensures r.Some? ==> r.value == message
  {
    if v == "" then Some(message) else None
  }

  /**
   * `required` then `minLength: n`; react-hook-form compares `value.length`,
   * which counts UTF-16 code units.
   */
  function MinLengthError(v: string, n: nat, requiredMessage: string, shortMessage: string): (r: Option<string>)
    requires n >= 1
    ensures r.None? <==> Utf16Length(v) >= n
    ensures v == "" ==> r == Some(requiredMessage)
    ensures 0 < Utf16Length(v) < n ==> r == Some(shortMessage)
  {
    if v == "" then Some(requiredMessage)
    else if Utf16Length(v) < n then Some(shortMessage)
    else None
  }

  /**
   * The password rule the three forms share: `required` with the form's own
   * message, then `minLength: 6` with the common one.
   */
  function PasswordError(v: string, requiredMessage: string): (r: Option<string>)
    ensures r.None? <==> Utf16Length(v) >= 6
    ensures v == "" ==> r == Some(requiredMessage)
    ensures 0 < Utf16Length(v) < 6 ==> r == Some(PasswordTooShort)
  {
    MinLengthError(v, 6, requiredMessage, PasswordTooShort)
  }

  /** The email field: `required` then the pattern. */
  function EmailError(v: string): (r: Option<string>)
    ensures r.None? <==> IsValidEmail(v)
    ensures v == "" ==> r == Some(EmailRequired)
    ensures v != "" && !IsValidEmail(v) ==> r == Some(EmailInvalid)
  {
    if v == "" then Some(EmailRequired)
    else if !IsValidEmail(v) then Some(EmailInvalid)
    else None
  }

  /** A confirmation field: `required` then `validate: value === other`. */
  function ConfirmError(v: string, other: string): (r: Option<string>)
    ensures r.None? <==> v != "" && v == other
    ensures v == "" ==> r == Some(ConfirmRequired)
    ensures v != "" && v != other ==> r == Some(PasswordsDiffer)
  {
    if v == "" then Some(ConfirmRequired)
    else if v != other then Some(PasswordsDiffer)
    else None
  }

  /** The messages of the failing fields, in field order. */
  function Failures(results: seq<Option<string>>): (msgs: seq<string>)
    ensures |msgs| <= |results|
    ensures msgs == [] <==> forall i :: 0 <= i < |results| ==> results[i].None?
  {
    if results == [] then []
    else
      var rest := Failures(results[1..]);
      assert forall i :: 1 <= i < |results| ==> results[i] == results[1..][i - 1];
      match results[0]
      case Some(m) => [m] + rest
      case None => rest
  }
}
