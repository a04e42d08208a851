/**
 * The start screen's form: a name and an e-mail address, checked when the
 * form is submitted. A failed check shows one message per field; typing
 * into a field clears that field's message and leaves the other one.
 */
module StartForm {
  import opened Wrappers
  import opened JsString

  /** What the start screen hands on to the quiz. */
  datatype UserData = UserData(name: string, email: string)

  /** The message under each field, if any. */
  datatype FieldErrors = FieldErrors(name: Option<string>, email: Option<string>)

  const NO_ERRORS := FieldErrors(None, None)
  const NAME_REQUIRED := "お名前を入力してください"
  const EMAIL_REQUIRED := "メールアドレスを入力してください"
  const EMAIL_INVALID := "正しいメールアドレスを入力してください"

  // ---------------------------------------------------------------------
  // The address check
  // ---------------------------------------------------------------------

  /** A character of the class `[^\s@]`. */
  predicate Plain(c: char)
  {
    !IsWhitespace(c) && c != '@'
  }

  predicate AllPlain(s: string)
  {
    forall i | 0 <= i < |s| :: Plain(s[i])
  }

  /** The part after the `@`: plain characters with a dot strictly inside. */
  predicate IsDomain(d: string)
  {
    AllPlain(d) && exists k | 1 <= k < |d| - 1 :: d[k] == '.'
  }

  /**
   * The address check, decided on the first `@`: something plain before
   * it, and a domain after it.
   */
  predicate ValidateEmail(s: string)
  {
    match IndexOf(s, '@')
    case None => false
    case Some(at) => 0 < at && AllPlain(s[..at]) && IsDomain(s[at + 1..])
  }

  /**
   * `s` is `local@host.tld` with three non-empty runs of characters that
   * are neither whitespace nor `@`: the strings the pattern
   * `^[^\s@]+@[^\s@]+\.[^\s@]+$` accepts.
   */
  ghost predicate IsEmailSplit(s: string, local: string, host: string, tld: string)
  {
    |local| > 0 && |host| > 0 && |tld| > 0
    && AllPlain(local) && AllPlain(host) && AllPlain(tld)
    && s == local + "@" + host + "." + tld
  }

  lemma SplitEmailIsValid(s: string, local: string, host: string, tld: string)
    requires IsEmailSplit(s, local, host, tld)
    ensures ValidateEmail(s)
  {
    var at := |local|;
    assert s[at] == '@';
    assert s[..at] == local;
    IndexOfFindsFirst(s, '@', at);
    var d := s[at + 1..];
    assert d == host + "." + tld;
    assert d[|host|] == '.';
    assert forall i | 0 <= i < |d| :: Plain(d[i]) by {
      forall i | 0 <= i < |d|
        ensures Plain(d[i])
      {
        if i < |host| {
          assert d[i] == host[i];
        } else if i > |host| {
          assert d[i] == tld[i - |host| - 1];
        }
      }
    }
  }

  lemma ValidEmailSplits(s: string)
    requires ValidateEmail(s)
    ensures exists local, host, tld :: IsEmailSplit(s, local, host, tld)
  {
    var at := IndexOf(s, '@').value;
    var d := s[at + 1..];
    var k :| 1 <= k < |d| - 1 && d[k] == '.';
    var local, host, tld := s[..at], d[..k], d[k + 1..];
    assert s == local + "@" + host + "." + tld by {
      assert s == s[..at] + [s[at]] + d;
      assert d == d[..k] + [d[k]] + d[k + 1..];
    }
    assert forall i | 0 <= i < |host| :: host[i] == d[i];
    assert forall i | 0 <= i < |tld| :: tld[i] == d[k + 1 + i];
    assert IsEmailSplit(s, local, host, tld);
  }

  /** The address check accepts exactly the strings of the pattern. */
  lemma ValidateEmailIsThePattern(s: string)
    ensures ValidateEmail(s) <==> exists local, host, tld :: IsEmailSplit(s, local, host, tld)
  {
    if ValidateEmail(s) {
      ValidEmailSplits(s);
    } else if exists local, host, tld :: IsEmailSplit(s, local, host, tld) {
      var local, host, tld :| IsEmailSplit(s, local, host, tld);
      SplitEmailIsValid(s, local, host, tld);
    }
  }

  /** An accepted address holds no whitespace and exactly one `@`. */
  lemma ValidEmailHasOneAtAndNoSpace(s: string)
    requires ValidateEmail(s)
    ensures forall i | 0 <= i < |s| :: !IsWhitespace(s[i])
    ensures forall i, j | 0 <= i < |s| && 0 <= j < |s| && s[i] == '@' && s[j] == '@' :: i == j
  {
    var at := IndexOf(s, '@').value;
    forall i | 0 <= i < |s|
      ensures !IsWhitespace(s[i]) && (s[i] == '@' ==> i == at)
    {
      if i < at {
        assert s[i] == s[..at][i];
      } else if i > at {
        assert s[i] == s[at + 1..][i - at - 1];
      }
    }
  }

  /**
   * `validateEmail` on its own refuses any string with whitespace at either
   * end. The page's e-mail field strips ASCII whitespace before the check
   * sees the value, so there this concerns only the other whitespace
   * characters, such as U+3000, U+00A0 or a vertical tab.
   */
  lemma PaddedEmailIsRejected(s: string)
    requires s != [] && (IsWhitespace(s[0]) || IsWhitespace(s[|s| - 1]))
    ensures !ValidateEmail(s)
  {
    match IndexOf(s, '@')
    case None =>
    case Some(at) =>
      if 0 < at && IsWhitespace(s[0]) {
        assert !Plain(s[..at][0]);
      } else if at < |s| - 1 {
        var d := s[at + 1..];
        assert IsWhitespace(s[0]) ==> at == 0;
        assert !Plain(d[|d| - 1]);
      }
  }

  lemma ValidEmailIsNotBlank(s: string)
    ensures ValidateEmail(s) ==> !Blank(s)
  {
    if ValidateEmail(s) {
      var at := IndexOf(s, '@').value;
      assert !IsWhitespace(s[at]);
    }
  }

  // ---------------------------------------------------------------------
  // Submitting and editing
  // ---------------------------------------------------------------------

  /**
   * The messages a submission produces: the name is required (blank means
   * whitespace only); the address is required, and when given must pass
   * the address check. No message at all exactly when the form is good.
   */
  function CheckFields(name: string, email: string): (e: FieldErrors)
    ensures e.name.Some? <==> Blank(name)
    ensures e.name.Some? ==> e.name.value == NAME_REQUIRED
    ensures e.email == Some(EMAIL_REQUIRED) <==> Blank(email)
    ensures e.email == Some(EMAIL_INVALID) <==> !Blank(email) && !ValidateEmail(email)
    ensures e.email.None? <==> ValidateEmail(email)
    ensures e == NO_ERRORS <==> !Blank(name) && ValidateEmail(email)
  {
    TrimIsEmptyExactlyOnBlank(name);
    TrimIsEmptyExactlyOnBlank(email);
    ValidEmailIsNotBlank(email);
    FieldErrors(
      if Trim(name) == [] then Some(NAME_REQUIRED) else None,
      if Trim(email) == [] then Some(EMAIL_REQUIRED)
      else if !ValidateEmail(email) then Some(EMAIL_INVALID)
      else None)
  }

  class StartForm {
    var name: string
    var email: string
    var errors: FieldErrors

    constructor()
      ensures name == "" && email == "" && errors == NO_ERRORS
    {
      name := "";
      email := "";
      errors := NO_ERRORS;
    }

    /**
     * Submitting: with any message, all messages are replaced by the new
     * ones and nothing starts; otherwise the quiz starts with the name and
     * address exactly as typed.
     */
    method Submit() returns (started: Option<UserData>)
      modifies this
      ensures name == old(name) && email == old(email)
      ensures started.Some? <==> !Blank(name) && ValidateEmail(email)
      ensures started.Some? ==> started.value == UserData(name, email) && errors == old(errors)
      ensures started.None? ==> errors == CheckFields(name, email)
    {
      var newErrors := CheckFields(name, email);
      if newErrors != NO_ERRORS {
        errors := newErrors;
        return None;
      }
      started := Some(UserData(name, email));
    }

    /** Typing a name clears the name's message and no other. */
    method EditName(value: string)
      modifies this
      ensures name == value && email == old(email)
      ensures errors == old(errors).(name := None)
    {
      name := value;
      if errors.name.Some? {
        errors := errors.(name := None);
      }
    }

    /** Typing an address clears the address's message and no other. */
    method EditEmail(value: string)
      modifies this
      ensures email == value && name == old(name)
      ensures errors == old(errors).(email := None)
    {
      email := value;
      if errors.email.Some? {
        errors := errors.(email := None);
      }
    }
  }
}
