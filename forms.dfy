/**
 * The field validator of the page scripts (class `FormHandler`): rules keyed
 * on the field's type, applied to its trimmed value, and a form check that
 * visits every required field.
 */
module Forms {
  import opened Optional
  import opened JsString

  /** What the validator reads of a form control: its `type`, its `value` and its `required` attribute. */
  datatype Field = Field(kind: string, value: string, required: bool)

  const RequiredMessage := "This field is required"
  const EmailMessage := "Please enter a valid email address"
  const PhoneMessage := "Please enter a valid phone number"
  const PasswordMessage := "Password must be at least 8 characters long"
  const MinPasswordLength := 8

  /** A character of `[^\s@]`: neither white space nor `@`. */
  predicate IsAddressChar(c: char) {
    !IsSpace(c) && c != '@'
  }

  predicate AllAddressChars(s: string) {
    forall i :: 0 <= i < |s| ==> IsAddressChar(s[i])
  }

  /**
   * What `/^[^\s@]+@[^\s@]+\.[^\s@]+$/` matches: a run of address characters,
   * `@`, a run, `.`, and a run, each run non-empty and spanning the whole string.
   */
  ghost predicate EmailShape(s: string) {
    exists at: nat, dot: nat ::
      0 < at && at + 1 < dot && dot + 1 < |s| && s[at] == '@' && s[dot] == '.'
      && AllAddressChars(s[..at]) && AllAddressChars(s[at + 1..dot]) && AllAddressChars(s[dot + 1..])
  }

  /**
   * `isValidEmail` as a direct check: the first `@` is not at the start, no
   * white space or second `@` occurs, and a `.` sits strictly inside what follows the `@`.
   */
  function IsValidEmail(s: string): bool {
    match IndexOf(s, "@")
    case None => false
    case Some(at) =>
      var domain := s[at + 1..];
      0 < at && AllAddressChars(s[..at]) && AllAddressChars(domain)
      && |domain| >= 3 && '.' in domain[1..|domain| - 1]
  }

  /** Every string the direct check accepts matches the regular expression. */
  lemma AcceptedEmailMatchesPattern(s: string)
    requires IsValidEmail(s)
    ensures EmailShape(s)
  {
    var at := IndexOf(s, "@").value;
    var domain := s[at + 1..];
    assert s[at] == s[at..at + 1][0];
    var inner := domain[1..|domain| - 1];
    var j :| 0 <= j < |inner| && inner[j] == '.';
    var dot := at + 2 + j;
    assert s[dot] == inner[j];
    assert s[at + 1..dot] == domain[..j + 1];
    assert s[dot + 1..] == domain[j + 2..];
    var host, tld := s[at + 1..dot], s[dot + 1..];
    assert AllAddressChars(host) by {
      forall i | 0 <= i < |host| ensures IsAddressChar(host[i]) {
        assert host[i] == domain[i];
      }
    }
    assert AllAddressChars(tld) by {
      forall i | 0 <= i < |tld| ensures IsAddressChar(tld[i]) {
        assert tld[i] == domain[j + 2 + i];
      }
    }
  }

  /** Every string matching the regular expression passes the direct check. */
  lemma PatternEmailAccepted(s: string, at: nat, dot: nat)
    requires 0 < at && at + 1 < dot && dot + 1 < |s| && s[at] == '@' && s[dot] == '.'
    requires AllAddressChars(s[..at]) && AllAddressChars(s[at + 1..dot]) && AllAddressChars(s[dot + 1..])
    ensures IsValidEmail(s)
  {
    forall j | 0 <= j < at ensures !StartsWith(s[j..], "@") {
      assert s[j..][0] == s[..at][j];
    }
    assert s[at..at + 1] == "@";
    IndexOfFirst(s, "@", at);
    var domain := s[at + 1..];
    assert domain == s[at + 1..dot] + ['.'] + s[dot + 1..];
    assert domain[1..|domain| - 1][dot - at - 2] == '.';
  }

  /** The direct check accepts exactly what the regular expression matches. */
  lemma EmailCheckMatchesPattern(s: string)
    ensures IsValidEmail(s) <==> EmailShape(s)
  {
    if IsValidEmail(s) {
      AcceptedEmailMatchesPattern(s);
    }
    if EmailShape(s) {
      var at: nat, dot: nat :|
        0 < at && at + 1 < dot && dot + 1 < |s| && s[at] == '@' && s[dot] == '.'
        && AllAddressChars(s[..at]) && AllAddressChars(s[at + 1..dot]) && AllAddressChars(s[dot + 1..]);
      PatternEmailAccepted(s, at, dot);
    }
  }

  /** The digits a phone number may have: `[1-9]` then up to fifteen of `\d`. */
  predicate PhoneDigits(d: string) {
    1 <= |d| <= 16 && '1' <= d[0] <= '9' && forall i :: 0 <= i < |d| ==> IsDigit(d[i])
  }

  /** What `/^[\+]?[1-9][\d]{0,15}$/` matches: an optional `+`, then the digits. */
  predicate PhoneShape(t: string) {
    if t != [] && t[0] == '+' then PhoneDigits(t[1..]) else PhoneDigits(t)
  }

  /** `isValidPhone`: the pattern is tested once every white-space character is removed. */
  predicate IsValidPhone(s: string) {
    PhoneShape(RemoveSpaces(s))
  }

  /** White space anywhere in a phone number leaves the verdict unchanged. */
  lemma PhoneIgnoresSpace(a: string, b: string, c: char)
    requires IsSpace(c)
    ensures IsValidPhone(a + [c] + b) == IsValidPhone(a + b)
  {
    assert [c][1..] == [];
    assert RemoveSpaces([c]) == [];
    RemoveSpacesConcat(a + [c], b);
    RemoveSpacesConcat(a, [c]);
    RemoveSpacesConcat(a, b);
    assert RemoveSpaces(a + [c] + b) == RemoveSpaces(a + b);
  }

  /** A valid phone number has one to sixteen digits and at most a leading `+` besides. */
  lemma PhoneLength(s: string)
    requires IsValidPhone(s)
    ensures 1 <= |RemoveSpaces(s)| <= 17
    ensures forall i :: 0 < i < |RemoveSpaces(s)| ==> IsDigit(RemoveSpaces(s)[i])
  {
    var t := RemoveSpaces(s);
    if t[0] == '+' {
      forall i | 0 < i < |t| ensures IsDigit(t[i]) {
        assert t[i] == t[1..][i - 1];
      }
    }
  }

  /** The message `validateField` leaves for a field, if any. */
  function Complaint(f: Field): Option<string> {
    var value := Trim(f.value);
    if value == [] then
      if f.required then Some(RequiredMessage) else None
    else if f.kind == "email" then
      if IsValidEmail(value) then None else Some(EmailMessage)
    else if f.kind == "tel" then
      if IsValidPhone(value) then None else Some(PhoneMessage)
    else if f.kind == "password" then
      if |value| < MinPasswordLength then Some(PasswordMessage) else None
    else None
  }

  /**
   * The complaint a field gets, read as a decision list: an empty value only
   * fails the required rule, a non-empty one only the rule of its type.
   */
  lemma ComplaintRules(f: Field)
    ensures Trim(f.value) == [] ==>
              (Complaint(f).Some? <==> f.required) && (Complaint(f).Some? ==> Complaint(f).value == RequiredMessage)
    ensures Trim(f.value) != [] && f.kind == "password" ==>
              (Complaint(f).Some? <==> |Trim(f.value)| < MinPasswordLength)
    ensures Trim(f.value) != [] && f.kind == "email" ==> (Complaint(f).Some? <==> !IsValidEmail(Trim(f.value)))
    ensures Trim(f.value) != [] && f.kind == "tel" ==> (Complaint(f).Some? <==> !IsValidPhone(Trim(f.value)))
    ensures Complaint(f).Some? ==> Complaint(f).value in {RequiredMessage, EmailMessage, PhoneMessage, PasswordMessage}
    ensures Trim(f.value) != [] && f.kind !in {"email", "tel", "password"} ==> Complaint(f).None?
  {
  }

  /** The guard of each of the four rules of `validateField`, on the trimmed value. */
  predicate RequiredRule(f: Field) {
    f.required && Trim(f.value) == []
  }

  predicate EmailRule(f: Field) {
    f.kind == "email" && Trim(f.value) != [] && !IsValidEmail(Trim(f.value))
  }

  predicate PhoneRule(f: Field) {
    f.kind == "tel" && Trim(f.value) != [] && !IsValidPhone(Trim(f.value))
  }

  predicate PasswordRule(f: Field) {
    f.kind == "password" && Trim(f.value) != [] && |Trim(f.value)| < MinPasswordLength
  }

  /** The four rule guards exclude one another: at most one rule of `validateField` fires for a field. */
  lemma RulesExclusive(f: Field)
    ensures !(RequiredRule(f) && (EmailRule(f) || PhoneRule(f) || PasswordRule(f)))
    ensures !(EmailRule(f) && (PhoneRule(f) || PasswordRule(f)))
    ensures !(PhoneRule(f) && PasswordRule(f))
  {
  }

  /**
   * Since at most one rule fires, the order in which `validateField`
   * overwrites its verdict does not matter: the message left is the one of
   * the rule that fired, and there is none exactly when no rule fires.
   */
  lemma OneRuleFires(f: Field)
    ensures Complaint(f) == Some(RequiredMessage) <==> RequiredRule(f)
    ensures Complaint(f) == Some(EmailMessage) <==> EmailRule(f)
    ensures Complaint(f) == Some(PhoneMessage) <==> PhoneRule(f)
    ensures Complaint(f) == Some(PasswordMessage) <==> PasswordRule(f)
    ensures Complaint(f).None? <==> !(RequiredRule(f) || EmailRule(f) || PhoneRule(f) || PasswordRule(f))
  {
    assert |RequiredMessage| == 22 && |EmailMessage| == 34 && |PhoneMessage| == 33 && |PasswordMessage| == 43;
    var value := Trim(f.value);
    if value == [] {
      assert Complaint(f) == if f.required then Some(RequiredMessage) else None;
      assert !EmailRule(f) && !PhoneRule(f) && !PasswordRule(f);
    } else if f.kind == "email" {
      assert Complaint(f) == if IsValidEmail(value) then None else Some(EmailMessage);
      assert !RequiredRule(f) && !PhoneRule(f) && !PasswordRule(f);
    } else if f.kind == "tel" {
      assert Complaint(f) == if IsValidPhone(value) then None else Some(PhoneMessage);
      assert !RequiredRule(f) && !EmailRule(f) && !PasswordRule(f);
    } else if f.kind == "password" {
      assert Complaint(f) == if |value| < MinPasswordLength then Some(PasswordMessage) else None;
      assert !RequiredRule(f) && !EmailRule(f) && !PhoneRule(f);
    } else {
      assert Complaint(f).None?;
      assert !RequiredRule(f) && !EmailRule(f) && !PhoneRule(f) && !PasswordRule(f);
    }
  }

  /**
   * `validateField`: four rules checked one after the other, each overwriting
   * the verdict; the last message set is the one shown. The result is the
   * decision list above, and the field is valid exactly when no message is shown.
   */
  method ValidateField(field: Field) returns (valid: bool, message: string)
    ensures valid <==> message == ""
    ensures valid <==> Complaint(field).None?
    ensures Complaint(field).Some? ==> message == Complaint(field).value
  {
    var value := Trim(field.value);
    valid := true;
    message := "";

    if field.required && value == [] {
      valid := false;
      message := RequiredMessage;
    }
    if field.kind == "email" && value != [] && !IsValidEmail(value) {
      valid := false;
      message := EmailMessage;
    }
    if field.kind == "tel" && value != [] && !IsValidPhone(value) {
      valid := false;
      message := PhoneMessage;
    }
    if field.kind == "password" && value != [] && |value| < MinPasswordLength {
      valid := false;
      message := PasswordMessage;
    }
  }

  /** What the form check shows next to a field: the field's message if it is required, nothing otherwise. */
  function Shown(f: Field): Option<string> {
    if f.required then Some(Complaint(f).GetOr("")) else None
  }

  /** What the form check shows next to each field, in order. */
  function ShownAll(fields: seq<Field>): (r: seq<Option<string>>)
    ensures |r| == |fields|
  {
    if |fields| == 0 then [] else ShownAll(fields[..|fields| - 1]) + [Shown(fields[|fields| - 1])]
  }

  /** Whether a field passes the form check: it is optional, or it gets no message. */
  predicate Passes(f: Field) {
    f.required ==> Complaint(f).None?
  }

  /** Whether every required field passes its check. */
  predicate AllRequiredPass(fields: seq<Field>) {
    |fields| == 0 || (AllRequiredPass(fields[..|fields| - 1]) && Passes(fields[|fields| - 1]))
  }

  /** Field by field, the form check shows the field's own message. */
  lemma {:induction false} ShownAllAt(fields: seq<Field>)
    ensures forall i :: 0 <= i < |fields| ==> ShownAll(fields)[i] == Shown(fields[i])
  {
    if |fields| > 0 {
      var init := fields[..|fields| - 1];
      ShownAllAt(init);
      forall i | 0 <= i < |init| ensures ShownAll(fields)[i] == Shown(fields[i]) {
        assert ShownAll(fields)[i] == ShownAll(init)[i];
        assert init[i] == fields[i];
      }
    }
  }

  /** The form passes exactly when each of its required fields passes. */
  lemma {:induction false} AllRequiredPassAt(fields: seq<Field>)
    ensures AllRequiredPass(fields) <==> forall i :: 0 <= i < |fields| ==> Passes(fields[i])
  {
    if |fields| > 0 {
      var init := fields[..|fields| - 1];
      AllRequiredPassAt(init);
      if forall i :: 0 <= i < |fields| ==> Passes(fields[i]) {
        forall i | 0 <= i < |init| ensures Passes(init[i]) {
          assert init[i] == fields[i];
        }
      }
      if AllRequiredPass(fields) {
        var last := |fields| - 1;
        assert Passes(fields[last]);
        forall i | 0 <= i < |fields| ensures Passes(fields[i]) {
          if i < last {
            assert init[i] == fields[i];
          } else {
            assert i == last;
          }
        }
      }
    }
  }

  /**
   * `validateForm`: every field with the `required` attribute is validated,
   * without stopping at the first failure, so each gets its message shown
   * (`None` marks a field the check does not visit); the form is valid
   * exactly when all of them are.
   */
  method ValidateForm(fields: seq<Field>) returns (valid: bool, shown: seq<Option<string>>)
    ensures |shown| == |fields|
    ensures forall i :: 0 <= i < |fields| ==> shown[i] == Shown(fields[i])
    ensures valid <==> forall i :: 0 <= i < |fields| && fields[i].required ==> Complaint(fields[i]).None?
  {
    valid := true;
    shown := [];
    for i := 0 to |fields|
      invariant shown == ShownAll(fields[..i])
      invariant valid == AllRequiredPass(fields[..i])
    {
      var field := fields[i];
      assert fields[..i + 1][..i] == fields[..i];
      var entry: Option<string> := None;
      if field.required {
        var ok, message := ValidateField(field);
        if !ok {
          valid := false;
        }
        entry := Some(message);
      }
      shown := shown + [entry];
    }
    assert fields[..|fields|] == fields;
    ShownAllAt(fields);
    AllRequiredPassAt(fields);
  }
}
