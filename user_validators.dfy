/**
  * The user schemas.  There are two sets: the strict ones, with length bounds
  * and a password pattern, and the lax ones the shared package exports and
  * registration validates with.
  */
module UserValidators {
  import opened Wrappers
  import opened JsValues
  import opened Text
  import opened Validation

  // ---------------------------------------------------------------------------
  // The phone pattern `^\+?[1-9]\d{1,14}$`

  /** The phone without its leading `+`, if it has one. */
  function PhoneBody(s: string): (body: string)
    ensures |s| > 0 && s[0] == '+' ==> s == "+" + body
    ensures !(|s| > 0 && s[0] == '+') ==> body == s
  {
    if |s| > 0 && s[0] == '+' then s[1..] else s
  }

  /**
    * The phone pattern: an optional `+`, a digit 1-9, then 1 to 14 digits and
    * nothing else.  Taking the `+` when there is one loses no match: without
    * it, `[1-9]` would have to match the `+`.
    */
  predicate PhonePattern(s: string) {
    var body := PhoneBody(s);
    2 <= |body| <= 15 && '1' <= body[0] <= '9' && forall i :: 1 <= i < |body| ==> IsDigit(body[i])
  }

  /** The number of decimal digits in a string. */
  function DigitCount(s: string): (n: nat)
    ensures n <= |s|
  {
    if s == [] then 0 else DigitCount(s[..|s| - 1]) + (if IsDigit(s[|s| - 1]) then 1 else 0)
  }

  lemma {:induction false} DigitCountAll(s: string)
    requires forall i :: 0 <= i < |s| ==> IsDigit(s[i])
    ensures DigitCount(s) == |s|
  {
    if s != [] {
      DigitCountAll(s[..|s| - 1]);
    }
  }

  lemma {:induction false} DigitCountPlus(s: string)
    ensures DigitCount("+" + s) == DigitCount(s)
    decreases |s|
  {
    if s != [] {
      var n := |s| - 1;
      assert ("+" + s)[..|"+" + s| - 1] == "+" + s[..n];
      DigitCountPlus(s[..n]);
    } else {
      assert "+" + s == "+";
      assert "+"[..0] == [];
    }
  }

  /**
    * A phone of the pattern has the shape of an E.164 number (clause 6.1 of
    * ITU-T E.164): 2 to 15 digits, the first not 0, and at most a leading `+`
    * besides.
    */
  lemma PhonePatternIsE164(s: string)
    requires PhonePattern(s)
    ensures 2 <= DigitCount(s) <= 15
    ensures DigitCount(s) == |PhoneBody(s)| && PhoneBody(s)[0] != '0'
    ensures forall i :: 0 <= i < |s| ==> IsDigit(s[i]) || (i == 0 && s[i] == '+')
  {
    var body := PhoneBody(s);
    DigitCountAll(body);
    if |s| > 0 && s[0] == '+' {
      DigitCountPlus(body);
      forall i | 1 <= i < |s| ensures IsDigit(s[i]) {
        assert s[i] == body[i - 1];
      }
    }
  }

  /**
    * The strict phone check as written: the pattern, and 10 to 15 characters.
    * The messages speak of digits, but `min` and `max` count the `+` too.
    */
  predicate PhoneStrictAsWritten(s: string) {
    PhonePattern(s) && 10 <= |s| <= 15
  }

  /**
    * The same bounds on the number of digits: "at least 10 digits" and "must
    * not exceed 15 digits".
    */
  predicate PhoneStrict(s: string) {
    PhonePattern(s) && 10 <= DigitCount(s) <= 15
  }

  /**
    * A `+` in front shifts the bounds by one: a full 15-digit international
    * number is refused, and a 9-digit one passes.
    */
  lemma PhoneBoundsCountPlus()
    ensures PhonePattern("+123456789012345") && DigitCount("+123456789012345") == 15
    ensures !PhoneStrictAsWritten("+123456789012345") && PhoneStrict("+123456789012345")
    ensures PhoneStrictAsWritten("+123456789") && DigitCount("+123456789") == 9 && !PhoneStrict("+123456789")
  {
    PhonePatternIsE164("+123456789012345");
    PhonePatternIsE164("+123456789");
  }

  /** The strict check on digits accepts exactly the pattern's numbers of 10 to 15 digits; without a `+` it agrees with the check as written. */
  lemma PhoneStrictMeaning(s: string)
    ensures PhoneStrict(s) <==> PhonePattern(s) && 10 <= |PhoneBody(s)|
    ensures !(|s| > 0 && s[0] == '+') ==> (PhoneStrict(s) <==> PhoneStrictAsWritten(s))
  {
    if PhonePattern(s) {
      PhonePatternIsE164(s);
    }
  }

  // ---------------------------------------------------------------------------
  // The password pattern `^(?=.*[a-z])(?=.*[A-Z])(?=.*\d)(?=.*[@$!%*?&])[A-Za-z\d@$!%*?&]`

  datatype CharClass = LowerLetter | UpperLetter | DecimalDigit | Special

  predicate IsSpecial(c: char) {
    c == '@' || c == '$' || c == '!' || c == '%' || c == '*' || c == '?' || c == '&'
  }

  predicate InClass(c: char, k: CharClass) {
    match k
    case LowerLetter => IsAsciiLower(c)
    case UpperLetter => IsAsciiUpper(c)
    case DecimalDigit => IsDigit(c)
    case Special => IsSpecial(c)
  }

  /**
    * `(?=.*[…])` at the start of the string: a character of the class occurs
    * before the first line terminator, since `.` does not match one.
    */
  predicate AheadOnFirstLine(s: string, k: CharClass) {
    exists j :: 0 <= j < |s| && InClass(s[j], k) && forall i :: 0 <= i < j ==> !IsLineTerminator(s[i])
  }

  /**
    * The password pattern.  It is anchored at the start only, so after the
    * four look-aheads it asks just the first character to be a letter, a
    * digit or one of `@$!%*?&`.
    */
  predicate PasswordPattern(s: string) {
    && AheadOnFirstLine(s, LowerLetter)
    && AheadOnFirstLine(s, UpperLetter)
    && AheadOnFirstLine(s, DecimalDigit)
    && AheadOnFirstLine(s, Special)
    && |s| > 0
    && (IsAsciiLower(s[0]) || IsAsciiUpper(s[0]) || IsDigit(s[0]) || IsSpecial(s[0]))
  }

  /** Anything may follow a password that matches: the pattern is not anchored at the end. */
  lemma PasswordPatternIgnoresSuffix(s: string, t: string)
    requires PasswordPattern(s)
    ensures PasswordPattern(s + t)
  {
    forall k: CharClass ensures AheadOnFirstLine(s + t, k) {
      var j :| 0 <= j < |s| && InClass(s[j], k) && forall i :: 0 <= i < j ==> !IsLineTerminator(s[i]);
      assert (s + t)[j] == s[j];
      assert forall i :: 0 <= i < j ==> (s + t)[i] == s[i];
    }
    assert (s + t)[0] == s[0];
  }

  /** Without a line terminator the look-aheads are plain containment. */
  lemma AheadOnSingleLine(s: string, k: CharClass)
    requires forall i :: 0 <= i < |s| ==> !IsLineTerminator(s[i])
    ensures AheadOnFirstLine(s, k) <==> exists j :: 0 <= j < |s| && InClass(s[j], k)
  {
  }

  /** The only upper-case letter of "abc1@de\nF" comes after the line break. */
  lemma UpperOnSecondLineUnseen()
    ensures !PasswordPattern("abc1@de\nF")
  {
    var s := "abc1@de\nF";
    assert !AheadOnFirstLine(s, UpperLetter) by {
      forall j | 0 <= j < |s| && InClass(s[j], UpperLetter)
        ensures exists i :: 0 <= i < j && IsLineTerminator(s[i])
      {
        assert j == 8;
        assert IsLineTerminator(s[7]);
      }
    }
  }

  /** "Fabc1@de\n" has all four kinds of character before its line break. */
  lemma AllKindsOnFirstLine()
    ensures PasswordPattern("Fabc1@de\n")
  {
    var t := "Fabc1@de\n";
    assert t[0] == 'F' && t[1] == 'a' && t[2] == 'b' && t[3] == 'c' && t[4] == '1' && t[5] == '@';
    assert forall i :: 0 <= i < 5 ==> !IsLineTerminator(t[i]);
    assert InClass(t[1], LowerLetter) && InClass(t[0], UpperLetter) && InClass(t[4], DecimalDigit) && InClass(t[5], Special);
  }

  /** A required character after a line break is not seen. */
  lemma PasswordLineBreak()
    ensures !PasswordPattern("abc1@de\nF")
    ensures PasswordPattern("Fabc1@de\n")
  {
    UpperOnSecondLineUnseen();
    AllKindsOnFirstLine();
  }

  // ---------------------------------------------------------------------------
  // The strict schemas

  /** `UserCreateSchema` of the strict set, as written: the phone bounds count characters. */
  predicate UserCreateStrictAsWritten(lib: Library, input: map<string, Value>) {
    var phone, password := Get(input, "phone"), Get(input, "password");
    && Email(lib, Get(input, "email"))
    && phone.Str? && PhoneStrictAsWritten(phone.s)
    && StringBetween(Get(input, "name"), 2, Some(100))
    && StringBetween(password, 8, None) && PasswordPattern(password.s)
  }

  /** The strict create schema with the phone bounds counting digits, as its messages say. */
  predicate UserCreateStrict(lib: Library, input: map<string, Value>) {
    var phone, password := Get(input, "phone"), Get(input, "password");
    && Email(lib, Get(input, "email"))
    && phone.Str? && PhoneStrict(phone.s)
    && StringBetween(Get(input, "name"), 2, Some(100))
    && StringBetween(password, 8, None) && PasswordPattern(password.s)
  }

  const KYC_STATUSES: set<string> := {"PENDING", "IN_PROGRESS", "VERIFIED", "REJECTED"}

  /** `UserUpdateSchema` of the strict set: every field optional. */
  predicate UserUpdateStrict(input: map<string, Value>) {
    var name, phone, kyc := Get(input, "name"), Get(input, "phone"), Get(input, "kycStatus");
    && Optional(name, StringBetween(name, 2, Some(100)))
    && Optional(phone, phone.Str? && PhonePattern(phone.s))
    && Optional(kyc, OneOfNames(kyc, KYC_STATUSES))
  }

  /** A password the pattern accepts has a lower-case letter, an upper-case letter, a digit and a special character. */
  lemma PasswordHasAllKinds(p: string)
    requires PasswordPattern(p)
    ensures exists j :: 0 <= j < |p| && IsAsciiLower(p[j])
    ensures exists j :: 0 <= j < |p| && IsAsciiUpper(p[j])
    ensures exists j :: 0 <= j < |p| && IsDigit(p[j])
    ensures exists j :: 0 <= j < |p| && IsSpecial(p[j])
  {
    var a :| 0 <= a < |p| && InClass(p[a], LowerLetter) && forall i :: 0 <= i < a ==> !IsLineTerminator(p[i]);
    var b :| 0 <= b < |p| && InClass(p[b], UpperLetter) && forall i :: 0 <= i < b ==> !IsLineTerminator(p[i]);
    var c :| 0 <= c < |p| && InClass(p[c], DecimalDigit) && forall i :: 0 <= i < c ==> !IsLineTerminator(p[i]);
    var d :| 0 <= d < |p| && InClass(p[d], Special) && forall i :: 0 <= i < d ==> !IsLineTerminator(p[i]);
  }

  /**
    * What the strict create schema as written guarantees of an accepted
    * request: a phone of the pattern with 10 to 15 characters, so 10 to 15
    * digits without a `+` and only 9 to 14 with one; a 2-100 character name;
    * a password of 8 or more characters with all four kinds of character.
    */
  lemma UserCreateStrictAccepted(lib: Library, input: map<string, Value>)
    requires UserCreateStrictAsWritten(lib, input)
    ensures var phone := Get(input, "phone");
      && phone.Str? && PhonePattern(phone.s) && 10 <= |phone.s| <= 15
      && (phone.s[0] == '+' ==> 9 <= DigitCount(phone.s) <= 14)
      && (phone.s[0] != '+' ==> 10 <= DigitCount(phone.s) <= 15)
    ensures Get(input, "name").Str? && 2 <= |Get(input, "name").s| <= 100
    ensures var p := Get(input, "password");
      && p.Str? && |p.s| >= 8
      && (exists j :: 0 <= j < |p.s| && IsAsciiLower(p.s[j]))
      && (exists j :: 0 <= j < |p.s| && IsAsciiUpper(p.s[j]))
      && (exists j :: 0 <= j < |p.s| && IsDigit(p.s[j]))
      && (exists j :: 0 <= j < |p.s| && IsSpecial(p.s[j]))
  {
    var phone := Get(input, "phone").s;
    PhonePatternIsE164(phone);
    PasswordHasAllKinds(Get(input, "password").s);
  }

  /** The corrected strict schema: the phone has 10 to 15 digits, whatever its `+`; the other fields as written. */
  lemma UserCreateStrictIntended(lib: Library, input: map<string, Value>)
    requires UserCreateStrict(lib, input)
    ensures Get(input, "phone").Str? && 10 <= DigitCount(Get(input, "phone").s) <= 15
    ensures Get(input, "name").Str? && 2 <= |Get(input, "name").s| <= 100
    ensures var p := Get(input, "password");
      && p.Str? && |p.s| >= 8
      && (exists j :: 0 <= j < |p.s| && IsAsciiLower(p.s[j]))
      && (exists j :: 0 <= j < |p.s| && IsAsciiUpper(p.s[j]))
      && (exists j :: 0 <= j < |p.s| && IsDigit(p.s[j]))
      && (exists j :: 0 <= j < |p.s| && IsSpecial(p.s[j]))
  {
    PasswordHasAllKinds(Get(input, "password").s);
  }

  /** The two strict schemas differ only on phones with a `+`. */
  lemma StrictCreateAgreesWithoutPlus(lib: Library, input: map<string, Value>)
    requires var phone := Get(input, "phone"); !(phone.Str? && |phone.s| > 0 && phone.s[0] == '+')
    ensures UserCreateStrict(lib, input) <==> UserCreateStrictAsWritten(lib, input)
  {
    var phone := Get(input, "phone");
    if phone.Str? {
      PhoneStrictMeaning(phone.s);
    }
  }

  /**
    * An accepted strict update: each field present meets its check, a phone
    * has the shape of an E.164 number, and a field left out is not checked.
    */
  lemma UserUpdateStrictMeaning(input: map<string, Value>)
    ensures UserUpdateStrict(input) <==>
      && ("name" in input && input["name"] != Undefined ==> input["name"].Str? && 2 <= |input["name"].s| <= 100)
      && ("phone" in input && input["phone"] != Undefined ==> input["phone"].Str? && PhonePattern(input["phone"].s))
      && ("kycStatus" in input && input["kycStatus"] != Undefined ==> input["kycStatus"].Str? && input["kycStatus"].s in KYC_STATUSES)
    ensures UserUpdateStrict(input) && Get(input, "phone").Str? ==> 2 <= DigitCount(Get(input, "phone").s) <= 15
  {
    if UserUpdateStrict(input) && Get(input, "phone").Str? {
      PhonePatternIsE164(Get(input, "phone").s);
    }
  }

  /** A request the strict create schema accepts, with no KYC status, is an accepted strict update. */
  lemma StrictCreateIsUpdate(lib: Library, input: map<string, Value>)
    requires UserCreateStrictAsWritten(lib, input) && "kycStatus" !in input
    ensures UserUpdateStrict(input)
  {
  }

  /** Leaving a field out of an accepted strict update keeps it accepted. */
  lemma StrictUpdateDropsField(input: map<string, Value>, key: string)
    requires UserUpdateStrict(input)
    ensures UserUpdateStrict(input - {key})
  {
    assert forall k :: Get(input - {key}, k) == Undefined || Get(input - {key}, k) == Get(input, k);
  }

  // ---------------------------------------------------------------------------
  // The lax schemas, the ones registration validates with

  /** `UserCreateSchema` as the shared package exports it. */
  predicate UserCreate(lib: Library, input: map<string, Value>) {
    var phone := Get(input, "phone");
    && Email(lib, Get(input, "email"))
    && phone.Str? && PhonePattern(phone.s)
    && StringBetween(Get(input, "name"), 2, None)
    && StringBetween(Get(input, "password"), 8, None)
  }

  const THEMES: set<string> := {"light", "dark", "auto"}

  /** The `preferences` object of an update: each field optional, the theme one of three. */
  predicate PreferencesUpdate(v: Value) {
    && v.Obj?
    && Optional(Get(v.fields, "currency"), Get(v.fields, "currency").Str?)
    && Optional(Get(v.fields, "language"), Get(v.fields, "language").Str?)
    && Optional(Get(v.fields, "theme"), OneOfNames(Get(v.fields, "theme"), THEMES))
  }

  /** `UserUpdateSchema` as the shared package exports it: every field optional. */
  predicate UserUpdate(lib: Library, input: map<string, Value>) {
    var name, email, phone, prefs := Get(input, "name"), Get(input, "email"), Get(input, "phone"), Get(input, "preferences");
    && Optional(name, StringBetween(name, 2, None))
    && Optional(email, Email(lib, email))
    && Optional(phone, phone.Str? && PhonePattern(phone.s))
    && Optional(prefs, PreferencesUpdate(prefs))
  }

  /** Everything the strict create schema accepts, the lax one accepts too. */
  lemma StrictCreateIsLax(lib: Library, input: map<string, Value>)
    requires UserCreateStrictAsWritten(lib, input)
    ensures UserCreate(lib, input)
  {
  }

  /**
    * The lax schema leaves out the bounds: a two-digit phone, a 101-character
    * name and an all-lowercase password pass it, and none passes the strict one.
    */
  lemma LaxCreateAcceptsMore(lib: Library, name: string)
    requires lib.isEmail("a@b.co") && |name| == 101
    ensures var input := map["email" := Str("a@b.co"), "phone" := Str("12"), "name" := Str(name), "password" := Str("password")];
      UserCreate(lib, input) && !UserCreateStrictAsWritten(lib, input)
    ensures PhonePattern("12") && !PhoneStrictAsWritten("12")
    ensures !PasswordPattern("password")
  {
    PhonePatternIsE164("12");
    var p := "password";
    assert !AheadOnFirstLine(p, UpperLetter) by {
      forall j | 0 <= j < |p| ensures !IsAsciiUpper(p[j]) {
      }
    }
  }

  /** An accepted preferences object: each field present is a string, and the theme is one of three. */
  lemma PreferencesUpdateMeaning(v: Value)
    requires v.Obj?
    ensures PreferencesUpdate(v) <==>
      && ("currency" in v.fields && v.fields["currency"] != Undefined ==> v.fields["currency"].Str?)
      && ("language" in v.fields && v.fields["language"] != Undefined ==> v.fields["language"].Str?)
      && ("theme" in v.fields && v.fields["theme"] != Undefined ==> v.fields["theme"].Str? && v.fields["theme"].s in THEMES)
  {
  }

  /**
    * An accepted lax update: each field present meets its check, a phone has
    * the shape of an E.164 number, and the preferences, when given, are an
    * object with a known theme if any.
    */
  lemma UserUpdateMeaning(lib: Library, input: map<string, Value>)
    ensures UserUpdate(lib, input) <==>
      && ("name" in input && input["name"] != Undefined ==> input["name"].Str? && 2 <= |input["name"].s|)
      && ("email" in input && input["email"] != Undefined ==> input["email"].Str? && lib.isEmail(input["email"].s))
      && ("phone" in input && input["phone"] != Undefined ==> input["phone"].Str? && PhonePattern(input["phone"].s))
      && ("preferences" in input && input["preferences"] != Undefined ==> PreferencesUpdate(input["preferences"]))
    ensures UserUpdate(lib, input) && Get(input, "phone").Str? ==> 2 <= DigitCount(Get(input, "phone").s) <= 15
  {
    if UserUpdate(lib, input) && Get(input, "phone").Str? {
      PhonePatternIsE164(Get(input, "phone").s);
    }
  }

  /** A request the lax create schema accepts, with no preferences, is an accepted lax update. */
  lemma CreateIsUpdate(lib: Library, input: map<string, Value>)
    requires UserCreate(lib, input) && "preferences" !in input
    ensures UserUpdate(lib, input)
  {
  }

  /** Leaving a field out of an accepted lax update keeps it accepted. */
  lemma UpdateDropsField(lib: Library, input: map<string, Value>, key: string)
    requires UserUpdate(lib, input)
    ensures UserUpdate(lib, input - {key})
  {
    assert forall k :: Get(input - {key}, k) == Undefined || Get(input - {key}, k) == Get(input, k);
  }

  /** An empty update passes both update schemas; an unknown theme does not. */
  lemma UpdatesAreOptional(lib: Library)
    ensures UserUpdateStrict(map[]) && UserUpdate(lib, map[])
    ensures !UserUpdate(lib, map["preferences" := Obj(map["theme" := Str("blue")])])
    ensures !UserUpdateStrict(map["kycStatus" := Str("DONE")])
  {
  }
}
