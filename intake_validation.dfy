/** The intake form's record, its initial value and its client-side validator
    (helpers/emergencyLeakServiceForm.ts). */
module IntakeValidation {
  import opened JsText

  /** One leaking property, with the field names the form logic uses. */
  datatype LeakingProperty = LeakingProperty(
    propertyNameId: string,
    streetAddress: string,
    city: string,
    state: string,
    zipCode: string,
    propertyType: string,
    serviceDescription: string)

  /** The whole intake form. */
  datatype IntakeFormData = IntakeFormData(
    leakingProperties: seq<LeakingProperty>,
    contactName: string,
    companyName: string,
    phoneNumber: string,
    email: string,
    preferredContactMethod: string,
    billingContactName: string,
    billingPhone: string,
    billingEmail: string,
    billingAddress: string,
    additionalNotes: string)

  /** The keys of the form and of a leaking property: the names a
      validation-error object may use. */
  datatype FieldName =
    | LeakingProperties | ContactName | CompanyName | PhoneNumber | Email
    | PreferredContactMethod | BillingContactName | BillingPhone | BillingEmail
    | BillingAddress | AdditionalNotes
    | PropertyNameId | StreetAddress | City | State | ZipCode | PropertyType
    | ServiceDescription

  /** Validation errors: field name to message, as the source's plain object. */
  type ValidationErrors = map<FieldName, string>

  const EMPTY_PROPERTY := LeakingProperty("", "", "", "", "", "", "")

  const INITIAL_FORM_DATA := IntakeFormData(
    [EMPTY_PROPERTY], "", "", "", "", "Phone", "", "", "", "", "")

  // ---------------------------------------------------------------------
  // The two regular-expression predicates

  /** The character class `[^\s@]`. */
  predicate InAddressClass(c: char) {
    !IsWhitespace(c) && c != '@'
  }

  predicate AllInAddressClass(s: string) {
    forall i :: 0 <= i < |s| ==> InAddressClass(s[i])
  }

  /** What `/^[^\s@]+@[^\s@]+\.[^\s@]+$/` matches: `t` splits as
      local + "@" + domain + "." + rest, each part a non-empty run of
      `[^\s@]`. This is the reference meaning of the pattern; `IsEmail`
      below is the direct character-class test. */
  ghost predicate MatchesEmailPattern(t: string) {
    exists at, dot ::
      && 0 < at && at + 1 < dot && dot + 1 < |t|
      && t[at] == '@' && t[dot] == '.'
      && AllInAddressClass(t[..at])
      && AllInAddressClass(t[at + 1..dot])
      && AllInAddressClass(t[dot + 1..])
  }

  /** Index of the first `c` in `s`, or `|s|` when there is none. */
  function IndexOf(s: string, c: char): (k: nat)
    ensures k <= |s|
    ensures k < |s| ==> s[k] == c
    ensures forall i :: 0 <= i < k ==> s[i] != c
  {
    if |s| == 0 then 0
    else if s[0] == c then 0
    else 1 + IndexOf(s[1..], c)
  }

  /** `s` holds a `.` that is neither its first nor its last character. */
  predicate HasInnerDot(s: string) {
    |s| >= 3 && '.' in s[1..|s| - 1]
  }

  /** `isEmail`: the trimmed value has a non-empty prefix free of whitespace
      and `@`, then exactly one `@`, then a whitespace-free and `@`-free
      remainder holding a `.` that is neither its first nor its last
      character. */
  function IsEmail(value: string): (r: bool)
    ensures r ==> '@' in Trim(value) && |Trim(value)| >= 5
  {
    HasEmailShape(Trim(value))
  }

  /** The three-part test on an already trimmed string. */
  predicate HasEmailShape(t: string) {
    var at := IndexOf(t, '@');
    && 0 < at < |t|
    && AllInAddressClass(t[..at])
    && AllInAddressClass(t[at + 1..])
    && HasInnerDot(t[at + 1..])
  }

  /** The class `[0-9+()\-\s]`. */
  predicate IsPhoneChar(c: char) {
    ('0' <= c <= '9') || c == '+' || c == '(' || c == ')' || c == '-' || IsWhitespace(c)
  }

  /** `isPhone`: `/^[0-9+()\-\s]{10,}$/` on the trimmed value. */
  function IsPhone(value: string): (r: bool)
    ensures r ==> |value| >= 10 && !IsBlank(value)
  {
    var t := Trim(value);
    BlankIffTrimEmpty(value);
    |t| >= 10 && forall i :: 0 <= i < |t| ==> IsPhoneChar(t[i])
  }

  /** `isEmail` is exactly the regular expression on the trimmed value. */
  lemma IsEmailMatchesPattern(value: string)
    ensures IsEmail(value) <==> MatchesEmailPattern(Trim(value))
  {
    EmailShapeMatchesPattern(Trim(value));
  }

  lemma EmailShapeMatchesPattern(t: string)
    ensures HasEmailShape(t) <==> MatchesEmailPattern(t)
  {
    if HasEmailShape(t) {
      EmailShapeGivesMatch(t);
    }
    if MatchesEmailPattern(t) {
      var at, dot :| && 0 < at && at + 1 < dot && dot + 1 < |t|
                     && t[at] == '@' && t[dot] == '.'
                     && AllInAddressClass(t[..at])
                     && AllInAddressClass(t[at + 1..dot])
                     && AllInAddressClass(t[dot + 1..]);
      MatchGivesEmailShape(t, at, dot);
    }
  }

  lemma EmailShapeGivesMatch(t: string)
    requires HasEmailShape(t)
    ensures MatchesEmailPattern(t)
  {
    var at := IndexOf(t, '@');
    var d := t[at + 1..];
    var j :| 0 <= j < |d[1..|d| - 1]| && d[1..|d| - 1][j] == '.';
    var dot := at + 2 + j;
    assert t[dot] == '.';
    assert t[at + 1..dot] == d[..j + 1];
    assert t[dot + 1..] == d[j + 2..];
    SliceInAddressClass(d, 0, j + 1);
    SliceInAddressClass(d, j + 2, |d|);
  }

  lemma SliceInAddressClass(s: string, lo: nat, hi: nat)
    requires lo <= hi <= |s| && AllInAddressClass(s)
    ensures AllInAddressClass(s[lo..hi])
  {
    forall i | 0 <= i < hi - lo ensures InAddressClass(s[lo..hi][i]) {
      assert s[lo..hi][i] == s[lo + i];
    }
  }

  lemma MatchGivesEmailShape(t: string, at: nat, dot: nat)
    requires && 0 < at && at + 1 < dot && dot + 1 < |t|
             && t[at] == '@' && t[dot] == '.'
             && AllInAddressClass(t[..at])
             && AllInAddressClass(t[at + 1..dot])
             && AllInAddressClass(t[dot + 1..])
    ensures HasEmailShape(t)
  {
    forall i | 0 <= i < at ensures t[i] != '@' {
      assert t[..at][i] == t[i];
    }
    assert IndexOf(t, '@') == at;
    var d := t[at + 1..];
    assert d == t[at + 1..dot] + ['.'] + t[dot + 1..];
    forall i | 0 <= i < |d| ensures InAddressClass(d[i]) {
      if at + 1 + i < dot {
        assert d[i] == t[at + 1..dot][i];
      } else if at + 1 + i > dot {
        assert d[i] == t[dot + 1..][at + i - dot];
      }
    }
    var j := dot - at - 2;
    assert d[1..|d| - 1][j] == '.';
  }

  /** A string that passes `isEmail` never passes `isPhone`: the `@` it must
      contain is not a phone character. */
  lemma EmailIsNeverPhone(value: string)
    requires IsEmail(value)
    ensures !IsPhone(value)
  {
  }

  /** Every whitespace character is in the phone class, so trimming only
      matters for the length: `isPhone` holds exactly when the trimmed value
      has at least ten characters and every character of the untrimmed value
      is a digit, `+`, `(`, `)`, `-` or whitespace. */
  lemma {:induction false} PhoneCharsSurviveTrim(value: string)
    ensures IsPhone(value) <==>
      |Trim(value)| >= 10 && forall i :: 0 <= i < |value| ==> IsPhoneChar(value[i])
  {
    TrimStartSpec(value);
    var a := TrimStart(value);
    TrimEndSpec(a);
    var t := TrimEnd(a);
    var k := |value| - |a|;
    assert forall j :: 0 <= j < |t| ==> t[j] == value[k + j];
    if IsPhone(value) {
      forall i | 0 <= i < |value| ensures IsPhoneChar(value[i]) {
        if i < k {
          assert value[i] == value[..k][i];
        } else if i - k >= |t| {
          assert value[i] == a[|t|..][i - k - |t|];
        } else {
          assert value[i] == t[i - k];
        }
      }
    }
  }

  /** Both predicates ignore surrounding whitespace. */
  lemma PredicatesIgnoreSurroundingWhitespace(value: string)
    ensures IsEmail(Trim(value)) == IsEmail(value)
    ensures IsPhone(Trim(value)) == IsPhone(value)
  {
    TrimIdempotent(value);
  }

  // ---------------------------------------------------------------------
  // validateEmergencyLeakServiceForm

  /** The fifteen fields the validator checks; the other three keys
      (leakingProperties, preferredContactMethod, additionalNotes) are never
      checked. */
  predicate IsCheckedField(f: FieldName) {
    !(f.LeakingProperties? || f.PreferredContactMethod? || f.AdditionalNotes?)
  }


  /** The fixed message for each checked field: "... is required." for a
      required field, "Enter a valid ..." for a phone or e-mail field, and
      none for the three unchecked keys. */
  function ErrorMessage(f: FieldName): (r: string)
    ensures IsCheckedField(f) ==> |r| > 0
    ensures !IsCheckedField(f) ==> r == []
  {
    match f
    case PropertyNameId => "Property Name/ID is required."
    case StreetAddress => "Street Address is required."
    case City => "City is required."
    case State => "State is required."
    case ZipCode => "Zip Code is required."
    case PropertyType => "Property Type is required."
    case ServiceDescription => "Description of Services is required."
    case ContactName => "Your Name is required."
    case CompanyName => "Company Name is required."
    case PhoneNumber => "Enter a valid phone number."
    case Email => "Enter a valid email address."
    case BillingContactName => "Billing Contact Name is required."
    case BillingPhone => "Enter a valid billing phone number."
    case BillingEmail => "Enter a valid billing email address."
    case BillingAddress => "Billing Address is required."
    case LeakingProperties | PreferredContactMethod | AdditionalNotes => ""
  }

  /** The three kinds of check the validator makes. */
  datatype CheckKind = Required | Phone | EmailAddress | Unchecked

  function KindOf(f: FieldName): CheckKind {
    match f
    case PhoneNumber | BillingPhone => Phone
    case Email | BillingEmail => EmailAddress
    case LeakingProperties | PreferredContactMethod | AdditionalNotes => Unchecked
    case _ => Required
  }

  /** The seven keys of a leaking property. */
  predicate IsPropertyKey(f: FieldName) {
    f.PropertyNameId? || f.StreetAddress? || f.City? || f.State? || f.ZipCode?
    || f.PropertyType? || f.ServiceDescription?
  }

  /** The ten string-valued keys of the form. */
  predicate IsTextField(f: FieldName) {
    !IsPropertyKey(f) && !f.LeakingProperties?
  }

  /** The value of a string-valued key of the form. */
  function FormText(data: IntakeFormData, f: FieldName): string
    requires IsTextField(f)
  {
    match f
    case ContactName => data.contactName
    case CompanyName => data.companyName
    case PhoneNumber => data.phoneNumber
    case Email => data.email
    case PreferredContactMethod => data.preferredContactMethod
    case BillingContactName => data.billingContactName
    case BillingPhone => data.billingPhone
    case BillingEmail => data.billingEmail
    case BillingAddress => data.billingAddress
    case AdditionalNotes => data.additionalNotes
  }

  /** The value of a key of a leaking property. */
  function PropertyText(p: LeakingProperty, f: FieldName): string
    requires IsPropertyKey(f)
  {
    match f
    case PropertyNameId => p.propertyNameId
    case StreetAddress => p.streetAddress
    case City => p.city
    case State => p.state
    case ZipCode => p.zipCode
    case PropertyType => p.propertyType
    case ServiceDescription => p.serviceDescription
  }

  /** The text a check reads: a key of the first leaking property, or a
      string-valued key of the form. */
  function CheckedText(data: IntakeFormData, f: FieldName): string
    requires |data.leakingProperties| > 0 && IsCheckedField(f)
  {
    if IsPropertyKey(f) then PropertyText(data.leakingProperties[0], f) else FormText(data, f)
  }

  /** Whether the check on field `f` fails for `data`: never for the three
      unchecked keys, and always when a checked field is blank, whatever
      its kind. */
  function CheckFails(data: IntakeFormData, f: FieldName): (r: bool)
    requires |data.leakingProperties| > 0
    ensures !IsCheckedField(f) ==> !r
    ensures IsCheckedField(f) && IsBlank(CheckedText(data, f)) ==> r
  {
    match KindOf(f)
    case Unchecked => false
    case Required => IsBlank(CheckedText(data, f))
    case Phone => !IsPhone(CheckedText(data, f))
    case EmailAddress => BlankIffTrimEmpty(CheckedText(data, f)); !IsEmail(CheckedText(data, f))
  }

  /** The fifteen checks, in the order the source makes them: the seven on
      the first leaking property, then contact, then billing. */
  const CHECK_ORDER: seq<FieldName> := [
    PropertyNameId, StreetAddress, City, State, ZipCode, PropertyType,
    ServiceDescription, ContactName, CompanyName, PhoneNumber, Email,
    BillingContactName, BillingPhone, BillingEmail, BillingAddress]

  /** The errors the checks in `checks` report: one entry per failing check,
      carrying that check's fixed message. */
  function ErrorsOf(data: IntakeFormData, checks: seq<FieldName>): ValidationErrors
    requires |data.leakingProperties| > 0
  {
    map f | f in checks && CheckFails(data, f) :: ErrorMessage(f)
  }

  /** The error map the validator should produce: one entry per failing
      check, carrying that check's fixed message, and nothing else. */
  function ExpectedErrors(data: IntakeFormData): ValidationErrors
    requires |data.leakingProperties| > 0
  {
    ErrorsOf(data, CHECK_ORDER)
  }

  /** One more check adds its message under its field when it fails and
      leaves the map alone when it passes. */
  lemma ErrorsOfSnoc(data: IntakeFormData, checks: seq<FieldName>, f: FieldName)
    requires |data.leakingProperties| > 0
    ensures ErrorsOf(data, checks + [f])
         == if CheckFails(data, f) then ErrorsOf(data, checks)[f := ErrorMessage(f)]
            else ErrorsOf(data, checks)
  {
  }

  /** `validateEmergencyLeakServiceForm`: the source's fifteen conditional
      assignments, made in its order, each recording the check's message
      under its field when the check fails. `data.leakingProperties[0]` must
      exist: the source dereferences its fields. */
  method Validate(data: IntakeFormData) returns (errors: ValidationErrors)
    requires |data.leakingProperties| > 0
    ensures errors == ExpectedErrors(data)
  {
    errors := map[];
    for i := 0 to |CHECK_ORDER|
      invariant errors == ErrorsOf(data, CHECK_ORDER[..i])
    {
      var f := CHECK_ORDER[i];
      ErrorsOfSnoc(data, CHECK_ORDER[..i], f);
      if CheckFails(data, f) {
        errors := errors[f := ErrorMessage(f)];
      }
      assert CHECK_ORDER[..i + 1] == CHECK_ORDER[..i] + [f];
    }
    assert CHECK_ORDER[..|CHECK_ORDER|] == CHECK_ORDER;
  }

  /** The validator's keys are exactly the failing checked fields, each with
      its own fixed message; no other key ever appears. */
  lemma ErrorsAreFailingChecks(data: IntakeFormData)
    requires |data.leakingProperties| > 0
    ensures forall f :: f in ExpectedErrors(data) <==> IsCheckedField(f) && CheckFails(data, f)
    ensures forall f :: f in ExpectedErrors(data) ==> ExpectedErrors(data)[f] == ErrorMessage(f)
  {
    forall f ensures f in CHECK_ORDER <==> IsCheckedField(f) {
    }
  }

  /** Each required text field gets an error exactly when it is blank after
      trimming; the two phone fields exactly when `isPhone` fails; the two
      e-mail fields exactly when `isEmail` fails. */
  lemma ErrorsByKind(data: IntakeFormData)
    requires |data.leakingProperties| > 0
    ensures forall f :: IsCheckedField(f) && KindOf(f) == Required ==>
      (f in ExpectedErrors(data) <==> IsBlank(CheckedText(data, f)))
    ensures forall f :: IsCheckedField(f) && KindOf(f) == Phone ==>
      (f in ExpectedErrors(data) <==> !IsPhone(CheckedText(data, f)))
    ensures forall f :: IsCheckedField(f) && KindOf(f) == EmailAddress ==>
      (f in ExpectedErrors(data) <==> !IsEmail(CheckedText(data, f)))
    ensures forall f :: KindOf(f) == Unchecked ==> f !in ExpectedErrors(data)
  {
    ErrorsAreFailingChecks(data);
  }

  /** Every one of the fifteen checks passes. */
  predicate AllChecksPass(data: IntakeFormData)
    requires |data.leakingProperties| > 0
  {
    forall f :: IsCheckedField(f) ==> !CheckFails(data, f)
  }

  /** The validator reports nothing exactly when all fifteen checks pass. */
  lemma NoErrorsIffAllChecksPass(data: IntakeFormData)
    requires |data.leakingProperties| > 0
    ensures ExpectedErrors(data) == map[] <==> AllChecksPass(data)
  {
    ErrorsAreFailingChecks(data);
    var e := ExpectedErrors(data);
    if e == map[] {
      forall f | IsCheckedField(f) ensures !CheckFails(data, f) {
        assert f !in e;
      }
    } else {
      var f :| f in e;
      assert CheckFails(data, f);
    }
  }

  /** Only the first leaking property is inspected: replacing the others
      never changes the errors. */
  lemma OnlyFirstPropertyInspected(data: IntakeFormData, others: seq<LeakingProperty>)
    requires |data.leakingProperties| > 0
    ensures ExpectedErrors(data.(leakingProperties := [data.leakingProperties[0]] + others))
         == ExpectedErrors(data)
  {
    var data' := data.(leakingProperties := [data.leakingProperties[0]] + others);
    assert data'.leakingProperties[0] == data.leakingProperties[0];
    forall f ensures CheckFails(data', f) == CheckFails(data, f) {
      if IsCheckedField(f) {
        assert CheckedText(data', f) == CheckedText(data, f);
      }
    }
  }

  /** The initial form has one empty property and "Phone" as the preferred
      contact method, and validating it flags exactly the fifteen checked
      fields. */
  lemma InitialFormFlagsEveryField()
    ensures INITIAL_FORM_DATA.leakingProperties == [EMPTY_PROPERTY]
    ensures INITIAL_FORM_DATA.preferredContactMethod == "Phone"
    ensures forall f :: f in ExpectedErrors(INITIAL_FORM_DATA) <==> IsCheckedField(f)
  {
    ErrorsAreFailingChecks(INITIAL_FORM_DATA);
    assert IsBlank("");
    assert !IsPhone("");
    assert !IsEmail("");
    forall f | IsCheckedField(f) ensures CheckedText(INITIAL_FORM_DATA, f) == "" {
    }
  }
}
