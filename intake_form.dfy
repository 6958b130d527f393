/** The intake form component: its field updaters, the prefill merge, the
    debounced prefill gate and the submit sequence
    (components/EmergencyLeakServiceForm.tsx). */
module IntakeForm {
  import opened JsText
  import opened IntakeValidation

  // ---------------------------------------------------------------------
  // updateField and updatePropertyField

  /** `{ ...data, [f]: v }` for a string-valued key of the form. */
  function SetFormField(data: IntakeFormData, f: FieldName, v: string): (r: IntakeFormData)
    requires IsTextField(f)
    ensures FormText(r, f) == v
    ensures forall g :: IsTextField(g) && g != f ==> FormText(r, g) == FormText(data, g)
    ensures r.leakingProperties == data.leakingProperties
  {
    match f
    case ContactName => data.(contactName := v)
    case CompanyName => data.(companyName := v)
    case PhoneNumber => data.(phoneNumber := v)
    case Email => data.(email := v)
    case PreferredContactMethod => data.(preferredContactMethod := v)
    case BillingContactName => data.(billingContactName := v)
    case BillingPhone => data.(billingPhone := v)
    case BillingEmail => data.(billingEmail := v)
    case BillingAddress => data.(billingAddress := v)
    case AdditionalNotes => data.(additionalNotes := v)
  }

  /** `{ ...p, [f]: v }` for a key of a leaking property. */
  function SetPropertyText(p: LeakingProperty, f: FieldName, v: string): (r: LeakingProperty)
    requires IsPropertyKey(f)
    ensures PropertyText(r, f) == v
    ensures forall g :: IsPropertyKey(g) && g != f ==> PropertyText(r, g) == PropertyText(p, g)
  {
    match f
    case PropertyNameId => p.(propertyNameId := v)
    case StreetAddress => p.(streetAddress := v)
    case City => p.(city := v)
    case State => p.(state := v)
    case ZipCode => p.(zipCode := v)
    case PropertyType => p.(propertyType := v)
    case ServiceDescription => p.(serviceDescription := v)
  }

  /** The updater `updatePropertyField` hands to the state setter: the list
      becomes the single edited first property; the other properties are
      dropped. */
  function SetPropertyField(data: IntakeFormData, f: FieldName, v: string): (r: IntakeFormData)
    requires IsPropertyKey(f) && |data.leakingProperties| > 0
    ensures |r.leakingProperties| == 1
    ensures PropertyText(r.leakingProperties[0], f) == v
    ensures forall g :: IsPropertyKey(g) && g != f ==>
      PropertyText(r.leakingProperties[0], g) == PropertyText(data.leakingProperties[0], g)
    ensures forall g :: IsTextField(g) ==> FormText(r, g) == FormText(data, g)
  {
    data.(leakingProperties := [SetPropertyText(data.leakingProperties[0], f, v)])
  }

  /** The second of two edits to the same field wins. */
  lemma SetFormFieldOverwrites(data: IntakeFormData, f: FieldName, v: string, w: string)
    requires IsTextField(f)
    ensures SetFormField(SetFormField(data, f, v), f, w) == SetFormField(data, f, w)
  {
  }

  /** Edits to two different fields commute. */
  lemma SetFormFieldsCommute(data: IntakeFormData, f: FieldName, v: string, g: FieldName, w: string)
    requires IsTextField(f) && IsTextField(g) && f != g
    ensures SetFormField(SetFormField(data, f, v), g, w) == SetFormField(SetFormField(data, g, w), f, v)
  {
  }

  /** Editing a form field can change the validator's verdict on that field
      only: every other key is reported, or not, as before. */
  lemma EditChangesOnlyItsOwnError(data: IntakeFormData, f: FieldName, v: string)
    requires IsTextField(f) && |data.leakingProperties| > 0
    ensures forall g :: g != f ==>
      (g in ExpectedErrors(SetFormField(data, f, v)) <==> g in ExpectedErrors(data))
  {
    var data' := SetFormField(data, f, v);
    ErrorsAreFailingChecks(data);
    ErrorsAreFailingChecks(data');
    forall g | g != f && IsCheckedField(g) ensures CheckedText(data', g) == CheckedText(data, g) {
    }
  }

  /** Editing a property field can change the validator's verdict on that
      key only. */
  lemma PropertyEditChangesOnlyItsOwnError(data: IntakeFormData, f: FieldName, v: string)
    requires IsPropertyKey(f) && |data.leakingProperties| > 0
    ensures forall g :: g != f ==>
      (g in ExpectedErrors(SetPropertyField(data, f, v)) <==> g in ExpectedErrors(data))
  {
    var data' := SetPropertyField(data, f, v);
    ErrorsAreFailingChecks(data);
    ErrorsAreFailingChecks(data');
    forall g | g != f && IsCheckedField(g) ensures CheckedText(data', g) == CheckedText(data, g) {
    }
  }

  // ---------------------------------------------------------------------
  // applyPrefillData

  /** A leaking property as prefill data may carry it: any key may be
      missing. */
  datatype PropertyPatch = PropertyPatch(
    propertyNameId: Option<string>,
    streetAddress: Option<string>,
    city: Option<string>,
    state: Option<string>,
    zipCode: Option<string>,
    propertyType: Option<string>,
    serviceDescription: Option<string>)

  /** `Partial<IntakeFormData>`: the prefill data, any key of which may be
      missing. */
  datatype PrefillData = PrefillData(
    leakingProperties: Option<seq<PropertyPatch>>,
    contactName: Option<string>,
    companyName: Option<string>,
    phoneNumber: Option<string>,
    email: Option<string>,
    preferredContactMethod: Option<string>,
    billingContactName: Option<string>,
    billingPhone: Option<string>,
    billingEmail: Option<string>,
    billingAddress: Option<string>,
    additionalNotes: Option<string>)

  function PatchText(d: PrefillData, f: FieldName): Option<string>
    requires IsTextField(f)
  {
    match f
    case ContactName => d.contactName
    case CompanyName => d.companyName
    case PhoneNumber => d.phoneNumber
    case Email => d.email
    case PreferredContactMethod => d.preferredContactMethod
    case BillingContactName => d.billingContactName
    case BillingPhone => d.billingPhone
    case BillingEmail => d.billingEmail
    case BillingAddress => d.billingAddress
    case AdditionalNotes => d.additionalNotes
  }

  function PatchPropertyText(q: PropertyPatch, f: FieldName): Option<string>
    requires IsPropertyKey(f)
  {
    match f
    case PropertyNameId => q.propertyNameId
    case StreetAddress => q.streetAddress
    case City => q.city
    case State => q.state
    case ZipCode => q.zipCode
    case PropertyType => q.propertyType
    case ServiceDescription => q.serviceDescription
  }

  /** `{ ...p, ...q }`: every key present in `q` overrides `p`. */
  function MergeProperty(p: LeakingProperty, q: PropertyPatch): (r: LeakingProperty)
    ensures forall f :: IsPropertyKey(f) ==>
      PropertyText(r, f) == PatchPropertyText(q, f).GetOr(PropertyText(p, f))
  {
    LeakingProperty(
      q.propertyNameId.GetOr(p.propertyNameId),
      q.streetAddress.GetOr(p.streetAddress),
      q.city.GetOr(p.city),
      q.state.GetOr(p.state),
      q.zipCode.GetOr(p.zipCode),
      q.propertyType.GetOr(p.propertyType),
      q.serviceDescription.GetOr(p.serviceDescription))
  }

  /** The data brings a first leaking property. */
  predicate BringsProperty(d: PrefillData) {
    d.leakingProperties.Some? && |d.leakingProperties.value| > 0
  }

  /** The updater `applyPrefillData` hands to the state setter. The spread
      copies every present key; when the data brings a non-empty property
      list, the result's list is instead the current first property
      overridden by the data's first one. The current form must then have a
      first property (see README). */
  function ApplyPrefillData(current: IntakeFormData, d: PrefillData): (r: IntakeFormData)
    requires BringsProperty(d) ==> |current.leakingProperties| > 0
    ensures forall f :: IsTextField(f) ==> FormText(r, f) == PatchText(d, f).GetOr(FormText(current, f))
    ensures d.leakingProperties.None? ==> r.leakingProperties == current.leakingProperties
    ensures d.leakingProperties == Some([]) ==> r.leakingProperties == []
    ensures BringsProperty(d) ==>
      r.leakingProperties == [MergeProperty(current.leakingProperties[0], d.leakingProperties.value[0])]
  {
    var properties :=
      if BringsProperty(d) then
        [MergeProperty(current.leakingProperties[0], d.leakingProperties.value[0])]
      else if d.leakingProperties.Some? then []
      else current.leakingProperties;
    IntakeFormData(
      properties,
      d.contactName.GetOr(current.contactName),
      d.companyName.GetOr(current.companyName),
      d.phoneNumber.GetOr(current.phoneNumber),
      d.email.GetOr(current.email),
      d.preferredContactMethod.GetOr(current.preferredContactMethod),
      d.billingContactName.GetOr(current.billingContactName),
      d.billingPhone.GetOr(current.billingPhone),
      d.billingEmail.GetOr(current.billingEmail),
      d.billingAddress.GetOr(current.billingAddress),
      d.additionalNotes.GetOr(current.additionalNotes))
  }

  const NO_PREFILL_DATA := PrefillData(None, None, None, None, None, None, None, None, None, None, None)

  /** Data with no keys changes nothing. */
  lemma EmptyPrefillChangesNothing(current: IntakeFormData)
    ensures ApplyPrefillData(current, NO_PREFILL_DATA) == current
  {
  }

  /** Applying the same data twice is applying it once. */
  lemma ApplyPrefillIdempotent(current: IntakeFormData, d: PrefillData)
    requires BringsProperty(d) ==> |current.leakingProperties| > 0
    ensures ApplyPrefillData(ApplyPrefillData(current, d), d) == ApplyPrefillData(current, d)
  {
  }

  // ---------------------------------------------------------------------
  // The prefill gate (the effect on companyName and email)

  /** The lookup key of the trimmed company name and e-mail. */
  function LookupKey(companyName: string, email: string): (k: string)
    ensures |k| == |companyName| + 2 + |email|
    ensures k[|companyName|..|companyName| + 2] == "::"
  {
    companyName + "::" + email
  }

  /** A lookup waiting on the debounce timer. */
  datatype PendingPrefill = PendingPrefill(key: string, companyName: string, email: string)

  /** What the effect schedules for the given company name, e-mail and last
      lookup key: nothing when both trimmed values are empty or their key is
      the last one looked up, otherwise a lookup of the trimmed values. */
  function PrefillSchedule(companyName: string, email: string, lastKey: string): (r: Option<PendingPrefill>)
    ensures r.None? <==>
      (Trim(companyName) == [] && Trim(email) == [])
      || LookupKey(Trim(companyName), Trim(email)) == lastKey
    ensures r.Some? ==>
      r.value == PendingPrefill(LookupKey(Trim(companyName), Trim(email)), Trim(companyName), Trim(email))
  {
    var c := Trim(companyName);
    var e := Trim(email);
    if c == [] && e == [] then None
    else
      var key := LookupKey(c, e);
      if key == lastKey then None else Some(PendingPrefill(key, c, e))
  }

  /** Once a lookup has fired, the same values never schedule it again. */
  lemma NoRepeatLookup(companyName: string, email: string)
    ensures PrefillSchedule(companyName, email,
                            LookupKey(Trim(companyName), Trim(email))) == None
  {
  }

  /** The key does not tell the values apart when either holds `::`: for
      every company name `a` and e-mail `b`, moving a `::` from the end of
      the company name to the front of the e-mail keeps the key. */
  lemma DistinctValuesCanShareKey(a: string, b: string)
    ensures a + "::" != a && "::" + b != b
    ensures LookupKey(a + "::", b) == LookupKey(a, "::" + b)
  {
    assert |a + "::"| != |a|;
    assert |"::" + b| != |b|;
    assert (a + "::") + "::" + b == a + "::" + ("::" + b);
  }

  /** So after a lookup of company `a::` and e-mail `b`, company `a` with
      e-mail `::b` is never looked up, for any values that trimming leaves
      alone (such as `a` and `b`). */
  lemma CollidingKeySuppressesLookup(a: string, b: string)
    requires Trim(a) == a && Trim("::" + b) == "::" + b
    ensures PrefillSchedule(a, "::" + b, LookupKey(a + "::", b)) == None
  {
  }

  /** Surrounding whitespace never changes what is scheduled. */
  lemma ScheduleIgnoresSurroundingWhitespace(companyName: string, email: string, lastKey: string)
    ensures PrefillSchedule(Trim(companyName), Trim(email), lastKey)
         == PrefillSchedule(companyName, email, lastKey)
  {
    TrimIdempotent(companyName);
    TrimIdempotent(email);
  }

  /** No lookup key is empty, so the reset key `""` never suppresses a
      lookup. */
  lemma ResetKeySuppressesNothing(companyName: string, email: string)
    requires Trim(companyName) != [] || Trim(email) != []
    ensures PrefillSchedule(companyName, email, "").Some?
  {
  }

  // ---------------------------------------------------------------------
  // The component

  datatype SubmitState = Idle | Success | Error

  /** How a prefill lookup ended: a response with its `ok` flag and body,
      or an exception (network failure or an unreadable body). */
  datatype PrefillOutcome =
    | PrefillResponse(ok: bool, found: bool, data: Option<PrefillData>)
    | PrefillThrew

  /** Whether `prefillFromLookup` applies the outcome. */
  predicate AppliesPrefill(outcome: PrefillOutcome) {
    outcome.PrefillResponse? && outcome.ok && outcome.found && outcome.data.Some?
  }

  /** How the submit request ended. */
  datatype SubmitOutcome = SubmitResponse(ok: bool) | SubmitThrew

  /** The state of `EmergencyLeakServiceForm`: the four state hooks, the
      last-lookup ref, the lookup waiting on the debounce timer, and the
      dependency values the prefill effect last ran with. */
  class IntakeFormComponent {
    var formData: IntakeFormData
    var errors: ValidationErrors
    var isSubmitting: bool
    var submitState: SubmitState
    var lastPrefillKey: string
    var pendingPrefill: Option<PendingPrefill>
    var effectCompanyName: string
    var effectEmail: string

    /** A submission in flight leaves the status at idle, and a waiting
        lookup carries the key of its values and is never the one last
        made. */
    predicate Valid()
      reads this
    {
      && (isSubmitting ==> submitState == Idle)
      && (pendingPrefill.Some? ==>
            var p := pendingPrefill.value;
            p.key == LookupKey(p.companyName, p.email) && p.key != lastPrefillKey)
    }

    /** Mounting: the initial state, then the effect's first run, which
        schedules nothing for the empty company name and e-mail. */
    constructor()
      ensures Valid()
      ensures formData == INITIAL_FORM_DATA && errors == map[]
      ensures !isSubmitting && submitState == Idle
      ensures lastPrefillKey == "" && pendingPrefill == None
      ensures effectCompanyName == "" && effectEmail == ""
    {
      formData := INITIAL_FORM_DATA;
      errors := map[];
      isSubmitting := false;
      submitState := Idle;
      lastPrefillKey := "";
      effectCompanyName := "";
      effectEmail := "";
      pendingPrefill := PrefillSchedule("", "", "");
    }

    /** `updateField`. */
    method UpdateField(f: FieldName, v: string)
      requires Valid() && IsTextField(f)
      modifies this
      ensures Valid()
      ensures formData == SetFormField(old(formData), f, v)
      ensures errors == old(errors) && isSubmitting == old(isSubmitting)
      ensures submitState == old(submitState) && lastPrefillKey == old(lastPrefillKey)
      ensures pendingPrefill == old(pendingPrefill)
      ensures effectCompanyName == old(effectCompanyName) && effectEmail == old(effectEmail)
    {
      formData := SetFormField(formData, f, v);
    }

    /** `updatePropertyField`. */
    method UpdatePropertyField(f: FieldName, v: string)
      requires Valid() && IsPropertyKey(f) && |formData.leakingProperties| > 0
      modifies this
      ensures Valid()
      ensures formData == SetPropertyField(old(formData), f, v)
      ensures errors == old(errors) && isSubmitting == old(isSubmitting)
      ensures submitState == old(submitState) && lastPrefillKey == old(lastPrefillKey)
      ensures pendingPrefill == old(pendingPrefill)
      ensures effectCompanyName == old(effectCompanyName) && effectEmail == old(effectEmail)
    {
      formData := SetPropertyField(formData, f, v);
    }

    /** A render is committed: when `companyName` or `email` differs from
        the values the effect last ran with, its cleanup cancels the waiting
        timer and it runs again; otherwise React skips it. */
    method CommitRender()
      requires Valid()
      modifies this
      ensures Valid()
      ensures effectCompanyName == formData.companyName && effectEmail == formData.email
      ensures pendingPrefill ==
        if old(effectCompanyName) == formData.companyName && old(effectEmail) == formData.email
        then old(pendingPrefill)
        else PrefillSchedule(formData.companyName, formData.email, lastPrefillKey)
      ensures formData == old(formData) && errors == old(errors)
      ensures isSubmitting == old(isSubmitting) && submitState == old(submitState)
      ensures lastPrefillKey == old(lastPrefillKey)
    {
      if effectCompanyName != formData.companyName || effectEmail != formData.email {
        pendingPrefill := None;
        pendingPrefill := PrefillSchedule(formData.companyName, formData.email, lastPrefillKey);
        effectCompanyName := formData.companyName;
        effectEmail := formData.email;
      }
    }

    /** The debounce timer fires: the key is recorded before the lookup of
        the trimmed values is started. */
    method FirePrefillTimer() returns (companyName: string, email: string)
      requires Valid() && pendingPrefill.Some?
      modifies this
      ensures Valid()
      ensures lastPrefillKey == old(pendingPrefill.value.key)
    ensures lastPrefillKey != old(lastPrefillKey)
      ensures companyName == old(pendingPrefill.value.companyName)
      ensures email == old(pendingPrefill.value.email)
      ensures pendingPrefill == None
      ensures formData == old(formData) && errors == old(errors)
      ensures isSubmitting == old(isSubmitting) && submitState == old(submitState)
      ensures effectCompanyName == old(effectCompanyName) && effectEmail == old(effectEmail)
    {
      var pending := pendingPrefill.value;
      lastPrefillKey := pending.key;
      pendingPrefill := None;
      companyName, email := pending.companyName, pending.email;
    }

    /** `prefillFromLookup` after its request: the data is applied only on
        an ok response that was found and carries data; a thrown error is
        swallowed. */
    method CompletePrefill(outcome: PrefillOutcome)
      requires Valid()
      requires AppliesPrefill(outcome) && BringsProperty(outcome.data.value) ==>
        |formData.leakingProperties| > 0
      modifies this
      ensures Valid()
      ensures formData ==
        if AppliesPrefill(outcome) then ApplyPrefillData(old(formData), outcome.data.value)
        else old(formData)
      ensures errors == old(errors) && isSubmitting == old(isSubmitting)
      ensures submitState == old(submitState) && lastPrefillKey == old(lastPrefillKey)
      ensures pendingPrefill == old(pendingPrefill)
      ensures effectCompanyName == old(effectCompanyName) && effectEmail == old(effectEmail)
    {
      if AppliesPrefill(outcome) {
        formData := ApplyPrefillData(formData, outcome.data.value);
      }
    }

    /** `onSubmit` up to its request: the status goes back to idle, the
        validator's result becomes the errors, and the form is sent only
        when there are none. With no leaking property the validator throws
        on `leakingProperties[0]` and nothing after the status reset
        happens. */
    method Submit() returns (request: Option<IntakeFormData>)
      requires Valid()
      modifies this
      ensures Valid()
      ensures submitState == Idle
      ensures |formData.leakingProperties| == 0 ==>
        request == None && errors == old(errors) && isSubmitting == old(isSubmitting)
      ensures |formData.leakingProperties| > 0 ==> errors == ExpectedErrors(formData)
      ensures |formData.leakingProperties| > 0 && errors != map[] ==>
        request == None && isSubmitting == old(isSubmitting)
      ensures |formData.leakingProperties| > 0 && errors == map[] ==>
        request == Some(formData) && isSubmitting
      ensures formData == old(formData) && lastPrefillKey == old(lastPrefillKey)
      ensures pendingPrefill == old(pendingPrefill)
      ensures effectCompanyName == old(effectCompanyName) && effectEmail == old(effectEmail)
    {
      submitState := Idle;
      if |formData.leakingProperties| == 0 {
        return None;
      }
      var validation := Validate(formData);
      errors := validation;
      if validation != map[] {
        return None;
      }
      isSubmitting := true;
      request := Some(formData);
    }

    /** `onSubmit` after its request: an ok response resets the form, its
        errors and the last lookup key and reports success; a failed
        response or a thrown error reports an error; either way the
        submission ends. */
    method CompleteSubmit(outcome: SubmitOutcome)
      requires Valid()
      modifies this
      ensures Valid()
      ensures !isSubmitting
      ensures outcome == SubmitResponse(true) ==>
        && submitState == Success && formData == INITIAL_FORM_DATA
        && errors == map[] && lastPrefillKey == ""
      ensures outcome != SubmitResponse(true) ==>
        && submitState == Error && formData == old(formData)
        && errors == old(errors) && lastPrefillKey == old(lastPrefillKey)
      ensures pendingPrefill == old(pendingPrefill)
      ensures effectCompanyName == old(effectCompanyName) && effectEmail == old(effectEmail)
    {
      if outcome == SubmitResponse(true) {
        submitState := Success;
        formData := INITIAL_FORM_DATA;
        errors := map[];
        lastPrefillKey := "";
      } else {
        submitState := Error;
      }
      isSubmitting := false;
    }
  }
}
