/** The prefill endpoint's decision: a 400 response when the request names
    neither a company nor an e-mail address, else the stub's 200 response
    (app/api/emergency-leak-service/prefill/route.ts). */
module PrefillRoute {
  import opened JsText

  /** The request body; either field may be missing. */
  datatype PrefillRequest = PrefillRequest(companyName: Option<string>, email: Option<string>)

  /** The response record and its HTTP status. The stub never sends `data`. */
  datatype PrefillResponse = PrefillResponse(status: int, found: bool, message: string)

  const MISSING_LOOKUP_MESSAGE := "Provide a company name or email to prefill."

  const STUB_MESSAGE :=
    "Prefill endpoint stub is ready. Connect this route to your backend lookup service."

  /** `body.field?.trim()` is truthy: the field is present and not blank. */
  function Names(field: Option<string>): (r: bool)
    ensures r <==> field.Some? && !IsBlank(field.value)
  {
    BlankIffTrimEmpty(field.GetOr(""));
    field.Some? && Trim(field.value) != []
  }

  /** `hasLookup`: the company name or else the e-mail address is present
      and not blank. */
  function HasLookup(body: PrefillRequest): (r: bool)
    ensures r <==> ((body.companyName.Some? && !IsBlank(body.companyName.value))
                    || (body.email.Some? && !IsBlank(body.email.value)))
  {
    Names(body.companyName) || Names(body.email)
  }

  /** `POST`. */
  function Post(body: PrefillRequest): (r: PrefillResponse)
    ensures r.status == 400 <==> !HasLookup(body)
    ensures r.status == 400 || r.status == 200
    ensures r.status == 400 ==> r.message == MISSING_LOOKUP_MESSAGE
    ensures r.status == 200 ==> r.message == STUB_MESSAGE
    ensures !r.found
  {
    if !HasLookup(body) then PrefillResponse(400, false, MISSING_LOOKUP_MESSAGE)
    else PrefillResponse(200, false, STUB_MESSAGE)
  }

  /** A missing field, an empty one and a whitespace-only one are all
      treated alike. */
  lemma BlankCountsAsMissing(body: PrefillRequest, blank: string)
    requires IsBlank(blank)
    ensures Post(body.(companyName := Some(blank))) == Post(body.(companyName := None))
    ensures Post(body.(email := Some(blank))) == Post(body.(email := None))
  {
  }

  /** The form always sends both fields; for such a body the answer is 400
      exactly when both are blank. */
  lemma BadRequestIffBothBlank(companyName: string, email: string)
    ensures Post(PrefillRequest(Some(companyName), Some(email))).status == 400
        <==> IsBlank(companyName) && IsBlank(email)
  {
  }
}
