/** The order-status panel shown after a submission: the label tables and
    value rules of its detail lines, the screen it renders from its state,
    and the state change made by one status fetch
    (components/emergencyLeakService/OrderStatusPanel.tsx). */
module OrderStatusPanel {
  import opened JsText

  // ---------------------------------------------------------------------
  // The status record, as the panel reads it
  // ---------------------------------------------------------------------

  /** One leak of a service order. The three enumerated fields are the
      integers the service sends. */
  datatype LeakDetails = LeakDetails(
    siteName: string, siteAddress: string, siteAddress2: string,
    siteCity: string, siteZip: string,
    tenantBusinessName: string, tenantContactName: string,
    tenantContactPhone: string, tenantContactCell: string,
    tenantContactEmail: string, hoursOfOperation: string,
    leakLocation: int, leakNear: int, leakNearOther: string, roofPitch: int,
    hasAccessCode: bool, accessCode: string,
    isSaturdayAccessPermitted: bool, isKeyRequired: bool, isLadderRequired: bool,
    comments: string)

  datatype ClientInfo = ClientInfo(
    accountName: string, accountContactName: string, email: string, phone: string)

  datatype BillingInfo = BillingInfo(
    entityBillToName: string, billToAddress: string, billToAddress2: string,
    billToCity: string, billToZip: string, billToEmail: string)

  datatype ServiceOrderStatusData = ServiceOrderStatusData(
    requestDate: string, createdAt: string,
    client: ClientInfo, billing: BillingInfo,
    leakDetails: LeakDetails, additionalLeaks: seq<LeakDetails>)

  // ---------------------------------------------------------------------
  // Label tables
  // ---------------------------------------------------------------------

  const STATUS_LABELS: map<string, string> :=
    map["NEW" := "New", "IN_PROGRESS" := "In Progress",
        "COMPLETED" := "Completed", "CANCELLED" := "Cancelled"]

  const STATUS_COLORS: map<string, string> :=
    map["NEW" := "bg-blue-100 text-blue-800 border-blue-300",
        "IN_PROGRESS" := "bg-amber-100 text-amber-800 border-amber-300",
        "COMPLETED" := "bg-emerald-100 text-emerald-800 border-emerald-300",
        "CANCELLED" := "bg-red-100 text-red-800 border-red-300"]

  /** The badge colour of a status the table does not know. */
  const DEFAULT_STATUS_COLOR := "bg-slate-100 text-slate-800 border-slate-300"

  const LEAK_LOCATION_LABELS: map<int, string> := map[1 := "Front", 2 := "Middle", 3 := "Back"]

  const LEAK_NEAR_LABELS: map<int, string> :=
    map[1 := "HVAC Duct", 2 := "Skylight", 3 := "Wall", 4 := "Drain", 5 := "Other"]

  const ROOF_PITCH_LABELS: map<int, string> := map[1 := "Flat Roof", 2 := "Steep / Shingle / Tile"]

  /** The text of the status badge: the table label of a known status, the
      raw status otherwise. */
  function StatusLabel(status: string): (r: string)
    ensures status in STATUS_LABELS ==> r == STATUS_LABELS[status] && r != status
    ensures status !in STATUS_LABELS ==> r == status
  {
    if status in STATUS_LABELS then STATUS_LABELS[status] else status
  }

  /** The badge's colour classes, with the slate fallback. */
  function StatusColor(status: string): (r: string)
    ensures status in STATUS_COLORS ==> r == STATUS_COLORS[status]
    ensures status !in STATUS_COLORS ==> r == DEFAULT_STATUS_COLOR
  {
    if status in STATUS_COLORS then STATUS_COLORS[status] else DEFAULT_STATUS_COLOR
  }

  /** Each known status has a badge text of its own. */
  lemma KnownStatusLabelsDistinct(a: string, b: string)
    requires a in STATUS_LABELS && b in STATUS_LABELS && StatusLabel(a) == StatusLabel(b)
    ensures a == b
  {
  }

  // ---------------------------------------------------------------------
  // Detail values
  // ---------------------------------------------------------------------

  /** The "Leak Location" value: the table label, else `String(n)`. */
  function LocationValue(n: int): (r: string)
    ensures n in LEAK_LOCATION_LABELS ==> r == LEAK_LOCATION_LABELS[n]
    ensures n !in LEAK_LOCATION_LABELS ==> r == IntToString(n)
    ensures r != []
  {
    if n in LEAK_LOCATION_LABELS then LEAK_LOCATION_LABELS[n] else IntToString(n)
  }

  /** The "Roof Pitch" value: the table label, else `String(n)`. */
  function RoofPitchValue(n: int): (r: string)
    ensures n in ROOF_PITCH_LABELS ==> r == ROOF_PITCH_LABELS[n]
    ensures n !in ROOF_PITCH_LABELS ==> r == IntToString(n)
    ensures r != []
  {
    if n in ROOF_PITCH_LABELS then ROOF_PITCH_LABELS[n] else IntToString(n)
  }

  /** The "Leak Near" value: the free text when there is any, else the table
      label, else `String(n)`. */
  function LeakNearValue(other: string, n: int): (r: string)
    ensures other != [] ==> r == other
    ensures other == [] && n in LEAK_NEAR_LABELS ==> r == LEAK_NEAR_LABELS[n]
    ensures other == [] && n !in LEAK_NEAR_LABELS ==> r == IntToString(n)
    ensures r != []
  {
    if other != [] then other
    else if n in LEAK_NEAR_LABELS then LEAK_NEAR_LABELS[n]
    else IntToString(n)
  }

  /** The "Access Code" value. */
  function AccessCodeValue(hasAccessCode: bool, accessCode: string): (r: string)
    ensures !hasAccessCode ==> r == "None"
    ensures hasAccessCode && accessCode != [] ==> r == accessCode
    ensures hasAccessCode && accessCode == [] ==> r == "Yes"
    ensures r != []
  {
    if !hasAccessCode then "None" else if accessCode != [] then accessCode else "Yes"
  }

  /** A boolean flag as the panel writes it. */
  function YesNo(b: bool): (r: string)
    ensures r == "Yes" <==> b
    ensures r == "No" <==> !b
  {
    if b then "Yes" else "No"
  }

  /** An address line: the non-empty address parts joined by a comma, then
      an em dash, the city and the zip code. Used for the site and the
      billing address. */
  function AddressValue(address: string, address2: string, city: string, zip: string): (r: string)
    ensures var tail := " \U{2014} " + city + " " + zip;
      && (address != [] && address2 != [] ==> r == address + ", " + address2 + tail)
      && (address != [] && address2 == [] ==> r == address + tail)
      && (address == [] && address2 != [] ==> r == address2 + tail)
      && (address == [] && address2 == [] ==> r == tail)
    ensures r != []
  {
    JoinNonEmptyPair(address, address2, ", ");
    Join(NonEmptyParts([address, address2]), ", ") + " \U{2014} " + city + " " + zip
  }

  // ---------------------------------------------------------------------
  // Detail lines and leak cards
  // ---------------------------------------------------------------------

  /** A rendered "label: value" line. */
  datatype DetailLine = DetailLine(caption: string, value: string)

  /** `Detail`: a line, or nothing when the value is empty. */
  function Detail(caption: string, value: string): (r: Option<DetailLine>)
    ensures r.None? <==> value == []
    ensures r.Some? ==> r.value.caption == caption && r.value.value == value
  {
    if value == [] then None else Some(DetailLine(caption, value))
  }

  /** The lines `Detail` renders from a column of candidates: the
      non-empty ones, in order (`VisibleConcat`, `VisibleOne`). */
  function Visible(candidates: seq<DetailLine>): (r: seq<DetailLine>)
    ensures forall d :: d in r <==> d in candidates && d.value != []
    ensures forall i :: 0 <= i < |r| ==> r[i].value != []
    ensures |r| <= |candidates|
  {
    if |candidates| == 0 then []
    else
      var c := candidates[0];
      match Detail(c.caption, c.value)
      case None => Visible(candidates[1..])
      case Some(line) => [line] + Visible(candidates[1..])
  }

  /** A column renders piecewise, one candidate at a time: an empty value
      is dropped, any other candidate kept in its place, so order and
      repetition are preserved. */
  lemma {:induction false} VisibleConcat(a: seq<DetailLine>, b: seq<DetailLine>)
    ensures Visible(a + b) == Visible(a) + Visible(b)
  {
    if a != [] {
      assert (a + b)[0] == a[0];
      assert (a + b)[1..] == a[1..] + b;
      VisibleConcat(a[1..], b);
    } else {
      assert a + b == b;
    }
  }

  /** One candidate renders as itself exactly when its value is non-empty. */
  lemma VisibleOne(c: DetailLine)
    ensures Visible([c]) == if c.value == [] then [] else [c]
  {
  }

  /** Every detail a leak card may show, in display order: sixteen
      candidates, of which the address, the three enumerated values, the
      access code and the three flags are never empty. The comments line
      sits behind its own truthiness test, which is `Detail`'s test. */
  function LeakCandidates(leak: LeakDetails): (r: seq<DetailLine>)
    ensures |r| == 16
    ensures forall i :: (i == 1 || 8 <= i <= 14) ==> r[i].value != []
  {
    [ DetailLine("Site Name", leak.siteName),
      DetailLine("Address", AddressValue(leak.siteAddress, leak.siteAddress2, leak.siteCity, leak.siteZip)),
      DetailLine("Tenant", leak.tenantBusinessName),
      DetailLine("Tenant Contact", leak.tenantContactName),
      DetailLine("Phone", leak.tenantContactPhone),
      DetailLine("Cell", leak.tenantContactCell),
      DetailLine("Email", leak.tenantContactEmail),
      DetailLine("Hours", leak.hoursOfOperation),
      DetailLine("Leak Location", LocationValue(leak.leakLocation)),
      DetailLine("Leak Near", LeakNearValue(leak.leakNearOther, leak.leakNear)),
      DetailLine("Roof Pitch", RoofPitchValue(leak.roofPitch)),
      DetailLine("Access Code", AccessCodeValue(leak.hasAccessCode, leak.accessCode)),
      DetailLine("Saturday Access", YesNo(leak.isSaturdayAccessPermitted)),
      DetailLine("Key Required", YesNo(leak.isKeyRequired)),
      DetailLine("Ladder Required", YesNo(leak.isLadderRequired)),
      DetailLine("Comments", leak.comments) ]
  }

  /** `LeakCard`: a title over the column of the leak's non-empty details. */
  datatype LeakCardView = LeakCardView(title: string, leak: LeakDetails) {
    function Lines(): seq<DetailLine> {
      Visible(LeakCandidates(leak))
    }
  }

  /** The address, the three enumerated values, the access code and the
      three flags are never empty, so every leak card shows them. */
  lemma LeakCardAlwaysShows(card: LeakCardView)
    ensures var leak, lines := card.leak, card.Lines();
      && DetailLine("Address", AddressValue(leak.siteAddress, leak.siteAddress2, leak.siteCity, leak.siteZip)) in lines
      && DetailLine("Leak Location", LocationValue(leak.leakLocation)) in lines
      && DetailLine("Leak Near", LeakNearValue(leak.leakNearOther, leak.leakNear)) in lines
      && DetailLine("Roof Pitch", RoofPitchValue(leak.roofPitch)) in lines
      && DetailLine("Access Code", AccessCodeValue(leak.hasAccessCode, leak.accessCode)) in lines
      && DetailLine("Saturday Access", YesNo(leak.isSaturdayAccessPermitted)) in lines
      && DetailLine("Key Required", YesNo(leak.isKeyRequired)) in lines
      && DetailLine("Ladder Required", YesNo(leak.isLadderRequired)) in lines
  {
    var c := LeakCandidates(card.leak);
    assert c[1] in c && c[8] in c && c[9] in c && c[10] in c;
    assert c[11] in c && c[12] in c && c[13] in c && c[14] in c;
  }

  /** The title of the `k`-th leak card: the primary leak first, then the
      additional leaks numbered from 1. */
  function CardTitle(k: nat): (r: string)
    ensures r != [] && (r[0] == 'P' <==> k == 0)
    ensures k > 0 ==> |r| > 16 && r[16..] == NatToString(k)
  {
    if k == 0 then "Primary Leak" else "Additional Leak " + NatToString(k)
  }

  /** No two leak cards carry the same title. */
  lemma CardTitlesDistinct(i: nat, j: nat)
    requires i < j
    ensures CardTitle(i) != CardTitle(j)
  {
    if i > 0 && CardTitle(i) == CardTitle(j) {
      NatToStringInjective(i, j);
    }
  }

  /** The leak cards: the primary leak first, then each additional leak in
      order, each titled by its position. */
  function LeakCards(data: ServiceOrderStatusData): (r: seq<LeakCardView>)
    ensures |r| == 1 + |data.additionalLeaks|
    ensures r[0].leak == data.leakDetails
    ensures forall i :: 0 <= i < |data.additionalLeaks| ==> r[i + 1].leak == data.additionalLeaks[i]
    ensures forall k :: 0 <= k < |r| ==> r[k].title == CardTitle(k)
  {
    var more := data.additionalLeaks;
    seq(1 + |more|, k requires 0 <= k <= |more| =>
      LeakCardView(CardTitle(k), if k == 0 then data.leakDetails else more[k - 1]))
  }

  /** No two leak cards of an order carry the same title. */
  lemma LeakCardTitlesDistinct(data: ServiceOrderStatusData, i: nat, j: nat)
    requires i < j < |LeakCards(data)|
    ensures LeakCards(data)[i].title != LeakCards(data)[j].title
  {
    CardTitlesDistinct(i, j);
  }

  /** The contact column: at most the four lines, none empty, each shown
      exactly when its value is non-empty. */
  function ContactLines(client: ClientInfo): (r: seq<DetailLine>)
    ensures |r| <= 4 && forall i :: 0 <= i < |r| ==> r[i].value != []
    ensures DetailLine("Account", client.accountName) in r <==> client.accountName != []
    ensures DetailLine("Contact", client.accountContactName) in r <==> client.accountContactName != []
    ensures DetailLine("Email", client.email) in r <==> client.email != []
    ensures DetailLine("Phone", client.phone) in r <==> client.phone != []
  {
    Visible([ DetailLine("Account", client.accountName),
              DetailLine("Contact", client.accountContactName),
              DetailLine("Email", client.email),
              DetailLine("Phone", client.phone) ])
  }

  /** The billing column: the address line always, the bill-to name and
      the e-mail exactly when non-empty. */
  function BillingLines(billing: BillingInfo): (r: seq<DetailLine>)
    ensures 1 <= |r| <= 3 && forall i :: 0 <= i < |r| ==> r[i].value != []
    ensures DetailLine("Address", AddressValue(billing.billToAddress, billing.billToAddress2,
                                               billing.billToCity, billing.billToZip)) in r
    ensures DetailLine("Bill To", billing.entityBillToName) in r <==> billing.entityBillToName != []
    ensures DetailLine("Email", billing.billToEmail) in r <==> billing.billToEmail != []
  {
    Visible([ DetailLine("Bill To", billing.entityBillToName),
              DetailLine("Address", AddressValue(billing.billToAddress, billing.billToAddress2,
                                                 billing.billToCity, billing.billToZip)),
              DetailLine("Email", billing.billToEmail) ])
  }

  // ---------------------------------------------------------------------
  // The rendered screen
  // ---------------------------------------------------------------------

  datatype Badge = Badge(text: string, colorClass: string)

  datatype OrderDetails = OrderDetails(
    contact: seq<DetailLine>, billing: seq<DetailLine>, leaks: seq<LeakCardView>)

  /** The status view. The two dates are the ISO strings handed to the
      date formatter. */
  datatype StatusView = StatusView(
    message: string, badge: Option<Badge>, referenceId: string,
    requested: Option<string>, created: Option<string>, details: Option<OrderDetails>)

  datatype Screen = Loading | ErrorScreen(error: string) | StatusScreen(view: StatusView)

  /** The buttons a screen offers: both the error screen's "Retry" and the
      status view's "Refresh Status" run the fetch again. */
  datatype PanelAction = RunFetch | Dismiss

  function Actions(screen: Screen): (r: seq<PanelAction>)
    ensures screen.Loading? <==> r == []
    ensures !screen.Loading? ==> r == [RunFetch, Dismiss]
  {
    if screen.Loading? then [] else [RunFetch, Dismiss]
  }

  /** What the result of a status call may be. */
  datatype StatusResult = StatusResult(
    status: Option<string>, data: Option<ServiceOrderStatusData>, message: string)

  /** What a failed call throws: an `Error` with its message, or any other
      value. */
  datatype Thrown = ErrorObject(message: string) | NonErrorValue

  datatype FetchOutcome = Fetched(result: StatusResult) | FetchThrew(thrown: Thrown)

  /** The text the panel keeps for a thrown value. */
  function ErrorText(thrown: Thrown): (r: string)
    ensures thrown.ErrorObject? ==> r == thrown.message
    ensures thrown.NonErrorValue? ==> r == "Failed to check status."
  {
    match thrown
    case ErrorObject(m) => m
    case NonErrorValue => "Failed to check status."
  }

  class OrderStatusPanelComponent {
    const referenceId: string
    var status: Option<string>
    var data: Option<ServiceOrderStatusData>
    var message: string
    var isLoading: bool
    var error: string

    /** Mounting: nothing fetched yet, and the loading screen up. */
    constructor(referenceId: string)
      ensures this.referenceId == referenceId
      ensures status == None && data == None && message == "" && error == ""
      ensures isLoading
      ensures View() == Loading
    {
      this.referenceId := referenceId;
      status := None;
      data := None;
      message := "";
      isLoading := true;
      error := "";
    }

    /** The screen for the current state: loading first, then a non-empty
        error, then the status view. */
    function View(): (r: Screen)
      reads this
      ensures r.Loading? <==> isLoading
      ensures r.ErrorScreen? <==> !isLoading && error != []
      ensures r.ErrorScreen? ==> r.error == error
      ensures r.StatusScreen? ==>
        && r.view.message == message
        && r.view.referenceId == referenceId
        && (r.view.badge.None? <==> status.None? || status.value == [])
        && (r.view.badge.Some? ==>
              r.view.badge.value == Badge(StatusLabel(status.value), StatusColor(status.value)))
        && (r.view.details.Some? <==> data.Some?)
        && (r.view.details.Some? ==> r.view.details.value.leaks == LeakCards(data.value))
    {
      if isLoading then Loading
      else if error != [] then ErrorScreen(error)
      else
        var badge := if status.Some? && status.value != [] then
          Some(Badge(StatusLabel(status.value), StatusColor(status.value))) else None;
        var requested := if data.Some? && data.value.requestDate != [] then Some(data.value.requestDate) else None;
        var created := if data.Some? && data.value.createdAt != [] then Some(data.value.createdAt) else None;
        var details := if data.Some? then
          Some(OrderDetails(ContactLines(data.value.client), BillingLines(data.value.billing),
                            LeakCards(data.value))) else None;
        StatusScreen(StatusView(message, badge, referenceId, requested, created, details))
    }

    /** `fetchStatus`: a result replaces status, data and message and clears
        the error; a throw keeps them and records the error text; loading
        is over either way. */
    method FetchStatus(outcome: FetchOutcome)
      modifies this
      ensures outcome.Fetched? ==>
        && status == outcome.result.status
        && data == outcome.result.data
        && message == outcome.result.message
        && error == ""
      ensures outcome.FetchThrew? ==>
        && status == old(status) && data == old(data) && message == old(message)
        && error == ErrorText(outcome.thrown)
      ensures !isLoading
      ensures outcome.Fetched? ==> View().StatusScreen?
      ensures View().ErrorScreen? <==> outcome.FetchThrew? && ErrorText(outcome.thrown) != []
    {
      match outcome {
        case Fetched(result) =>
          status := result.status;
          data := result.data;
          message := result.message;
          error := "";
        case FetchThrew(thrown) =>
          error := ErrorText(thrown);
      }
      isLoading := false;
    }
  }
}
