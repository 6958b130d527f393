/** The intake header's lookup box: the lookup mode it infers from the typed
    value, and the lookup it dispatches
    (components/emergencyLeakService/IntakeHeader.tsx). */
module IntakeHeader {
  import opened JsText

  datatype LookupMode = EmailMode | ServiceOrderMode

  /** Which of the two lookup callbacks a handler calls, if any. */
  datatype LookupCall = NoCall | LookupByEmail | LookupByServiceOrder

  /** The mode after the value changes to `value`: e-mail when it contains
      `@`; otherwise service order (from e-mail mode the source switches
      back, from service-order mode it stays). */
  function NextLookupMode(mode: LookupMode, value: string): (r: LookupMode)
    ensures r == EmailMode <==> Includes(value, '@')
  {
    if Includes(value, '@') then EmailMode
    else if mode == EmailMode && !Includes(value, '@') then ServiceOrderMode
    else mode
  }

  /** The mode depends only on the new value, never on the previous mode. */
  lemma NextModeForgetsPreviousMode(m1: LookupMode, m2: LookupMode, value: string)
    ensures NextLookupMode(m1, value) == NextLookupMode(m2, value)
  {
  }

  /** The button's `disabled` condition: a lookup is running, or the value
      trims to nothing. */
  function LookupButtonDisabled(lookupValue: string, isLookingUp: bool): (r: bool)
    ensures r <==> isLookingUp || Trim(lookupValue) == []
  {
    BlankIffTrimEmpty(lookupValue);
    isLookingUp || IsBlank(lookupValue)
  }

  /** What `handleLookup` calls: nothing when the trimmed value is empty or
      a lookup is running; otherwise the callback of the current mode. */
  function LookupDispatch(mode: LookupMode, lookupValue: string, isLookingUp: bool): (r: LookupCall)
    ensures r == NoCall <==> Trim(lookupValue) == [] || isLookingUp
    ensures r == LookupByEmail <==> Trim(lookupValue) != [] && !isLookingUp && mode == EmailMode
    ensures r == LookupByServiceOrder <==>
      Trim(lookupValue) != [] && !isLookingUp && mode == ServiceOrderMode
  {
    if Trim(lookupValue) == [] || isLookingUp then NoCall
    else match mode
      case EmailMode => LookupByEmail
      case ServiceOrderMode => LookupByServiceOrder
  }

  /** The button is disabled exactly when clicking it would do nothing. */
  lemma ButtonDisabledIffNoOp(mode: LookupMode, lookupValue: string, isLookingUp: bool)
    ensures LookupButtonDisabled(lookupValue, isLookingUp)
        <==> LookupDispatch(mode, lookupValue, isLookingUp) == NoCall
  {
  }

  /** The header's one piece of state, `lookupMode`. The lookup value and the
      busy flag are props owned by the parent, so they are parameters. */
  class IntakeHeaderComponent {
    var lookupMode: LookupMode

    constructor()
      ensures lookupMode == ServiceOrderMode
    {
      lookupMode := ServiceOrderMode;
    }

    /** `handleLookupValueChange`: forwards the value unchanged to
        `onLookupValueChange`, then updates the mode. */
    method HandleLookupValueChange(value: string) returns (forwarded: string)
      modifies this
      ensures forwarded == value
      ensures lookupMode == NextLookupMode(old(lookupMode), value)
      ensures lookupMode == EmailMode <==> Includes(value, '@')
    {
      forwarded := value;
      lookupMode := NextLookupMode(lookupMode, value);
    }

    /** `handleLookup`: at most one callback, chosen by the mode. */
    method HandleLookup(lookupValue: string, isLookingUp: bool) returns (call: LookupCall)
      ensures call == LookupDispatch(lookupMode, lookupValue, isLookingUp)
    {
      call := LookupDispatch(lookupMode, lookupValue, isLookingUp);
    }

    /** `handleKeyDown`: only Enter cancels the default action and runs
        `handleLookup`; any other key does nothing. */
    method HandleKeyDown(key: string, lookupValue: string, isLookingUp: bool)
      returns (preventDefault: bool, call: LookupCall)
      ensures preventDefault <==> key == "Enter"
      ensures call == if key == "Enter" then LookupDispatch(lookupMode, lookupValue, isLookingUp)
                      else NoCall
    {
      preventDefault := false;
      call := NoCall;
      if key == "Enter" {
        preventDefault := true;
        call := HandleLookup(lookupValue, isLookingUp);
      }
    }
  }
}
