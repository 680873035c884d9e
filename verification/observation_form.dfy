/**
 * The observation form controller as a state machine. Each awaited call is
 * one atomic event: the edit-mode read settling, a field change, a submit
 * (which may issue one request), a submit call settling, and cancel.
 */
module ObservationForm {
  import opened Wrappers
  import opened Api
  import NumberInput

  const LatitudeField: string := "latitude"
  const LongitudeField: string := "longitude"
  const SkyConditionField: string := "sky_condition"
  const AirTemperatureField: string := "air_temperature"
  const AirTemperatureUnitField: string := "air_temperature_unit"

  const FieldNames: set<string> :=
    {LatitudeField, LongitudeField, SkyConditionField, AirTemperatureField, AirTemperatureUnitField}

  /** Cloudless, some clouds, cloud covered, foggy, raining, snowing, hailing, thunderstorms. */
  const SkyConditions: set<string> := {"100", "101", "102", "103", "104", "106", "108", "109"}

  /** Celsius and Fahrenheit. */
  const TemperatureUnits: set<string> := {"C", "F"}

  const EditMode: string := "edit"
  const CreateMode: string := "create"
  const RootPath: string := "/"

  // ---------------------------------------------------------------------------
  // The draft and its declared constraints

  /** The five fields, in the order of the initial state (src/observations/ObservationForm.js:15-21), holding the given texts. */
  function Draft(latitude: string, longitude: string, skyCondition: string,
                 airTemperature: string, unit: string): (d: Record)
    ensures d.Keys == FieldNames
  {
    map[LatitudeField := latitude, LongitudeField := longitude, SkyConditionField := skyCondition,
        AirTemperatureField := airTemperature, AirTemperatureUnitField := unit]
  }

  function EmptyDraft(): (d: Record)
    ensures d.Keys == FieldNames
    ensures forall k :: k in d ==> d[k] == ""
  {
    Draft("", "", "", "", "")
  }

  /** A constraint one input of the form declares on its field. */
  datatype Constraint =
    | NumberIn(field: string, lo: int, hi: int)
    | OneOf(field: string, options: set<string>)

  /** The inputs in the order the form lays them out; every one is `required`. */
  const Constraints: seq<Constraint> := [
    NumberIn(LatitudeField, -90, 90),
    NumberIn(LongitudeField, -180, 180),
    NumberIn(AirTemperatureField, -50, 107),
    OneOf(AirTemperatureUnitField, TemperatureUnits),
    OneOf(SkyConditionField, SkyConditions)]

  /** The field is present and filled in (`required`), and its value passes the check. */
  predicate Meets(d: Record, c: Constraint) {
    && c.field in d
    && d[c.field] != ""
    && match c
       case NumberIn(f, lo, hi) => NumberInput.NumberFieldValid(d[f], lo, hi)
       case OneOf(f, options) => d[f] in options
  }

  /** The constraints the browser enforces before the submit handler runs. */
  predicate Valid(d: Record) {
    forall i :: 0 <= i < |Constraints| ==> Meets(d, Constraints[i])
  }

  /** Every field is required: a valid draft has all five filled in. */
  lemma ValidMeansFilledIn(d: Record)
    requires Valid(d)
    ensures forall k :: k in FieldNames ==> k in d && d[k] != ""
  {
    ValidValues(d);
  }

  /** A valid draft's values: whole numbers within the ranges, codes from the option sets. */
  lemma ValidValues(d: Record)
    requires Valid(d)
    ensures LatitudeField in d && d[LatitudeField] != ""
      && NumberInput.NumberFieldValid(d[LatitudeField], -90, 90)
    ensures LongitudeField in d && d[LongitudeField] != ""
      && NumberInput.NumberFieldValid(d[LongitudeField], -180, 180)
    ensures AirTemperatureField in d && d[AirTemperatureField] != ""
      && NumberInput.NumberFieldValid(d[AirTemperatureField], -50, 107)
    ensures AirTemperatureUnitField in d && d[AirTemperatureUnitField] != ""
      && d[AirTemperatureUnitField] in TemperatureUnits
    ensures SkyConditionField in d && d[SkyConditionField] != ""
      && d[SkyConditionField] in SkyConditions
  {
    assert Meets(d, Constraints[0]);
    assert Meets(d, Constraints[1]);
    assert Meets(d, Constraints[2]);
    assert Meets(d, Constraints[3]);
    assert Meets(d, Constraints[4]);
  }

  /** The numeric fields of a valid draft denote whole numbers within their ranges. */
  lemma ValidRanges(d: Record)
    requires Valid(d)
    ensures LatitudeField in d && NumberInput.ParseNumber(d[LatitudeField]).Some?
    ensures var x := NumberInput.ParseNumber(d[LatitudeField]).value;
      NumberInput.IsWhole(x) && x.mantissa == NumberInput.WholePart(x) * NumberInput.Pow10(x.scale)
      && -90 <= NumberInput.WholePart(x) <= 90
    ensures LongitudeField in d && NumberInput.ParseNumber(d[LongitudeField]).Some?
    ensures var x := NumberInput.ParseNumber(d[LongitudeField]).value;
      NumberInput.IsWhole(x) && x.mantissa == NumberInput.WholePart(x) * NumberInput.Pow10(x.scale)
      && -180 <= NumberInput.WholePart(x) <= 180
    ensures AirTemperatureField in d && NumberInput.ParseNumber(d[AirTemperatureField]).Some?
    ensures var x := NumberInput.ParseNumber(d[AirTemperatureField]).value;
      NumberInput.IsWhole(x) && x.mantissa == NumberInput.WholePart(x) * NumberInput.Pow10(x.scale)
      && -50 <= NumberInput.WholePart(x) <= 107
  {
    ValidValues(d);
    NumberInput.ValidIsWholeInRange(d[LatitudeField], -90, 90);
    NumberInput.ValidIsWholeInRange(d[LongitudeField], -180, 180);
    NumberInput.ValidIsWholeInRange(d[AirTemperatureField], -50, 107);
  }

  /** Meeting each of the five constraints is validity. */
  lemma ValidByParts(d: Record)
    requires Meets(d, NumberIn(LatitudeField, -90, 90))
    requires Meets(d, NumberIn(LongitudeField, -180, 180))
    requires Meets(d, NumberIn(AirTemperatureField, -50, 107))
    requires Meets(d, OneOf(AirTemperatureUnitField, TemperatureUnits))
    requires Meets(d, OneOf(SkyConditionField, SkyConditions))
    ensures Valid(d)
  {
    forall i | 0 <= i < |Constraints|
      ensures Meets(d, Constraints[i])
    {
      if i == 0 {
      } else if i == 1 {
      } else if i == 2 {
      } else if i == 3 {
      }
    }
  }

  /**
   * The converse of `ValidValues`: five texts that each pass their input's
   * check make a valid draft.
   */
  lemma DraftValid(latitude: string, longitude: string, skyCondition: string, airTemperature: string, unit: string)
    requires NumberInput.NumberFieldValid(latitude, -90, 90)
    requires NumberInput.NumberFieldValid(longitude, -180, 180)
    requires NumberInput.NumberFieldValid(airTemperature, -50, 107)
    requires skyCondition in SkyConditions && unit in TemperatureUnits
    ensures Valid(Draft(latitude, longitude, skyCondition, airTemperature, unit))
  {
    var d := Draft(latitude, longitude, skyCondition, airTemperature, unit);
    NumberInput.EmptyIsInvalid(-90, 90);
    NumberInput.EmptyIsInvalid(-180, 180);
    NumberInput.EmptyIsInvalid(-50, 107);
    ValidByParts(d);
  }

  /** Whole numbers within the ranges, as the inputs render them, and listed codes make a valid draft. */
  lemma WholeValuesValid(latitude: int, longitude: int, skyCondition: string, airTemperature: int, unit: string)
    requires -90 <= latitude <= 90 && -180 <= longitude <= 180 && -50 <= airTemperature <= 107
    requires skyCondition in SkyConditions && unit in TemperatureUnits
    ensures Valid(Draft(NumberInput.IntString(latitude), NumberInput.IntString(longitude), skyCondition,
                        NumberInput.IntString(airTemperature), unit))
  {
    NumberInput.IntStringValid(latitude, -90, 90);
    NumberInput.IntStringValid(longitude, -180, 180);
    NumberInput.IntStringValid(airTemperature, -50, 107);
    DraftValid(NumberInput.IntString(latitude), NumberInput.IntString(longitude), skyCondition,
               NumberInput.IntString(airTemperature), unit);
  }

  /** The initial draft cannot be submitted. */
  lemma EmptyDraftInvalid()
    ensures !Valid(EmptyDraft())
  {
    assert !Meets(EmptyDraft(), Constraints[0]);
  }

  // ---------------------------------------------------------------------------
  // State, events and transitions

  /**
   * `mode` and `routeId` are fixed props; `location` is the last path pushed
   * to history; `reading` says the edit-mode read is in flight and
   * `inFlight` counts submit calls not yet settled.
   */
  datatype Form = Form(
    mode: string,
    routeId: string,
    draft: Record,
    error: Option<string>,
    location: Option<string>,
    reading: bool,
    inFlight: nat)

  datatype Event =
    | ReadSettled(read: Transport<Record>)
    | Change(name: string, value: string)
    | Submit
    | SubmitSettled(result: Transport<Record>)
    | Cancel

  /** A transition: the next state and the access-layer call it makes, if any. */
  datatype Transition = Transition(next: Form, issued: Option<ApiCall>)

  /** The first render and its effect: in edit mode the effect reads the route's record, without a signal. */
  function Init(mode: string, routeId: string): Transition {
    Transition(
      Form(mode, routeId, EmptyDraft(), None, None, mode == EditMode, 0),
      if mode == EditMode then Some(ApiCall(ReadOp(routeId), None)) else None)
  }

  /** `{ ...value }`: a record is copied as is, null and undefined spread to nothing. */
  function Spread(o: Outcome<Record>): Record {
    if o.ResolveData? then o.value else map[]
  }

  /** The operation the submit handler calls for a mode it recognises. */
  function SubmitOp(mode: string, draft: Record): Operation {
    if mode == EditMode then UpdateOp(draft) else CreateOp(draft)
  }

  /** The edit-mode read settling: its record replaces the draft, its failure becomes the error. */
  function ReadResult(s: Form, t: Transport<Record>): Transition {
    if !s.reading then Transition(s, None)
    else
      var o := FetchJson(t);
      if o.Reject? then Transition(s.(error := Some(o.message), reading := false), None)
      else Transition(s.(draft := Spread(o), reading := false), None)
  }

  /** The change handler: the named field takes the typed value. */
  function ChangeField(s: Form, name: string, value: string): Transition {
    Transition(s.(draft := s.draft[name := value]), None)
  }

  /**
   * The submit handler, reached only when the browser's constraint check
   * passes: one call, chosen by the mode, with the current draft.
   */
  function SubmitDraft(s: Form): Transition {
    if Valid(s.draft) && (s.mode == EditMode || s.mode == CreateMode) then
      Transition(s.(inFlight := s.inFlight + 1), Some(ApiCall(SubmitOp(s.mode, s.draft), None)))
    else Transition(s, None)
  }

  /** A submit call settling: success navigates to "/", failure becomes the error. */
  function SaveResult(s: Form, t: Transport<Record>): Transition {
    if s.inFlight == 0 then Transition(s, None)
    else
      var o := FetchJson(t);
      if o.Reject? then Transition(s.(error := Some(o.message), inFlight := s.inFlight - 1), None)
      else Transition(s.(location := Some(RootPath), inFlight := s.inFlight - 1), None)
  }

  /** The cancel handler: navigate to "/". */
  function CancelEdit(s: Form): Transition {
    Transition(s.(location := Some(RootPath)), None)
  }

  /** One event, handled by the handler or continuation it belongs to. */
  function Step(s: Form, e: Event): Transition {
    match e
    case ReadSettled(t) => ReadResult(s, t)
    case Change(name, value) => ChangeField(s, name, value)
    case Submit => SubmitDraft(s)
    case SubmitSettled(t) => SaveResult(s, t)
    case Cancel => CancelEdit(s)
  }

  // ---------------------------------------------------------------------------
  // Single transitions

  /** The initial state: no error, the five empty fields, and a read only in edit mode. */
  lemma InitialState(mode: string, routeId: string)
    ensures Init(mode, routeId).next.error.None?
    ensures Init(mode, routeId).next.draft.Keys == FieldNames
    ensures forall k :: k in FieldNames ==> Init(mode, routeId).next.draft[k] == ""
    ensures Init(mode, routeId).issued.Some? <==> mode == EditMode
    ensures mode == EditMode ==>
      Decode(Sent(Init(mode, routeId).issued.value)) == Some((ReadOp(routeId), None))
  {
    if mode == EditMode {
      DecodeBuild(ReadOp(routeId), None);
    }
  }

  /**
   * The read is sent without any signal, so aborting the effect's controller
   * (or any other) cannot cancel it.
   */
  lemma EditReadNeverCancelled(routeId: string, signal: Signal)
    ensures Init(EditMode, routeId).issued.Some?
    ensures Sent(Init(EditMode, routeId).issued.value) == Request(ItemUrl(routeId), Options(None, false, None, None))
    ensures Sent(Init(EditMode, routeId).issued.value).options.signal != Some(signal)
  {
  }

  /** A change sets one field, adds it if unseen, and leaves everything else alone. */
  lemma ChangeSetsOneField(s: Form, name: string, value: string)
    ensures Step(s, Change(name, value)).issued.None?
    ensures Step(s, Change(name, value)).next.draft.Keys == s.draft.Keys + {name}
    ensures Step(s, Change(name, value)).next.draft[name] == value
    ensures forall k :: k in s.draft && k != name ==> Step(s, Change(name, value)).next.draft[k] == s.draft[k]
    ensures Step(s, Change(name, value)).next.(draft := s.draft) == s
  {
  }

  /**
   * Submit dispatches on the mode: update in edit mode, create in create mode,
   * and nothing at all for an invalid draft or any other mode.
   */
  lemma SubmitDispatch(s: Form)
    ensures Step(s, Submit).issued.Some? <==> Valid(s.draft) && (s.mode == EditMode || s.mode == CreateMode)
    ensures Step(s, Submit).issued.None? ==> Step(s, Submit).next == s
    ensures Step(s, Submit).issued.Some? ==> Step(s, Submit).next == s.(inFlight := s.inFlight + 1)
    ensures Step(s, Submit).issued.Some? && s.mode == EditMode ==>
      Decode(Sent(Step(s, Submit).issued.value)) == Some((UpdateOp(s.draft), None))
      && Sent(Step(s, Submit).issued.value).url == ItemUrl(IdText(s.draft))
    ensures Step(s, Submit).issued.Some? && s.mode == CreateMode ==>
      Decode(Sent(Step(s, Submit).issued.value)) == Some((CreateOp(s.draft), None))
      && Sent(Step(s, Submit).issued.value).url == CollectionUrl()
  {
    if s.mode == EditMode {
      DecodeBuild(UpdateOp(s.draft), None);
    } else if s.mode == CreateMode {
      DecodeBuild(CreateOp(s.draft), None);
    }
  }

  /**
   * A submit call that fails in transport, or whose body cannot be read, with
   * anything but an `AbortError` shows the exception's message and keeps the
   * draft and the location.
   */
  lemma NetworkFailureKeepsDraft(s: Form, e: Exception, status: int)
    requires s.inFlight > 0 && e.name != AbortErrorName && status != NoContentStatus
    ensures Step(s, SubmitSettled(Thrown(e))).issued.None?
    ensures Step(s, SubmitSettled(Thrown(e))).next.error == Some(e.message)
    ensures Step(s, SubmitSettled(Thrown(e))).next.draft == s.draft
    ensures Step(s, SubmitSettled(Thrown(e))).next.location == s.location
    ensures Step(s, SubmitSettled(Response(status, Unparsable(e)))).issued.None?
    ensures Step(s, SubmitSettled(Response(status, Unparsable(e)))).next.error == Some(e.message)
    ensures Step(s, SubmitSettled(Response(status, Unparsable(e)))).next.draft == s.draft
    ensures Step(s, SubmitSettled(Response(status, Unparsable(e)))).next.location == s.location
  {
    FetchJsonOutcomes<Record>(Thrown(e));
    FetchJsonOutcomes<Record>(Response(status, Unparsable(e)));
  }

  /**
   * A 204, a swallowed `AbortError`, or a payload with a falsy `error` all
   * count as success: the form pushes "/" and keeps its error and draft.
   */
  lemma ResolvedSubmitNavigates(s: Form, body: Body<Record>, e: Exception, status: int, data: Option<Record>)
    requires s.inFlight > 0 && e.name == AbortErrorName && status != NoContentStatus
    ensures var n := Step(s, SubmitSettled(Response(NoContentStatus, body))).next;
      n.location == Some(RootPath) && n.error == s.error && n.draft == s.draft
    ensures var n := Step(s, SubmitSettled(Thrown(e))).next;
      n.location == Some(RootPath) && n.error == s.error && n.draft == s.draft
    ensures var n := Step(s, SubmitSettled(Response(status, Unparsable(e)))).next;
      n.location == Some(RootPath) && n.error == s.error && n.draft == s.draft
    ensures var n := Step(s, SubmitSettled(Response(status, Parsed(Payload(None, data))))).next;
      n.location == Some(RootPath) && n.error == s.error && n.draft == s.draft
    ensures var n := Step(s, SubmitSettled(Response(status, Parsed(Payload(Some(""), data))))).next;
      n.location == Some(RootPath) && n.error == s.error && n.draft == s.draft
  {
    FetchJsonOutcomes<Record>(Response(NoContentStatus, body));
    FetchJsonOutcomes<Record>(Thrown(e));
    FetchJsonOutcomes<Record>(Response(status, Unparsable(e)));
  }

  /**
   * The effect of a settled submit call, read off the transport result: the
   * form navigates exactly when `fetchJson` resolves, and shows an error
   * exactly when it rejects. The draft is never touched.
   */
  lemma SubmitSettledEffects(s: Form, t: Transport<Record>)
    requires s.inFlight > 0
    ensures var resolves := NoContent(t)
      || (Raised(t).Some? && Raised(t).value.name == AbortErrorName)
      || (Inspected(t).Some? && !Truthy(Inspected(t).value.error));
      Step(s, SubmitSettled(t)).next.location == (if resolves then Some(RootPath) else s.location)
    ensures Step(s, SubmitSettled(t)).next.error ==
      if Raised(t).Some? && Raised(t).value.name != AbortErrorName then Some(Raised(t).value.message)
      else if Inspected(t).Some? && Truthy(Inspected(t).value.error) then Some(Inspected(t).value.error.value)
      else s.error
    ensures Step(s, SubmitSettled(t)).next.draft == s.draft
    ensures Step(s, SubmitSettled(t)).issued.None?
  {
    FetchJsonOutcomes(t);
    TransportPartition(t);
  }

  /** A service-reported error is shown verbatim and nothing navigates, whatever the status. */
  lemma ServiceErrorShown(s: Form, status: int, message: string, data: Option<Record>)
    requires s.inFlight > 0 && status != NoContentStatus && message != ""
    ensures Step(s, SubmitSettled(Response(status, Parsed(Payload(Some(message), data))))).next.error == Some(message)
    ensures Step(s, SubmitSettled(Response(status, Parsed(Payload(Some(message), data))))).next.location == s.location
    ensures Step(s, SubmitSettled(Response(status, Parsed(Payload(Some(message), data))))).next.draft == s.draft
  {
    PayloadErrorRejects(status, message, data);
  }

  /**
   * The effect of the settled edit-mode read, read off the transport result.
   * A payload with a falsy `error` and present `data` becomes the draft.
   * A 204, a swallowed `AbortError`, or a falsy `error` with no `data`
   * spreads to an empty draft. Anything else keeps the draft and shows the
   * exception's message or the payload's `error`. The location is kept, no
   * call is made, and the read is no longer pending.
   */
  lemma ReadSettledEffects(s: Form, t: Transport<Record>)
    requires s.reading
    ensures Step(s, ReadSettled(t)).next.draft ==
      if Inspected(t).Some? && !Truthy(Inspected(t).value.error) && Inspected(t).value.data.Some? then
        Inspected(t).value.data.value
      else if NoContent(t)
        || (Raised(t).Some? && Raised(t).value.name == AbortErrorName)
        || (Inspected(t).Some? && !Truthy(Inspected(t).value.error)) then
        map[]
      else s.draft
    ensures Step(s, ReadSettled(t)).next.error ==
      if Raised(t).Some? && Raised(t).value.name != AbortErrorName then Some(Raised(t).value.message)
      else if Inspected(t).Some? && Truthy(Inspected(t).value.error) then Some(Inspected(t).value.error.value)
      else s.error
    ensures Step(s, ReadSettled(t)).next.location == s.location
    ensures !Step(s, ReadSettled(t)).next.reading && Step(s, ReadSettled(t)).issued.None?
  {
    FetchJsonOutcomes(t);
    TransportPartition(t);
  }

  // ---------------------------------------------------------------------------
  // Runs of events

  datatype Trace = Trace(final: Form, issued: seq<ApiCall>)

  function Calls(o: Option<ApiCall>): seq<ApiCall> {
    if o.Some? then [o.value] else []
  }

  /** Every event is a change of some field other than `field`. */
  predicate EditsOnly(events: seq<Event>, field: string) {
    forall i :: 0 <= i < |events| ==> events[i].Change? && events[i].name != field
  }

  /** Every event is a field change. */
  predicate ChangesOnly(events: seq<Event>) {
    forall i :: 0 <= i < |events| ==> events[i].Change?
  }

  /** Every event is a read result. */
  predicate ReadsOnly(events: seq<Event>) {
    forall i :: 0 <= i < |events| ==> events[i].ReadSettled?
  }

  /** Every event is a press of the cancel button. */
  predicate CancelsOnly(events: seq<Event>) {
    forall i :: 0 <= i < |events| ==> events[i].Cancel?
  }

  /** No event is a cancel or a submit. */
  predicate NeitherCancelNorSubmit(events: seq<Event>) {
    forall i :: 0 <= i < |events| ==> !events[i].Cancel? && !events[i].Submit?
  }

  /** A call the submit handler makes in this mode: for a valid draft, with no signal. */
  predicate SubmitCall(mode: string, c: ApiCall) {
    && ((mode == EditMode && c.op.UpdateOp?) || (mode == CreateMode && c.op.CreateOp?))
    && Valid(c.op.observation)
    && c.signal.None?
  }

  /** The state after the events, and every call made on the way, in order. */
  function Run(s: Form, events: seq<Event>): (r: Trace)
    ensures r.final.mode == s.mode && r.final.routeId == s.routeId
    ensures |r.issued| <= |events|
    decreases |events|
  {
    if events == [] then Trace(s, [])
    else
      var t := Step(s, events[0]);
      var rest := Run(t.next, events[1..]);
      Trace(rest.final, Calls(t.issued) + rest.issued)
  }

  /** The whole life of one form: its first render, then the events. */
  function Session(mode: string, routeId: string, events: seq<Event>): Trace {
    var start := Init(mode, routeId);
    var rest := Run(start.next, events);
    Trace(rest.final, Calls(start.issued) + rest.issued)
  }

  /** Running `a + b` is running `a`, then `b` from where `a` left off; the calls concatenate. */
  lemma {:induction false} RunAppend(s: Form, a: seq<Event>, b: seq<Event>)
    ensures Run(s, a + b) ==
      Trace(Run(Run(s, a).final, b).final, Run(s, a).issued + Run(Run(s, a).final, b).issued)
    decreases |a|
  {
    if a == [] {
      assert a + b == b;
    } else {
      var t := Step(s, a[0]);
      assert (a + b)[0] == a[0] && (a + b)[1..] == a[1..] + b;
      RunAppend(t.next, a[1..], b);
      var mid := Run(t.next, a[1..]);
      var last := Run(mid.final, b).issued;
      assert Calls(t.issued) + (mid.issued + last) == (Calls(t.issued) + mid.issued) + last;
    }
  }

  /** After the first render the form calls nothing but create or update, for valid drafts. */
  lemma {:induction false} RunCallsOnlySubmits(s: Form, events: seq<Event>)
    ensures forall i :: 0 <= i < |Run(s, events).issued| ==> SubmitCall(s.mode, Run(s, events).issued[i])
    ensures s.mode != EditMode && s.mode != CreateMode ==> Run(s, events).issued == []
    decreases |events|
  {
    if events != [] {
      var t := Step(s, events[0]);
      RunCallsOnlySubmits(t.next, events[1..]);
      if t.issued.Some? {
        assert SubmitCall(s.mode, t.issued.value);
      }
    }
  }

  /** The error is never cleared: once shown it stays, whatever follows. */
  lemma {:induction false} ErrorPersists(s: Form, events: seq<Event>)
    requires s.error.Some?
    ensures Run(s, events).final.error.Some?
    decreases |events|
  {
    if events != [] {
      ErrorPersists(Step(s, events[0]).next, events[1..]);
    }
  }

  /** Only "/" is ever pushed to history. */
  lemma {:induction false} OnlyRootPushed(s: Form, events: seq<Event>)
    requires s.location.None? || s.location == Some(RootPath)
    ensures Run(s, events).final.location.None? || Run(s, events).final.location == Some(RootPath)
    decreases |events|
  {
    if events != [] {
      OnlyRootPushed(Step(s, events[0]).next, events[1..]);
    }
  }

  /** The event-class predicates hold of a run's tail when they hold of the run. */
  lemma TailKeeps(events: seq<Event>)
    requires |events| > 0
    ensures CancelsOnly(events) ==> CancelsOnly(events[1..])
    ensures NeitherCancelNorSubmit(events) ==> NeitherCancelNorSubmit(events[1..])
    ensures ChangesOnly(events) ==> ChangesOnly(events[1..])
    ensures ReadsOnly(events) ==> ReadsOnly(events[1..])
  {
    forall i | 0 <= i < |events| - 1
      ensures events[1..][i] == events[i + 1]
    {
    }
  }

  lemma EditsTail(events: seq<Event>, field: string)
    requires |events| > 0
    ensures EditsOnly(events, field) ==> EditsOnly(events[1..], field)
  {
    forall i | 0 <= i < |events| - 1
      ensures events[1..][i] == events[i + 1]
    {
    }
  }

  /** With no call pending, navigation needs a cancel or a submit. */
  lemma {:induction false} NoNavigationWithoutCancelOrSubmit(s: Form, events: seq<Event>)
    requires s.inFlight == 0
    requires NeitherCancelNorSubmit(events)
    ensures Run(s, events).final.location == s.location
    ensures Run(s, events).final.inFlight == 0
    ensures Run(s, events).issued == []
    decreases |events|
  {
    if events != [] {
      TailKeeps(events);
      assert !events[0].Cancel? && !events[0].Submit?;
      NoNavigationWithoutCancelOrSubmit(Step(s, events[0]).next, events[1..]);
    }
  }

  /** Edits to other fields keep a field's presence and value, and call nothing. */
  lemma {:induction false} ChangesKeepField(s: Form, events: seq<Event>, field: string)
    requires EditsOnly(events, field)
    ensures field in Run(s, events).final.draft <==> field in s.draft
    ensures field in s.draft ==> Run(s, events).final.draft[field] == s.draft[field]
    ensures Run(s, events).issued == []
    ensures Run(s, events).final == s.(draft := Run(s, events).final.draft)
    decreases |events|
  {
    if events != [] {
      EditsTail(events, field);
      assert events[0].Change? && events[0].name != field;
      ChangesKeepField(Step(s, events[0]).next, events[1..], field);
    }
  }

  /** Pressing cancel any number of times calls nothing and only moves to the root. */
  lemma {:induction false} CancelsCallNothing(s: Form, events: seq<Event>)
    requires |events| > 0
    requires CancelsOnly(events)
    ensures Run(s, events) == Trace(s.(location := Some(RootPath)), [])
    decreases |events|
  {
    TailKeeps(events);
    assert events[0].Cancel?;
    if |events| > 1 {
      CancelsCallNothing(Step(s, events[0]).next, events[1..]);
    }
  }

  /** The record after the changes among `events`, applied in order; later changes win. */
  function Applied(d: Record, events: seq<Event>): Record
    decreases |events|
  {
    if events == [] then d
    else if events[0].Change? then Applied(d[events[0].name := events[0].value], events[1..])
    else Applied(d, events[1..])
  }

  /** A run of field changes calls nothing and applies the changes to the draft, in order. */
  lemma {:induction false} RunChanges(s: Form, events: seq<Event>)
    requires ChangesOnly(events)
    ensures Run(s, events) == Trace(s.(draft := Applied(s.draft, events)), [])
    decreases |events|
  {
    if events != [] {
      TailKeeps(events);
      assert events[0].Change?;
      RunChanges(Step(s, events[0]).next, events[1..]);
    }
  }

  /** With no read pending, read results change nothing and call nothing. */
  lemma {:induction false} ReadsIgnored(s: Form, events: seq<Event>)
    requires !s.reading
    requires ReadsOnly(events)
    ensures Run(s, events) == Trace(s, [])
    decreases |events|
  {
    if events != [] {
      TailKeeps(events);
      assert events[0].ReadSettled?;
      ReadsIgnored(Step(s, events[0]).next, events[1..]);
    }
  }

  /** Create mode issues no read, so no read result can ever reach its state. */
  lemma CreateIgnoresReads(routeId: string, events: seq<Event>)
    requires ReadsOnly(events)
    ensures Session(CreateMode, routeId, events) == Trace(Init(CreateMode, routeId).next, [])
  {
    ReadsIgnored(Init(CreateMode, routeId).next, events);
  }

  /** In edit mode only the first read result counts: later ones are ignored. */
  lemma LaterReadsIgnored(routeId: string, first: Transport<Record>, later: seq<Event>)
    requires ReadsOnly(later)
    ensures var start := Init(EditMode, routeId).next;
      Run(start, [ReadSettled(first)] + later) == Run(start, [ReadSettled(first)])
  {
    var start := Init(EditMode, routeId).next;
    var after := Step(start, ReadSettled(first)).next;
    assert Run(start, [ReadSettled(first)]) == Trace(after, []);
    ReadsIgnored(after, later);
    RunAppend(start, [ReadSettled(first)], later);
  }

  /**
   * No call of a session carries a signal; in edit mode the first call is the
   * read of the route's id and the rest are updates; in create mode all are
   * creates; in any other mode there are none.
   */
  lemma SessionCalls(mode: string, routeId: string, events: seq<Event>)
    ensures forall i :: 0 <= i < |Session(mode, routeId, events).issued| ==>
      Session(mode, routeId, events).issued[i].signal.None?
    ensures mode == EditMode ==>
      |Session(mode, routeId, events).issued| >= 1
      && Session(mode, routeId, events).issued[0] == ApiCall(ReadOp(routeId), None)
      && forall i :: 1 <= i < |Session(mode, routeId, events).issued| ==>
        Session(mode, routeId, events).issued[i].op.UpdateOp?
    ensures mode == CreateMode ==>
      forall i :: 0 <= i < |Session(mode, routeId, events).issued| ==>
        Session(mode, routeId, events).issued[i].op.CreateOp?
    ensures mode != EditMode && mode != CreateMode ==> Session(mode, routeId, events).issued == []
  {
    RunCallsOnlySubmits(Init(mode, routeId).next, events);
  }

  /** The successful read of `record` as the transport delivers it. */
  function Loaded(record: Record): Transport<Record> {
    Response(200, Parsed(Payload(None, Some(record))))
  }

  /** The edit form just after its read delivered `record`. */
  function LoadedForm(routeId: string, record: Record): Form {
    Step(Init(EditMode, routeId).next, ReadSettled(Loaded(record))).next
  }

  /**
   * In edit mode the fetched record becomes the draft, so its
   * `observation_id` survives any edits of other fields and picks the
   * target of the update request.
   */
  lemma IdFlowsToUpdate(routeId: string, record: Record, edits: seq<Event>)
    requires ObservationIdField in record
    requires EditsOnly(edits, ObservationIdField)
    requires Valid(Run(LoadedForm(routeId, record), edits).final.draft)
    ensures Session(EditMode, routeId, [ReadSettled(Loaded(record))] + edits + [Submit]).issued ==
      [ApiCall(ReadOp(routeId), None)]
      + [ApiCall(UpdateOp(Run(LoadedForm(routeId, record), edits).final.draft), None)]
    ensures ObservationIdField in Run(LoadedForm(routeId, record), edits).final.draft
    ensures Run(LoadedForm(routeId, record), edits).final.draft[ObservationIdField] == record[ObservationIdField]
    ensures Sent(ApiCall(UpdateOp(Run(LoadedForm(routeId, record), edits).final.draft), None)).url
      == ItemUrl(record[ObservationIdField])
  {
    EditsKeepId(routeId, record, edits);
    EditSessionCalls(routeId, record, edits);
  }

  lemma EditsKeepId(routeId: string, record: Record, edits: seq<Event>)
    requires ObservationIdField in record
    requires EditsOnly(edits, ObservationIdField)
    ensures Run(LoadedForm(routeId, record), edits).final.mode == EditMode
    ensures ObservationIdField in Run(LoadedForm(routeId, record), edits).final.draft
    ensures Run(LoadedForm(routeId, record), edits).final.draft[ObservationIdField] == record[ObservationIdField]
    ensures Run(LoadedForm(routeId, record), edits).issued == []
  {
    ReadLoads(routeId, record);
    ChangesKeepField(LoadedForm(routeId, record), edits, ObservationIdField);
  }

  lemma EditSessionCalls(routeId: string, record: Record, edits: seq<Event>)
    requires Run(LoadedForm(routeId, record), edits).issued == []
    requires Run(LoadedForm(routeId, record), edits).final.mode == EditMode
    requires Valid(Run(LoadedForm(routeId, record), edits).final.draft)
    ensures Session(EditMode, routeId, [ReadSettled(Loaded(record))] + edits + [Submit]).issued ==
      [ApiCall(ReadOp(routeId), None)]
      + [ApiCall(UpdateOp(Run(LoadedForm(routeId, record), edits).final.draft), None)]
  {
    var start := Init(EditMode, routeId).next;
    var edited := Run(LoadedForm(routeId, record), edits).final;
    ReadLoads(routeId, record);
    SubmitEdited(edited);
    ThreePhases(start, ReadSettled(Loaded(record)), edits, LoadedForm(routeId, record), edited);
  }

  /** A run of one event, then silent events, then a submit calls only what the submit calls. */
  lemma ThreePhases(start: Form, first: Event, middle: seq<Event>, after: Form, before: Form)
    requires Run(start, [first]) == Trace(after, [])
    requires Run(after, middle) == Trace(before, [])
    ensures Run(start, [first] + middle + [Submit]) == Run(before, [Submit])
  {
    RunAppend(start, [first], middle);
    RunAppend(start, [first] + middle, [Submit]);
  }

  lemma ReadLoads(routeId: string, record: Record)
    ensures LoadedForm(routeId, record) == Init(EditMode, routeId).next.(draft := record, reading := false)
    ensures Run(Init(EditMode, routeId).next, [ReadSettled(Loaded(record))]) == Trace(LoadedForm(routeId, record), [])
  {
    assert FetchJson(Loaded(record)) == ResolveData(record);
  }

  lemma SubmitEdited(s: Form)
    requires s.mode == EditMode && Valid(s.draft)
    ensures Run(s, [Submit]).issued == [ApiCall(UpdateOp(s.draft), None)]
  {
  }

  // ---------------------------------------------------------------------------
  // The create scenario

  /** Latitude 45, longitude -93, cloudless, 70 degrees Fahrenheit. */
  function ScenarioDraft(): Record {
    Draft("45", "-93", "100", "70", "F")
  }

  lemma ScenarioRenderings()
    ensures NumberInput.IntString(45) == "45"
    ensures NumberInput.IntString(-93) == "-93"
    ensures NumberInput.IntString(70) == "70"
  {
    assert NumberInput.NatString(4) == "4";
    assert NumberInput.NatString(9) == "9";
    assert NumberInput.NatString(7) == "7";
  }

  lemma ScenarioDraftValid()
    ensures Valid(ScenarioDraft())
  {
    ScenarioRenderings();
    WholeValuesValid(45, -93, "100", 70, "F");
  }

  /** The user fills in the five fields of the scenario draft, one by one. */
  function ScenarioEdits(): seq<Event> {
    FillIn("45", "-93", "100", "70", "F")
  }

  /** The service answers the create with the saved record, id included. */
  function Saved(saved: Record): Transport<Record> {
    Response(201, Parsed(Payload(None, Some(saved))))
  }

  /**
   * Filling in the five fields and submitting in create mode posts exactly
   * `{ data: draft }` to the collection; the service's answer with the new
   * id sends the user to "/".
   */
  lemma CreateScenario(saved: Record)
    ensures var r := Session(CreateMode, "", ScenarioEdits() + [Submit, SubmitSettled(Saved(saved))]);
      && r.issued == [ApiCall(CreateOp(ScenarioDraft()), None)]
      && r.final.location == Some(RootPath)
      && r.final.error.None?
      && r.final.draft == ScenarioDraft()
    ensures Sent(ApiCall(CreateOp(ScenarioDraft()), None)) ==
      Request(CollectionUrl(), Options(Some(Post), true, Some(Data(ScenarioDraft())), None))
  {
    var edits := ScenarioEdits();
    var settle := SubmitSettled(Saved(saved));
    var s0 := Init(CreateMode, "").next;
    FillInRun(s0, "45", "-93", "100", "70", "F");
    ScenarioSubmit(s0.(draft := ScenarioDraft()), saved);
    RunAppend(s0, edits, [Submit, settle]);
  }

  /** Submitting the filled-in scenario draft creates it; the service's answer navigates home. */
  lemma ScenarioSubmit(s: Form, saved: Record)
    requires s.mode == CreateMode && s.draft == ScenarioDraft() && s.inFlight == 0
    ensures Run(s, [Submit, SubmitSettled(Saved(saved))]) ==
      Trace(s.(location := Some(RootPath)), [ApiCall(CreateOp(ScenarioDraft()), None)])
  {
    ScenarioDraftValid();
    var settle := SubmitSettled(Saved(saved));
    var call := ApiCall(CreateOp(ScenarioDraft()), None);
    var s1 := s.(inFlight := 1);
    assert Step(s, Submit) == Transition(s1, Some(call));
    var s2 := s.(location := Some(RootPath));
    assert FetchJson(Saved(saved)) == ResolveData(saved);
    assert Step(s1, settle) == Transition(s2, None);
    assert Run(s1, [settle]) == Trace(s2, []);
  }

  /** One change per field, in the order of the initial state (src/observations/ObservationForm.js:15-21). */
  function FillIn(latitude: string, longitude: string, skyCondition: string,
                  airTemperature: string, unit: string): seq<Event> {
    [Change(LatitudeField, latitude), Change(LongitudeField, longitude),
     Change(SkyConditionField, skyCondition), Change(AirTemperatureField, airTemperature),
     Change(AirTemperatureUnitField, unit)]
  }

  /** Changing every field of any five-field draft yields exactly the values typed. */
  lemma FillInApplied(before: Record, latitude: string, longitude: string, skyCondition: string,
                      airTemperature: string, unit: string)
    requires before.Keys == FieldNames
    ensures Applied(before, FillIn(latitude, longitude, skyCondition, airTemperature, unit))
      == Draft(latitude, longitude, skyCondition, airTemperature, unit)
  {
    var edits := FillIn(latitude, longitude, skyCondition, airTemperature, unit);
    var d1 := before[LatitudeField := latitude];
    var d2 := d1[LongitudeField := longitude];
    var d3 := d2[SkyConditionField := skyCondition];
    var d4 := d3[AirTemperatureField := airTemperature];
    var d5 := d4[AirTemperatureUnitField := unit];
    assert Applied(d4, edits[4..]) == d5;
    assert Applied(d3, edits[3..]) == d5;
    assert Applied(d2, edits[2..]) == d5;
    assert Applied(d1, edits[1..]) == d5;
    assert d5 == Draft(latitude, longitude, skyCondition, airTemperature, unit);
  }

  /** Filling in a fresh form calls nothing and leaves exactly the values typed as the draft. */
  lemma FillInRun(s: Form, latitude: string, longitude: string, skyCondition: string,
                  airTemperature: string, unit: string)
    requires s.draft.Keys == FieldNames
    ensures Run(s, FillIn(latitude, longitude, skyCondition, airTemperature, unit))
      == Trace(s.(draft := Draft(latitude, longitude, skyCondition, airTemperature, unit)), [])
  {
    var edits := FillIn(latitude, longitude, skyCondition, airTemperature, unit);
    assert ChangesOnly(edits) by {
      forall i | 0 <= i < |edits| ensures edits[i].Change? {
      }
    }
    RunChanges(s, edits);
    FillInApplied(s.draft, latitude, longitude, skyCondition, airTemperature, unit);
  }
}
