/** The unit-state query of the fleet API client: listing the run-time
    states of units, optionally filtered by unit name and machine.

    The HTTP round trip is seen through a `Client` whose two collaborators
    are given as functions: whether building a request fails, and what the
    transport answers to a request. A response body is modelled as what the
    JSON decoder makes of it. */
module UnitStates {

  import opened GoBase
  import opened UrlValues
  import opened Format

  /** Path of the state endpoint, under the API prefix. */
  const StatesPath := "/state"
  const MethodGet := "GET"
  const StatusOK := 200

  /** Query keys of the state filter. */
  const UnitNameKey := "unitName"
  const MachineIDKey := "machineID"

  /** Text in front of the status in the wrong-status error message. */
  const WrongStatusPrefix := "Wrong status code: "

  /** One machine's report on one unit; the server omits empty fields and
      the decoder leaves them "". */
  datatype UnitState = UnitState(
    hash: string,
    machineID: string,
    name: string,
    systemdActiveState: string,
    systemdLoadState: string,
    systemdSubState: string)

  /** The wire envelope `{"states": [...]}`; an absent key leaves the nil
      slice. */
  datatype UnitStatesResponse = UnitStatesResponse(unitStates: Slice<UnitState>)

  /** Filter on unit name and machine; "" means no filter on that field. */
  datatype UnitStateFilter = UnitStateFilter(unitName: string, machineID: string)

  /** What the query determines of an HTTP request: its method (verb), its path
      under the API prefix and its query parameters. */
  datatype Request = Request(verb: string, path: string, query: Values)

  /** A response body, as the JSON decoder reads it into a
      `UnitStatesResponse`: an envelope, or the decoder's error. */
  datatype Body = Json(envelope: UnitStatesResponse) | Malformed(err: Error)

  datatype Response = Response(statusCode: int, status: string, body: Body)

  /** The client's collaborators: `requestError(verb, path)` is the error
      the request builder fails with, if any; `send` is the transport. */
  datatype Client = Client(
    requestError: (string, string) -> Option<Error>,
    send: Request -> Result<Response>)

  /** What a state query returns, as Go's `([]UnitState, error)` pair. */
  datatype Outcome = Outcome(states: Slice<UnitState>, err: Option<Error>)

  /** Where a state query stops, one case per exit of the call. */
  datatype Step =
    | CreateFailed(err: Error)
    | SendFailed(err: Error)
    | WrongStatus(code: int, status: string)
    | DecodeFailed(err: Error)
    | Decoded(states: Slice<UnitState>)

  /** The error message for an unexpected status:
      "Wrong status code: %d %s" filled with the code and the status text. */
  function StatusMessage(code: int, status: string): string {
    WrongStatusPrefix + FormatInt(code) + " " + status
  }

  function StatusError(code: int, status: string): Error {
    Error(StatusMessage(code, status))
  }

  /** Index of the first space in `s`, or `|s|` when there is none. */
  function SpaceIndex(s: string): (i: nat)
    ensures i <= |s|
    ensures i < |s| ==> s[i] == ' '
    ensures forall j :: 0 <= j < i ==> s[j] != ' '
  {
    if s == [] || s[0] == ' ' then 0 else 1 + SpaceIndex(s[1..])
  }

  /** Reads the code and the status text back out of a wrong-status message:
      the number ends at the first space, the status text is the rest. */
  function ParseStatusMessage(msg: string): Option<(int, string)> {
    if |msg| < |WrongStatusPrefix| || msg[..|WrongStatusPrefix|] != WrongStatusPrefix then None
    else
      var rest := msg[|WrongStatusPrefix|..];
      var i := SpaceIndex(rest);
      if i == |rest| then None
      else
        match ParseInt(rest[..i])
        case None => None
        case Some(code) => Some((code, rest[i + 1..]))
  }

  /** The message of a wrong-status error determines both the numeric code
      and the status text. */
  lemma StatusMessageRoundTrip(code: int, status: string)
    ensures ParseStatusMessage(StatusMessage(code, status)) == Some((code, status))
  {
    var f := FormatInt(code);
    var msg := StatusMessage(code, status);
    assert msg[..|WrongStatusPrefix|] == WrongStatusPrefix;
    var rest := msg[|WrongStatusPrefix|..];
    assert rest == f + " " + status;
    assert forall j :: 0 <= j < |f| ==> rest[j] == f[j] && rest[j] != ' ';
    assert rest[|f|] == ' ';
    assert SpaceIndex(rest) == |f|;
    assert rest[..|f|] == f;
    assert rest[|f| + 1..] == status;
    ParseFormatInt(code);
  }

  /** Two unexpected statuses give the same error only if their codes and
      status texts agree. */
  lemma StatusErrorInjective(code1: int, status1: string, code2: int, status2: string)
    requires StatusError(code1, status1) == StatusError(code2, status2)
    ensures code1 == code2 && status1 == status2
  {
    StatusMessageRoundTrip(code1, status1);
    StatusMessageRoundTrip(code2, status2);
  }

  /** The request the client builds for a method and a path: it fails with
      the builder's error, or carries that method and path and no query. */
  function CreateRequest(c: Client, verb: string, path: string): (r: Result<Request>)
    ensures r.Failure? <==> c.requestError(verb, path).Some?
    ensures r.Failure? ==> r.error == c.requestError(verb, path).value
    ensures r.Success? ==> r.value == Request(verb, path, map[])
  {
    match c.requestError(verb, path)
    case Some(e) => Failure(e)
    case None => Success(Request(verb, path, map[]))
  }

  /** The request a state query hands to the transport, if building one
      succeeds: always a GET of the state path, carrying the given query. */
  function SentRequest(c: Client, query: Values): (r: Option<Request>)
    ensures r.None? <==> c.requestError(MethodGet, StatesPath).Some?
    ensures r.Some? ==> r.value.verb == MethodGet && r.value.path == StatesPath
    ensures r.Some? ==> r.value.query == query
  {
    match CreateRequest(c, MethodGet, StatesPath)
    case Failure(_) => None
    case Success(req) => Some(req.(query := query))
  }

  /** Where a state query with the given parameters stops. */
  function Progress(c: Client, query: Values): Step {
    match SentRequest(c, query)
    case None => CreateFailed(c.requestError(MethodGet, StatesPath).value)
    case Some(req) =>
      match c.send(req)
      case Failure(e) => SendFailed(e)
      case Success(res) =>
        if res.statusCode != StatusOK then WrongStatus(res.statusCode, res.status)
        else
          match res.body
          case Malformed(e) => DecodeFailed(e)
          case Json(envelope) => Decoded(envelope.unitStates)
  }

  /** What the caller receives at each exit: the error of the failing step
      with a nil slice, or the decoded slice with no error. */
  function OutcomeOf(s: Step): (r: Outcome)
    ensures r.err.None? <==> s.Decoded?
    ensures r.err.Some? ==> r.states == Nil
    ensures s.Decoded? ==> r.states == s.states
    ensures s.WrongStatus? ==> r.err == Some(StatusError(s.code, s.status))
    ensures (s.CreateFailed? || s.SendFailed? || s.DecodeFailed?) ==> r.err == Some(s.err)
  {
    match s
    case CreateFailed(e) => Outcome(Nil, Some(e))
    case SendFailed(e) => Outcome(Nil, Some(e))
    case WrongStatus(code, status) => Outcome(Nil, Some(StatusError(code, status)))
    case DecodeFailed(e) => Outcome(Nil, Some(e))
    case Decoded(states) => Outcome(states, None)
  }

  /** What a state query with the given parameters returns. */
  function Expected(c: Client, query: Values): Outcome {
    OutcomeOf(Progress(c, query))
  }

  /** The query parameters of a filter: a key is present exactly when its
      field is non-empty, and then holds that field alone; a nil filter gives
      no parameters. */
  function FilterValues(filter: Option<UnitStateFilter>): (q: Values)
    ensures filter.None? ==> q == map[]
    ensures q.Keys <= {UnitNameKey, MachineIDKey}
    ensures UnitNameKey in q <==> filter.Some? && filter.value.unitName != ""
    ensures UnitNameKey in q ==> q[UnitNameKey] == [filter.value.unitName]
    ensures MachineIDKey in q <==> filter.Some? && filter.value.machineID != ""
    ensures MachineIDKey in q ==> q[MachineIDKey] == [filter.value.machineID]
  {
    if filter.None? then map[]
    else
      var f := filter.value;
      map k | k in {UnitNameKey, MachineIDKey} && FilterField(f, k) != "" :: [FilterField(f, k)]
  }

  /** The filter field a query key stands for. */
  function FilterField(f: UnitStateFilter, key: string): string {
    if key == UnitNameKey then f.unitName else f.machineID
  }

  /** The query of a state request, step by step. The wrong-status exit
      returns the envelope's still-empty slice, which is nil. */
  method UnitStateQuery(c: Client, query: Values) returns (states: Slice<UnitState>, err: Option<Error>)
    ensures Outcome(states, err) == Expected(c, query)
    ensures err.Some? ==> states == Nil
    ensures c.requestError(MethodGet, StatesPath).Some? ==>
              err == c.requestError(MethodGet, StatesPath) && states == Nil
    ensures SentRequest(c, query).Some? && c.send(SentRequest(c, query).value).Failure? ==>
              err == Some(c.send(SentRequest(c, query).value).error) && states == Nil
    ensures SentRequest(c, query).Some? && c.send(SentRequest(c, query).value).Success? ==>
              var res := c.send(SentRequest(c, query).value).value;
              && (res.statusCode != StatusOK ==> err == Some(StatusError(res.statusCode, res.status)))
              && (res.statusCode == StatusOK && res.body.Malformed? ==> err == Some(res.body.err))
              && (res.statusCode == StatusOK && res.body.Json? ==>
                    err == None && states == res.body.envelope.unitStates)
  {
    var statesRes := UnitStatesResponse(Nil);

    var built := CreateRequest(c, MethodGet, StatesPath);
    if built.Failure? {
      return Nil, Some(built.error);
    }
    var req := built.value.(query := query);

    var sent := c.send(req);
    if sent.Failure? {
      return Nil, Some(sent.error);
    }
    var res := sent.value;

    if res.statusCode != StatusOK {
      return statesRes.unitStates, Some(StatusError(res.statusCode, res.status));
    }

    match res.body
    case Malformed(e) =>
      return Nil, Some(e);
    case Json(envelope) =>
      statesRes := envelope;
    return statesRes.unitStates, None;
  }

  /** All unit states: a state query without parameters. */
  method UnitStates(c: Client) returns (states: Slice<UnitState>, err: Option<Error>)
    ensures Outcome(states, err) == Expected(c, map[])
  {
    states, err := UnitStateQuery(c, map[]);
  }

  /** Unit states matching a filter: the query parameters are set one by one
      for the non-empty fields. */
  method UnitStateFiltered(c: Client, filter: Option<UnitStateFilter>)
    returns (states: Slice<UnitState>, err: Option<Error>)
    ensures Outcome(states, err) == Expected(c, FilterValues(filter))
  {
    var query: Values := map[];
    if filter.Some? {
      if "" != filter.value.unitName {
        query := Set(query, UnitNameKey, filter.value.unitName);
      }
      if "" != filter.value.machineID {
        query := Set(query, MachineIDKey, filter.value.machineID);
      }
    }
    assert query == FilterValues(filter);
    states, err := UnitStateQuery(c, query);
  }

  /** Listing all states is the filtered query with a nil filter or with a
      filter whose fields are both empty: same parameters, same outcome. */
  lemma UnitStatesIsUnfiltered(c: Client)
    ensures FilterValues(None) == map[]
    ensures FilterValues(Some(UnitStateFilter("", ""))) == map[]
    ensures Expected(c, FilterValues(None)) == Expected(c, map[])
    ensures Expected(c, FilterValues(Some(UnitStateFilter("", "")))) == Expected(c, map[])
  {
  }

  /** An unexpected status, 404 included, ends the query with an error whose
      message gives back the code and the status text, and with a nil slice. */
  lemma WrongStatusError(c: Client, query: Values)
    requires SentRequest(c, query).Some?
    requires c.send(SentRequest(c, query).value).Success?
    requires c.send(SentRequest(c, query).value).value.statusCode != StatusOK
    ensures var res := c.send(SentRequest(c, query).value).value;
            && Expected(c, query).states == Nil
            && Expected(c, query).err.Some?
            && ParseStatusMessage(Expected(c, query).err.value.message) == Some((res.statusCode, res.status))
  {
    var res := c.send(SentRequest(c, query).value).value;
    StatusMessageRoundTrip(res.statusCode, res.status);
  }
}
