/** The scenarios of the unit-state tests, stated over the model: a scripted
    transport stands in for the network, as the tests' sender mock does. */
module UnitStateExamples {

  import opened GoBase
  import opened UrlValues
  import opened UnitStates
  import opened Format

  /** A client whose request builder never fails and whose transport
      answers every request with `answer`. */
  function Scripted(answer: Result<Response>): (c: Client)
    ensures SentRequest(c, map[]).Some?
  {
    Client((verb, path) => None, req => answer)
  }

  const Service1 := UnitState(
    "cf96f618332feae08d2bd5f2544f182f463d49fe", "9f08c99f7d9a304499004fd01891b396",
    "service1.service", "active", "loaded", "running")
  const Service2 := UnitState(
    "8fb47a221a8933cbcb36c843914649be4c874c05", "287822fbe7a3134a87ebdd94975e9248",
    "service2.service", "active", "loaded", "running")

  /** A 200 answer with two states: both come back, in order, field for
      field, with no error; the request was a GET of the state path. */
  lemma ListsDecodedStates()
    ensures var c := Scripted(Success(Response(200, "OK", Json(UnitStatesResponse(Make([Service1, Service2]))))));
            && SentRequest(c, map[]) == Some(Request(MethodGet, StatesPath, map[]))
            && Expected(c, map[]).err == None
            && Expected(c, map[]).states.Items() == [Service1, Service2]
  {
  }

  /** A filter with both fields sends both parameters with their values. */
  lemma FilterSendsBothParameters()
    ensures var q := FilterValues(Some(UnitStateFilter("foo.service", "287822fbe7a3134a87ebdd94975e9248")));
            && Get(q, MachineIDKey) == "287822fbe7a3134a87ebdd94975e9248"
            && Get(q, UnitNameKey) == "foo.service"
  {
  }

  /** `{"states": []}` gives an empty non-nil slice; an absent key gives the
      nil slice; neither is an error. */
  lemma EmptyAndAbsentStates(query: Values)
    ensures Expected(Scripted(Success(Response(200, "OK", Json(UnitStatesResponse(Make([])))))), query)
              == Outcome(Make([]), None)
    ensures Expected(Scripted(Success(Response(200, "OK", Json(UnitStatesResponse(Nil))))), query)
              == Outcome(Nil, None)
  {
  }

  /** A failing transport: an error and no states. */
  lemma TransportFailure(query: Values)
    ensures var o := Expected(Scripted(Failure(Error("Request failed"))), query);
            o == Outcome(Nil, Some(Error("Request failed"))) && o.states.Items() == []
  {
  }

  /** Status 500, here with the empty body of the test, which the decoder
      would reject: an error naming the status, and no states. The body is
      never read on this exit, so any body gives the same outcome. */
  lemma InternalServerError(query: Values, body: Body)
    ensures var o := Expected(Scripted(Success(Response(500, "OK", body))), query);
            o.err == Some(Error("Wrong status code: 500 OK")) && o.states.Items() == []
  {
    assert FormatNat(5) == "5";
    assert FormatNat(50) == "50";
    assert FormatInt(500) == "500";
    assert StatusMessage(500, "OK") == "Wrong status code: 500 OK";
    var c := Scripted(Success(Response(500, "OK", body)));
    assert Progress(c, query) == WrongStatus(500, "OK");
  }
}
