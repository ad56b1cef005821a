# Unit-state queries of the fleet API client

This project models, in Dafny, how the fleet API client (package `fleet`)
lists the run-time states of units: the optional `UnitStateFilter` is turned
into the query parameters `unitName` and `machineID`, a GET request of the
`/state` endpoint is built and sent, and the response is classified in a
fixed order — request-building error, transport error, any status other
than 200, JSON decode error — before the `states` list is unwrapped from its
`{"states": [...]}` envelope and returned unchanged.

The collaborators the client cannot see are inputs of the model. A `Client`
holds two functions: whether building a request for a method and a path
fails (and with which error), and what the transport answers to a request.
A response body is modelled as what the JSON decoder makes of it: an
envelope, or the decoder's error. Go's `error` is the `Error` datatype, which
keeps only the message; an error from a collaborator is passed on as the
same value. Go slices keep the
difference between the nil slice and an empty one.

Files:

- `go_base.dfy` — module `GoBase`: `Option`, `Result`, `Slice` (nil or not), `Error`.
- `url_values.dfy` — module `UrlValues`: the `Set` and `Get` of `url.Values`.
- `format.dfy` — module `Format`: `%d` formatting of an integer and its inverse.
- `unit_state.dfy` — module `UnitStates`: the records, the three operations and their properties.
- `unit_state_examples.dfy` — module `UnitStateExamples`: the scenarios of the unit-state tests.

The wrong-status message is modelled exactly as the code formats it
(`"Wrong status code: %d %s"`), and `ParseStatusMessage` reads it back; the
round-trip lemma is what "the message carries the code and the status text"
means here.

The state query does not special-case 404: a 404 answer gets the same
wrong-status error as every other status but 200 (`WrongStatusError` holds
for 404 as for any other code).

## Model

| member | source | states |
|---|---|---|
| `UnitStates.FilterValues` | fleet/unit_state.go:39-49 | a nil filter gives no parameters; `unitName` is present iff the filter's unit name is non-empty and then holds exactly that name; likewise `machineID`; no other key ever appears |
| `UnitStates.UnitStateFiltered` | fleet/unit_state.go:39-52 | building the query by conditional `Set` calls yields exactly `FilterValues(filter)`, and the call returns what a state query with those parameters returns |
| `UnitStates.UnitStates` | fleet/unit_state.go:34-36 | returns what a state query with no parameters returns |
| `UnitStates.UnitStatesIsUnfiltered` | fleet/unit_state.go:34-52 | a nil filter and an all-empty filter both give the empty query, so the filtered call behaves exactly like `UnitStates` for every client |
| `UnitStates.SentRequest` | fleet/unit_state.go:57-63 | a request reaches the transport exactly when building succeeds, and it is always a GET of `/state` carrying the given query, whatever the filter |
| `UnitStates.OutcomeOf` | fleet/unit_state.go:58-79 | the error is absent iff the query got to a decoded envelope; every error exit returns the nil slice; the decoded slice is returned as is; a wrong status yields the formatted status error; every other error is the collaborator's error unchanged |
| `UnitStates.UnitStateQuery` | fleet/unit_state.go:54-80 | in the source's order: a build error is returned as is, a transport error is returned as is without looking at a status, any status other than 200 gives the status error, a decode error is returned as is, and otherwise the envelope's `states` slice comes back unchanged with no error; every error comes with a nil slice |
| `UnitStates.StatusMessageRoundTrip` | fleet/unit_state.go:69-71 | the wrong-status message read back gives exactly the numeric code and the status text |
| `UnitStates.StatusErrorInjective` | fleet/unit_state.go:70 | two wrong-status error messages are equal only when their codes and status texts are equal |
| `UnitStates.WrongStatusError` | fleet/unit_state.go:69-71 | any status other than 200, 404 included, ends the query with an error whose message yields that code and status text, and with a nil slice |
| `Format.FormatInt` | fleet/unit_state.go:70 | `%d` of an integer is a non-empty string of digits and minus signs (so it holds no space) |
| `Format.ParseFormatNat` | fleet/unit_state.go:70 | decimal digits of a natural number read back to that number |
| `Format.ParseFormatInt` | fleet/unit_state.go:70 | `%d` of any integer, negative ones included, reads back to that integer |
| `UrlValues.Set` | fleet/unit_state.go:43 | after `Set` the key holds exactly the one value and every other key is unchanged |
| `UrlValues.Get` | fleet/unit_state_test.go:136-142 | `Get` yields the first value of a key, and "" for an absent key or one with no values |
| `UnitStateExamples.ListsDecodedStates` | fleet/unit_state_test.go:49-108 | a 200 answer with two states returns both, in order and field for field, with no error, and the request sent is a GET of `/state` without parameters |
| `UnitStateExamples.FilterSendsBothParameters` | fleet/unit_state_test.go:131-142 | a filter with both fields sends `unitName=foo.service` and the machine ID |
| `UnitStateExamples.EmptyAndAbsentStates` | fleet/unit_state.go:24-26 | `{"states": []}` gives an empty non-nil slice and an absent `states` key the nil slice, neither with an error |
| `UnitStateExamples.TransportFailure` | fleet/unit_state_test.go:146-166 | a failing transport gives its error and no states |
| `UnitStateExamples.InternalServerError` | fleet/unit_state_test.go:169-192 | status 500, with the test's undecodable empty body or any other, gives the error "Wrong status code: 500 OK" and no states; the body is never read |

## Left out

- The HTTP transport and Go's `net/http` request and response objects: the transport is the `send` function of a `Client`, and a response is reduced to its status code, status text and decoded body.
- `createRequest` and the client's base URL: `createRequest` is not part of this model beyond "it may fail with an error, else the request carries the given method and path". The base URL, the API path prefix and the `Content-Type` header it sets are therefore not modelled.
- JSON parsing: a body is given as its decode outcome, so malformed-input detection and partial filling of the envelope on a decode error are not modelled (the code discards the envelope on that path anyway).
- URL percent-encoding of the query (`query.Encode()`): the request carries the parameter map itself.
- Error identity and dynamic type: an error is reduced to its message and errors are compared by value. In Go, `errors.New` returns a new value on every call, so two wrong-status errors are never `==`, and a collaborator's error whose message reads like a wrong-status message still differs from one by type and identity; the model does not capture either.
- `defer res.Body.Close()`: releasing the response body has no value in this model.
- `Units`, `Destroy` and the not-found error constant: their code is not part of this model, only their tests are.
- Format.FormatInt: formats an unbounded integer, whereas Go's `StatusCode` is a machine-width `int`; for every value of that width the output is the same.
