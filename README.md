# Call-recording resource adapter: a Dafny model

This project models the lifecycle adapter of the `ResourceAccountsCallsRecordings`
Terraform resource of the Twilio provider. The adapter exposes a Twilio call recording as a
declaratively managed resource. The model covers the three pieces that the unit test
`examples/terraform/unit/accounts_calls_recordings_test.go` pins down:

- **The composite identifier.** A recording is keyed by its call SID and its numeric
  recording SID. The identifier is the call SID, a literal `/`, then the recording SID in
  decimal (`"CA123/123"`). Decoding splits on `/`, requires exactly two segments and reads
  the second as a Go `int`. Anything else is rejected, and a wrong segment count gives an
  error whose text contains `invalid`.
- **The attribute table.** The schema maps each attribute name to its Required, Computed
  and Optional flags.
- **Create and Import over the state bag.**
  - Create reads `call_sid`, `recording_status_callback` and `pause_behavior` from the state.
  - It sends one create call that carries only the create parameters.
  - It then sends one update call, keyed by the call SID and the new recording SID, that
    carries only the update parameters.
  - It writes the identifier and the response fields back into the state.
  - Import parses the stored identifier into `call_sid` and `sid` and makes no remote call.

Files and modules:

- `wrappers.dfy` (`Wrappers`): `Option` and `Result`, standing for Go's nil pointers and
  `(value, error)` returns.
- `decimal.dfy` (`Decimal`): printing a Go `int` the way `%d` does, and reading it back the
  way `strconv.Atoi` does (an optional sign, at least one digit, the 64-bit range).
- `segments.dfy` (`Segments`): `strings.Split` and `strings.Join` on one separator
  character, plus substring containment (what the test's `assert.Regexp(t, "invalid", …)`
  checks).
- `id_codec.dfy` (`IdCodec`): the identifier encoder and decoder and their round trip.
- `schema.dfy` (`ResourceSchema`): the attribute table, the classification of an attribute
  from its role, and the test's check loop as a method over the schema map.
- `lifecycle.dfy` (`Lifecycle`):
  - the state bag, a class `ResourceData` holding a map from attribute to value and the
    identifier;
  - a stand-in remote client, a class `RecordingClient` that logs every call in a sequence
    and answers with a fixed recording;
  - `Create` and `Import` as methods;
  - `CreateSpec` and `ImportState`, the functions those methods are proved against.
- `scenarios.dfy` (`Scenarios`): the four tests replayed on the model with the test's
  fixture values.

Collaborators that are not part of this model:

- The remote API client is a parameter. `RecordingClient` stands in for it. It can be told to
  fail the create call or the update call, so the error paths are modelled as well.
- The Terraform plugin SDK is replaced by the `ResourceData` class.

## Where the usual adapter conventions and the test differ

The model follows the test in each case below.

- A path key is conventionally Required and not Computed. The test expects
  `path_account_sid` to be Optional and Computed.
  - The model gives it the `OptionalInput` role.
  - `call_sid` is the only `RequiredInput`.
- An importer conventionally performs a Read after decoding the identifier. The import test
  registers no client expectation, so the importer makes no remote call. `Import` takes no
  client.
- An identifier encoder conventionally fails on an empty key field. The test builds its
  expected identifier with `fmt.Sprintf` (line 22), which cannot fail. The adapter code that
  builds the identifier is not part of this model, and the model assumes it does the same.
  So `Encode` is total.
  - An empty call SID still round-trips: `"/5"` splits into `["", "5"]`.
  - A call SID that contains `/` does not round-trip. Decoding rejects its encoding as
    having the wrong number of segments (`IdCodec.EncodeInvalidKey`).

## Model

| member | source | states |
|---|---|---|
| Decimal.NatToDigits | examples/terraform/unit/accounts_calls_recordings_test.go:22 | the `%d` text of a natural number is a non-empty run of decimal digits without a leading zero |
| Decimal.IntToString | examples/terraform/unit/accounts_calls_recordings_test.go:22 | the `%d` text of any integer is non-empty and made only of digits and `-`, so it never contains the `/` separator |
| Decimal.DigitsRoundTrip | examples/terraform/unit/accounts_calls_recordings_test.go:22 | the digits printed for `n` denote `n` again |
| Decimal.ParseIntRoundTrip | examples/terraform/unit/accounts_calls_recordings_test.go:66-73 | for every 64-bit Go `int` `n`, reading back the `%d` text of `n` gives `n`, so `sid` comes back as the integer it was |
| Decimal.ParseInt | examples/terraform/unit/accounts_calls_recordings_test.go:66-73 | only a numeral (digits after at most one sign) is read as an integer; a `-` numeral reads as a value at most 0 and any other as a value at least 0 |
| Decimal.ParseIntAcceptsShortNumerals | examples/terraform/unit/accounts_calls_recordings_test.go:66-73 | every numeral of at most 18 characters fits a 64-bit Go `int` and is accepted |
| Decimal.ParseIntNeedsDigit | examples/terraform/unit/accounts_calls_recordings_test.go:66-73 | a segment with no digit (such as the empty string) is not read as an integer |
| Decimal.ParseIntLenient | examples/terraform/unit/accounts_calls_recordings_test.go:22 | `%d` of 123 is `"123"`; parsing also accepts `"0123"` and `"+123"`, so printing is not an inverse of parsing |
| Segments.Split | examples/terraform/unit/accounts_calls_recordings_test.go:66-73 | splitting on `/` always yields at least one segment, and no segment contains `/` |
| Segments.JoinSplit | examples/terraform/unit/accounts_calls_recordings_test.go:66-73 | joining the segments with `/` gives back the original identifier |
| Segments.SplitCount | examples/terraform/unit/accounts_calls_recordings_test.go:79-85 | the number of segments is one more than the number of `/` characters |
| Segments.SplitNoSeparator | examples/terraform/unit/accounts_calls_recordings_test.go:79 | an identifier without `/` is a single segment |
| Segments.SplitAfterPrefix | examples/terraform/unit/accounts_calls_recordings_test.go:22 | a `/`-free prefix followed by `/` is split off as the first segment |
| IdCodec.Encode | examples/terraform/unit/accounts_calls_recordings_test.go:22 | the identifier holds exactly one more `/` than the call SID, since the decimal SID never contains one |
| IdCodec.Decode | examples/terraform/unit/accounts_calls_recordings_test.go:66-73 | a successful decode has exactly one `/` in the identifier and yields a call SID free of `/` |
| IdCodec.EncodeSegments | examples/terraform/unit/accounts_calls_recordings_test.go:22 | an encoded key splits into exactly the call SID and the decimal recording SID |
| IdCodec.DecodeEncode | examples/terraform/unit/accounts_calls_recordings_test.go:66-73 | decoding the identifier of any key whose call SID has no `/` gives back that key |
| IdCodec.DecodeSegments | examples/terraform/unit/accounts_calls_recordings_test.go:66-73 | whatever decodes is the decoded call SID, one `/`, then a second segment that Atoi reads as the decoded recording SID |
| IdCodec.DecodeOfSegments | examples/terraform/unit/accounts_calls_recordings_test.go:66-73 | conversely, a `/`-free call SID, a `/` and any text Atoi reads as `n` decode to that call SID and `n` |
| IdCodec.EncodeInjective | examples/terraform/unit/accounts_calls_recordings_test.go:22 | two valid keys with the same identifier are the same key |
| IdCodec.EncodeInvalidKey | examples/terraform/unit/accounts_calls_recordings_test.go:22 | a call SID containing `/` yields an identifier that decoding rejects as invalid instead of mis-splitting |
| IdCodec.DecodeArity | examples/terraform/unit/accounts_calls_recordings_test.go:79-85 | decoding fails with the structural error exactly when the identifier does not have one `/`, in both directions |
| IdCodec.Message | examples/terraform/unit/accounts_calls_recordings_test.go:83-85 | every codec error's message contains `invalid` and names the offending identifier or segment |
| IdCodec.SingleSegmentRejected | examples/terraform/unit/accounts_calls_recordings_test.go:79-85 | a one-segment identifier is rejected with an error whose message contains `invalid` |
| IdCodec.FixtureEncode | examples/terraform/unit/accounts_calls_recordings_test.go:22 | the key (`CA123`, 123) is encoded as `"CA123/123"` |
| IdCodec.FixtureDecode | examples/terraform/unit/accounts_calls_recordings_test.go:66-85 | `"CA123/123"` decodes to (`CA123`, 123), and `"CA123"` is rejected as invalid |
| ResourceSchema.Classify | examples/terraform/unit/accounts_calls_recordings_test.go:89-96 | the flags of any role are never both Required and Computed; Optional implies Computed; an attribute is Required exactly when its role is the required input and Optional exactly when its role is an optional input, so all three flags are fixed for every role |
| ResourceSchema.Schema | examples/terraform/unit/accounts_calls_recordings_test.go:89-98 | the schema declares exactly the attributes of the role table, and none of them is both Required and Computed |
| ResourceSchema.CheckSchema | examples/terraform/unit/accounts_calls_recordings_test.go:99-105 | walking the schema yields exactly the listed attributes whose flags differ from the expected ones; the result is empty exactly when the schema conforms |
| ResourceSchema.SchemaMatchesExpected | examples/terraform/unit/accounts_calls_recordings_test.go:89-105 | every attribute of the test table has exactly the expected Required, Computed and Optional flags, and `path_account_sid` is in the schema |
| ResourceSchema.OnlyCallSidRequired | examples/terraform/unit/accounts_calls_recordings_test.go:90 | `call_sid` is the only Required attribute, and it is not Computed |
| ResourceSchema.ComputedUnlessRequired | examples/terraform/unit/accounts_calls_recordings_test.go:91-95 | every attribute other than `call_sid` is Computed, and every Optional one is Computed |
| ResourceSchema.OptionalAmongExpected | examples/terraform/unit/accounts_calls_recordings_test.go:92-93 | among the attributes the test lists, exactly `path_account_sid` and `pause_behavior` are Optional |
| Lifecycle.AttributeNamed | examples/terraform/unit/accounts_calls_recordings_test.go:34-36 | the attribute found for a name carries that name |
| Lifecycle.AttributesAreSchema | examples/terraform/unit/accounts_calls_recordings_test.go:98-99 | a name denotes an attribute of the state bag exactly when the schema declares it |
| Lifecycle.AttributeNamedName | examples/terraform/unit/accounts_calls_recordings_test.go:58-60 | every attribute is found under its own schema name |
| Lifecycle.ErrorMessage | examples/terraform/unit/accounts_calls_recordings_test.go:83-85 | a codec failure's message contains `invalid`; a remote failure's message is passed on unchanged |
| Lifecycle.CreateRequest | examples/terraform/unit/accounts_calls_recordings_test.go:39-44 | the create call carries `path_account_sid` and `recording_status_callback` exactly when they are set, with their values, and nothing else |
| Lifecycle.UpdateRequest | examples/terraform/unit/accounts_calls_recordings_test.go:46-52 | the update call carries `path_account_sid` and `pause_behavior` exactly when they are set, with their values, and nothing else |
| Lifecycle.WantsUpdate | examples/terraform/unit/accounts_calls_recordings_test.go:36-52 | a second call is needed exactly when `pause_behavior` is set, which is exactly when the update parameters carry it |
| Lifecycle.ResponseFields | examples/terraform/unit/accounts_calls_recordings_test.go:17-21 | the response's attributes are `call_sid`, `sid`, `revision` and `price`, each present exactly when the response carries it, with that value and the right type |
| Lifecycle.Project | examples/terraform/unit/accounts_calls_recordings_test.go:56-60 | after projection every response field overwrites its attribute, every other attribute keeps its value, and well-typed state stays well-typed |
| Lifecycle.ProjectIdempotent | examples/terraform/unit/accounts_calls_recordings_test.go:56-60 | projecting the same response twice equals projecting it once |
| Lifecycle.ProjectKeepsInputs | examples/terraform/unit/accounts_calls_recordings_test.go:39-52 | projection changes neither the create parameters, nor the update parameters, nor whether an update is needed |
| Lifecycle.CreateSpec | examples/terraform/unit/accounts_calls_recordings_test.go:30-60 | see "What CreateSpec states" below |
| Lifecycle.ImportState | examples/terraform/unit/accounts_calls_recordings_test.go:63-74 | import fails exactly when decoding fails, with the codec's error; on success `call_sid` and `sid` hold the decoded call SID and recording SID, every other attribute is kept and types are kept |
| Lifecycle.ImportEncoded | examples/terraform/unit/accounts_calls_recordings_test.go:66-73 | importing the identifier of a valid key succeeds; `call_sid` becomes the call SID as a string and `sid` the recording SID as an integer |
| Lifecycle.ImportSingleSegment | examples/terraform/unit/accounts_calls_recordings_test.go:79-85 | importing a one-segment identifier fails with the structural error, whose message contains `invalid` |
| Lifecycle.CreateThenImport | examples/terraform/unit/accounts_calls_recordings_test.go:57-73 | after a successful create, importing the recorded identifier gives back the same `call_sid` and the response's `sid` |
| Lifecycle.CreateIdMatchesState | examples/terraform/unit/accounts_calls_recordings_test.go:57-60 | when the create response names no call SID or the requested one, importing the recorded identifier leaves the created state exactly as it is |
| Lifecycle.CreateIdFromRequest | examples/terraform/unit/accounts_calls_recordings_test.go:39-57 | the recorded identifier carries the requested call SID, while the state's `call_sid` takes the response's, so the two can differ |
| Lifecycle.ResourceData.constructor | examples/terraform/unit/accounts_calls_recordings_test.go:27 | a fresh state bag is empty, has an empty identifier and is well-typed |
| Lifecycle.ResourceData.Lookup | examples/terraform/unit/accounts_calls_recordings_test.go:58-60 | stands for `Get`: a name yields a value exactly when it names a schema attribute that is set, and that value is the stored one (an unset attribute gives nothing rather than Go's zero value) |
| Lifecycle.ResourceData.Set | examples/terraform/unit/accounts_calls_recordings_test.go:34-36 | setting succeeds exactly for a schema attribute and a value of its type; only then does the named attribute change |
| Lifecycle.ResourceData.SetId | examples/terraform/unit/accounts_calls_recordings_test.go:66 | the identifier slot holds the given identifier |
| Lifecycle.RecordingClient.constructor | examples/terraform/unit/accounts_calls_recordings_test.go:17-21 | the stand-in client starts with an empty call log and the given fixed reply |
| Lifecycle.RecordingClient.CreateCallRecording | examples/terraform/unit/accounts_calls_recordings_test.go:39-44 | a create call is appended to the log, and the fixed recording or the configured failure is returned |
| Lifecycle.RecordingClient.UpdateCallRecording | examples/terraform/unit/accounts_calls_recordings_test.go:46-52 | an update call is appended to the log, and the fixed recording or the configured failure is returned |
| Lifecycle.SendUpdate | examples/terraform/unit/accounts_calls_recordings_test.go:46-52 | exactly one update call is logged, with the update parameters read from the state; a successful update projects the response, and a failure is returned with the state left as it was |
| Lifecycle.Create | examples/terraform/unit/accounts_calls_recordings_test.go:30-60 | the new state, identifier, appended calls and error equal `CreateSpec` of the old state and the client's behaviour; the state stays well-typed |
| Lifecycle.Import | examples/terraform/unit/accounts_calls_recordings_test.go:63-86 | the new state and the error equal `ImportState` of the old state and the stored identifier; a decode error leaves the state as it was; no client is involved |
| Scenarios.FixtureRequests | examples/terraform/unit/accounts_calls_recordings_test.go:39-52 | with the test's inputs, the create parameters carry only `RecordingStatusCallback = "completed"` and the update parameters only `PauseBehavior = "skip"` |
| Scenarios.FixtureCreateCalls | examples/terraform/unit/accounts_calls_recordings_test.go:38-52 | the create test makes exactly the expected create call followed by the expected update call |
| Scenarios.FixtureCreateId | examples/terraform/unit/accounts_calls_recordings_test.go:54-57 | the create test ends without error and with identifier `"CA123/123"` |
| Scenarios.FixtureCreateState | examples/terraform/unit/accounts_calls_recordings_test.go:58-60 | after the create test, `call_sid`, `sid` and `revision` hold `"CA123"`, 123 and 1 |
| Scenarios.CreateCallRecordingScenario | examples/terraform/unit/accounts_calls_recordings_test.go:30-61 | replaying the create test through the state bag, the client and `Create` gives no error, identifier `"CA123/123"`, the expected `call_sid`, `sid` and `revision`, and exactly the two expected calls |
| Scenarios.FixtureNames | examples/terraform/unit/accounts_calls_recordings_test.go:34-36 | the names the tests use denote the intended attributes |
| Scenarios.ImportCallRecordingScenario | examples/terraform/unit/accounts_calls_recordings_test.go:63-74 | importing `"CA123/123"` gives no error, `call_sid = "CA123"` and the integer `sid = 123` |
| Scenarios.ImportInvalidCallRecordingScenario | examples/terraform/unit/accounts_calls_recordings_test.go:76-86 | importing `"CA123"` gives an error whose message contains `invalid`, and the state stays empty |
| Scenarios.SchemaCallRecordingScenario | examples/terraform/unit/accounts_calls_recordings_test.go:88-106 | the schema contains `path_account_sid`, and the check loop finds no mismatching attribute |

### What CreateSpec states

- There are one or two calls.
- The first call is always the create call. It is keyed by `call_sid` and carries only the
  create parameters that are set.
- A second call follows exactly when all three hold:
  - the create call succeeded;
  - the response has a recording SID;
  - `pause_behavior` is set.
- That second call is the update call. It is keyed by the call SID and the response's SID,
  and carries only the update parameters.
- A failed create records nothing.
- A successful create records `Encode(call_sid, sid)` and the projected response, even when
  the update then fails.
- The error is absent exactly when three things hold:
  - the create call succeeded;
  - its response carries a recording SID;
  - when `pause_behavior` is set, the update call succeeded too.
- Which error comes back:
  - a failed create call returns the client's failure unchanged (`Remote`);
  - a create response without a recording SID returns `MissingSid`, even though its one call
    succeeded;
  - a failed update call, after a successful create, returns the client's failure unchanged.

## Left out

- Read, the Update lifecycle operation and Delete:
  - The test does not exercise them, so there is nothing to check them against.
  - This includes not-found handling and idempotent delete.
  - `Lifecycle.SendUpdate` is only the update step inside Create.
- The Terraform plugin SDK is replaced by `ResourceData`, a map and an identifier slot.
  - Not modelled: schema storage, diffing, `TestResourceData`, `CreateContext`,
    `Importer.StateContext`.
  - The importer's returned list of states is dropped; only its error is kept.
- The gomock client and the real HTTP client are replaced by `RecordingClient`. The recorded
  call log takes the place of `EXPECT()`, and the real client is not part of this model.
- The second field of the test's `ExpectedParamSchema`: the test never compares it and its
  meaning is not visible.
- The real resource has more attributes and more create and update parameters than the test
  shows. The model has the seven attributes the test uses or checks.
  - The flags of `recording_status_callback` are not pinned by the test. The model gives it
    the `OptionalInput` flags.
  - Forwarding `path_account_sid` as `PathAccountSid` in both calls is inferred. The test
    leaves it unset.
- `Lifecycle.ResponseFields`: `price` is carried as opaque text because floating point is
  left out. Nothing is claimed about its value after Create.
- `Lifecycle.CreateSpec`: the update call is sent only when `pause_behavior` is set, the
  input that only the update endpoint accepts. The test shows only the case where it is set.
- `Lifecycle.CreateSpec`: the identifier is built from the call SID of the request, not the
  one in the response. The projection then overwrites `call_sid` with the response's value,
  so the final `call_sid` need not match the identifier (`Lifecycle.CreateIdFromRequest`).
  The test cannot tell these readings apart, since both values are `CA123` there. They agree
  whenever the response names no call SID or the requested one
  (`Lifecycle.CreateIdMatchesState`).
- `Lifecycle.CreateSpec`: requires `call_sid` to be set, and so does `Lifecycle.Create`. The
  adapter itself would read an unset `call_sid` as `""` and still make the call. Only the
  framework's check of Required attributes rules that case out, and that check is not
  modelled.
- `Lifecycle.CreateSpec`: a create response without a recording SID is reported as
  `MissingSid`. The generated code's behaviour here is not shown.
- `Lifecycle.Import`: the test does not show the state left after a non-numeric second
  segment. The model returns `NotAnInteger`, whose message also reads "invalid identifier",
  and leaves the state unchanged.
- `IdCodec.Message`: only the substring `invalid` is pinned by the test. The rest of each
  message is the model's own.
- `Decimal.ParseInt`: the model assumes a 64-bit Go `int` and `strconv.Atoi` behaviour. The
  parser the generated code uses is not shown.
- The code generator, and the package-level fixtures shared between tests, are not modelled.
- Concurrency, timeouts and cancellation belong to the framework and the client.
