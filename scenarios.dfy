/** The four tests of the call-recording resource, replayed against the model with the
    same fixture: call `CA123`, recording `123`, callback `completed`, pause `skip`,
    revision `1`. */
module Scenarios {
  import opened Wrappers
  import opened Decimal
  import opened Segments
  import opened IdCodec
  import opened Lifecycle
  import ResourceSchema

  const FixtureCallSid: string := "CA123"
  const FixtureRecordingSid: Int64 := 123
  const FixtureStatusCallback: string := "completed"
  const FixturePauseBehavior: string := "skip"
  const FixtureRevision: Int64 := 1

  /** What the stand-in client answers: call SID, recording SID and revision, no price. */
  const FixtureRecording: CallRecording :=
    CallRecording(Some(FixtureCallSid), Some(FixtureRecordingSid), Some(FixtureRevision), None)

  /** The state the create test sets up before calling Create. */
  const FixtureInputs: Attrs := map[
    CallSid := Str(FixtureCallSid),
    RecordingStatusCallback := Str(FixtureStatusCallback),
    PauseBehavior := Str(FixturePauseBehavior)]

  /** The create test's expected calls: the callback only, then the pause behaviour only. */
  const ExpectedCalls: seq<Call> := [
    CreateCall("CA123", CreateParams(None, Some("completed"))),
    UpdateCall("CA123", 123, UpdateParams(None, Some("skip")))]

  /** The create test's parameters: only the callback for create, only the pause behaviour
      for update. */
  lemma FixtureRequests()
    ensures CreateRequest(FixtureInputs) == CreateParams(None, Some("completed"))
    ensures UpdateRequest(FixtureInputs) == UpdateParams(None, Some("skip"))
  {
  }

  /** The create test makes exactly the two expected calls. */
  lemma FixtureCreateCalls()
    ensures CreateSpec(FixtureInputs, "", FixtureRecording, None, None).calls == ExpectedCalls
  {
    var o := CreateSpec(FixtureInputs, "", FixtureRecording, None, None);
    FixtureRequests();
    assert WantsUpdate(FixtureInputs);
    assert o.calls == [o.calls[0], o.calls[1]];
  }

  /** The create test ends without error and records identifier `CA123/123`. */
  lemma FixtureCreateId()
    ensures var o := CreateSpec(FixtureInputs, "", FixtureRecording, None, None);
      o.err == None && o.id == "CA123/123"
  {
    FixtureEncode();
  }

  /** After the create test, `call_sid`, `sid` and `revision` hold the response's values. */
  lemma FixtureCreateState()
    ensures var o := CreateSpec(FixtureInputs, "", FixtureRecording, None, None);
      o.attrs[CallSid] == Str("CA123") && o.attrs[Sid] == Int(123) && o.attrs[Revision] == Int(1)
  {
    var fields := ResponseFields(FixtureRecording);
    assert CallSid in fields && Sid in fields && Revision in fields;
  }

  /** Create with `call_sid`, `recording_status_callback` and `pause_behavior` set: one create
      call with the callback only, one update call with the pause behaviour only, and the
      identifier and response fields written back. */
  method CreateCallRecordingScenario()
    returns (err: Option<AdapterError>, id: string, callSid: Option<Value>, sid: Option<Value>,
             revision: Option<Value>, calls: seq<Call>)
    ensures err == None
    ensures id == "CA123/123"
    ensures callSid == Some(Str("CA123")) && sid == Some(Int(123)) && revision == Some(Int(1))
    ensures calls == ExpectedCalls
  {
    var d := new ResourceData();
    FixtureNames();
    var ok := d.Set("call_sid", Str(FixtureCallSid));
    ok := d.Set("recording_status_callback", Str(FixtureStatusCallback));
    ok := d.Set("pause_behavior", Str(FixturePauseBehavior));
    assert d.attrs == FixtureInputs;
    var c := new RecordingClient(FixtureRecording, None, None);
    FixtureCreateCalls();
    FixtureCreateId();
    FixtureCreateState();
    err := Create(d, c);
    id := d.id;
    callSid := d.Lookup("call_sid");
    sid := d.Lookup("sid");
    revision := d.Lookup("revision");
    calls := c.calls;
  }

  /** The attribute names the tests use. */
  lemma FixtureNames()
    ensures AttributeNamed("call_sid") == Some(CallSid)
    ensures AttributeNamed("sid") == Some(Sid)
    ensures AttributeNamed("revision") == Some(Revision)
    ensures AttributeNamed("recording_status_callback") == Some(RecordingStatusCallback)
    ensures AttributeNamed("pause_behavior") == Some(PauseBehavior)
  {
    AttributeNamedName(CallSid);
    AttributeNamedName(Sid);
    AttributeNamedName(Revision);
    AttributeNamedName(RecordingStatusCallback);
    AttributeNamedName(PauseBehavior);
  }

  /** Import of `"CA123/123"` succeeds, sets `call_sid` to `"CA123"` and `sid` to the number
      123, and makes no remote call (Import is given no client). */
  method ImportCallRecordingScenario() returns (err: Option<AdapterError>, callSid: Option<Value>, sid: Option<Value>)
    ensures err == None
    ensures callSid == Some(Str("CA123")) && sid == Some(Int(123))
  {
    var d := new ResourceData();
    var key := Key(FixtureCallSid, FixtureRecordingSid);
    assert ValidKey(key);
    d.SetId(Encode(key));
    ImportEncoded(d.attrs, key);
    err := Import(d);
    FixtureNames();
    callSid := d.Lookup("call_sid");
    sid := d.Lookup("sid");
  }

  /** Import of the one-segment `"CA123"` fails with an error that says "invalid", and the
      state stays empty. */
  method ImportInvalidCallRecordingScenario() returns (err: Option<AdapterError>, attrs: Attrs)
    ensures err.Some? && ContainsSubstring(ErrorMessage(err.value), "invalid")
    ensures attrs == map[]
  {
    var d := new ResourceData();
    d.SetId(FixtureCallSid);
    ImportSingleSegment(d.attrs, FixtureCallSid);
    err := Import(d);
    attrs := d.attrs;
  }

  /** The schema contains `path_account_sid`, and no attribute the test lists has other flags
      than it expects. */
  method SchemaCallRecordingScenario() returns (hasPathAccountSid: bool, mismatched: set<string>)
    ensures hasPathAccountSid
    ensures mismatched == {}
  {
    var schema := ResourceSchema.Schema();
    hasPathAccountSid := "path_account_sid" in schema;
    ResourceSchema.SchemaMatchesExpected();
    mismatched := ResourceSchema.CheckSchema(schema, ResourceSchema.Expected);
  }
}
