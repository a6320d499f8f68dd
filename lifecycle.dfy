/** The lifecycle adapter of the call-recording resource: the state bag the framework
    hands over, the remote client it talks to, and the Create and Import operations. */
module Lifecycle {
  import opened Wrappers
  import opened Decimal
  import opened Segments
  import opened IdCodec
  import ResourceSchema

  /** The attributes of the resource, as the state bag knows them. */
  datatype Attribute =
    | CallSid | PathAccountSid | PauseBehavior | RecordingStatusCallback | Sid | Price | Revision

  /** The schema name of an attribute. */
  function Name(a: Attribute): string {
    match a
    case CallSid => "call_sid"
    case PathAccountSid => "path_account_sid"
    case PauseBehavior => "pause_behavior"
    case RecordingStatusCallback => "recording_status_callback"
    case Sid => "sid"
    case Price => "price"
    case Revision => "revision"
  }

  /** The attribute a schema name stands for, if any. */
  function AttributeNamed(name: string): (a: Option<Attribute>)
    ensures a.Some? ==> Name(a.value) == name
  {
    if name == "call_sid" then Some(CallSid)
    else if name == "path_account_sid" then Some(PathAccountSid)
    else if name == "pause_behavior" then Some(PauseBehavior)
    else if name == "recording_status_callback" then Some(RecordingStatusCallback)
    else if name == "sid" then Some(Sid)
    else if name == "price" then Some(Price)
    else if name == "revision" then Some(Revision)
    else None
  }

  /** The attributes are exactly the names the resource schema declares. */
  lemma AttributesAreSchema(name: string)
    ensures AttributeNamed(name).Some? <==> name in ResourceSchema.Roles
  {
  }

  /** Every attribute is found under its own name. */
  lemma AttributeNamedName(a: Attribute)
    ensures AttributeNamed(Name(a)) == Some(a)
  {
  }

  /** An attribute value in the state bag: text, or a Go `int`. */
  datatype Value = Str(s: string) | Int(n: int)

  /** `sid` and `revision` are integers; every other attribute is a string. */
  predicate IsIntAttribute(a: Attribute) {
    a == Sid || a == Revision
  }

  predicate HasType(a: Attribute, v: Value) {
    v.Int? == IsIntAttribute(a)
  }

  type Attrs = map<Attribute, Value>

  /** Every stored value has its attribute's type. */
  predicate WellTyped(attrs: Attrs) {
    forall a :: a in attrs ==> HasType(a, attrs[a])
  }

  /** A string attribute's value when it is set; `None` when it is not. */
  function StringAt(attrs: Attrs, a: Attribute): (v: Option<string>)
    ensures v.Some? <==> a in attrs && attrs[a].Str?
  {
    if a in attrs && attrs[a].Str? then Some(attrs[a].s) else None
  }

  /** The parameters of the create call; `None` is a nil pointer, a parameter not sent. */
  datatype CreateParams = CreateParams(pathAccountSid: Option<string>, recordingStatusCallback: Option<string>)

  /** The parameters of the update call. */
  datatype UpdateParams = UpdateParams(pathAccountSid: Option<string>, pauseBehavior: Option<string>)

  /** The remote call-recording object; each field may be absent (a nil pointer). */
  datatype CallRecording = CallRecording(
    callSid: Option<string>,
    sid: Option<Int64>,
    revision: Option<Int64>,
    price: Option<string>)

  /** One request made to the remote API, as the client records it. */
  datatype Call =
    | CreateCall(callSid: string, create: CreateParams)
    | UpdateCall(callSid: string, sid: Int64, update: UpdateParams)

  datatype AdapterError =
    | Codec(codec: CodecError)
    | Remote(message: string)
    | MissingSid   // the create response carries no recording SID to build the identifier from

  /** The error text the caller sees: a codec failure says "invalid", and a remote failure
      is passed on unchanged. */
  function ErrorMessage(e: AdapterError): (m: string)
    ensures e.Codec? ==> ContainsSubstring(m, "invalid")
    ensures e.Remote? ==> m == e.message
  {
    match e
    case Codec(c) => Message(c)
    case Remote(m) => m
    case MissingSid => "create response has no sid"
  }

  /** A parameter read from the state is sent exactly when its attribute holds a string, and
      then carries that string; an attribute that is not set is not sent. */
  predicate Carries(attrs: Attrs, a: Attribute, p: Option<string>) {
    (p.Some? <==> a in attrs && attrs[a].Str?) && (p.Some? ==> attrs[a] == Str(p.value))
  }

  /** The create parameters read from the state: only the create-eligible inputs. */
  function CreateRequest(attrs: Attrs): (p: CreateParams)
    ensures Carries(attrs, PathAccountSid, p.pathAccountSid)
    ensures Carries(attrs, RecordingStatusCallback, p.recordingStatusCallback)
  {
    CreateParams(StringAt(attrs, PathAccountSid), StringAt(attrs, RecordingStatusCallback))
  }

  /** The update parameters read from the state: only the update-only input and the path key. */
  function UpdateRequest(attrs: Attrs): (p: UpdateParams)
    ensures Carries(attrs, PathAccountSid, p.pathAccountSid)
    ensures Carries(attrs, PauseBehavior, p.pauseBehavior)
  {
    UpdateParams(StringAt(attrs, PathAccountSid), StringAt(attrs, PauseBehavior))
  }

  /** An input only the update call accepts (`pause_behavior`) is set, so Create needs a
      second call: exactly when the update parameters would carry something the create
      parameters cannot. */
  function WantsUpdate(attrs: Attrs): (b: bool)
    ensures b <==> PauseBehavior in attrs && attrs[PauseBehavior].Str?
    ensures b <==> UpdateRequest(attrs).pauseBehavior.Some?
  {
    StringAt(attrs, PauseBehavior).Some?
  }

  /** The attributes a response carries. */
  function ResponseFields(r: CallRecording): (f: Attrs)
    ensures WellTyped(f)
    ensures f.Keys <= {CallSid, Sid, Revision, Price}
    ensures (CallSid in f <==> r.callSid.Some?) && (r.callSid.Some? ==> f[CallSid] == Str(r.callSid.value))
    ensures (Sid in f <==> r.sid.Some?) && (r.sid.Some? ==> f[Sid] == Int(r.sid.value))
    ensures (Revision in f <==> r.revision.Some?) && (r.revision.Some? ==> f[Revision] == Int(r.revision.value))
    ensures (Price in f <==> r.price.Some?) && (r.price.Some? ==> f[Price] == Str(r.price.value))
  {
    var withCallSid: Attrs := if r.callSid.Some? then map[CallSid := Str(r.callSid.value)] else map[];
    var withSid := if r.sid.Some? then withCallSid[Sid := Int(r.sid.value)] else withCallSid;
    var withRevision := if r.revision.Some? then withSid[Revision := Int(r.revision.value)] else withSid;
    if r.price.Some? then withRevision[Price := Str(r.price.value)] else withRevision
  }

  /** Write every field the response carries into the state, overwriting what was there;
      every other attribute keeps its value. */
  function Project(attrs: Attrs, r: CallRecording): (a: Attrs)
    ensures a.Keys == attrs.Keys + ResponseFields(r).Keys
    ensures forall x :: x in ResponseFields(r) ==> a[x] == ResponseFields(r)[x]
    ensures forall x :: x in attrs && x !in ResponseFields(r) ==> a[x] == attrs[x]
    ensures WellTyped(attrs) ==> WellTyped(a)
  {
    attrs + ResponseFields(r)
  }

  /** Projecting the same response twice is projecting it once. */
  lemma ProjectIdempotent(attrs: Attrs, r: CallRecording)
    ensures Project(Project(attrs, r), r) == Project(attrs, r)
  {
    var once := Project(attrs, r);
    assert Project(once, r).Keys == once.Keys;
  }

  /** Projection touches no request input, so the requests read before and after agree. */
  lemma ProjectKeepsInputs(attrs: Attrs, r: CallRecording)
    ensures CreateRequest(Project(attrs, r)) == CreateRequest(attrs)
    ensures UpdateRequest(Project(attrs, r)) == UpdateRequest(attrs)
    ensures WantsUpdate(Project(attrs, r)) == WantsUpdate(attrs)
  {
    var fields := ResponseFields(r);
    assert PathAccountSid !in fields && RecordingStatusCallback !in fields && PauseBehavior !in fields;
  }

  /** What one Create does: the state, identifier and calls afterwards, and its error. */
  datatype CreateOutcome = CreateOutcome(attrs: Attrs, id: string, calls: seq<Call>, err: Option<AdapterError>)

  /** Create against a client that answers every call with `reply`, or fails the create or
      the update call with the given message. */
  function CreateSpec(
    attrs: Attrs, id: string, reply: CallRecording,
    createFailure: Option<string>, updateFailure: Option<string>): (o: CreateOutcome)
    requires StringAt(attrs, CallSid).Some?
    // one create call comes first, keyed by the call SID, with the create inputs that are set
    ensures 1 <= |o.calls| <= 2
    ensures o.calls[0] == CreateCall(StringAt(attrs, CallSid).value, CreateRequest(attrs))
    // a second, update call follows exactly when the create succeeded and an update-only input is set
    ensures |o.calls| == 2 <==> createFailure.None? && reply.sid.Some? && WantsUpdate(attrs)
    ensures |o.calls| == 2 ==>
      o.calls[1] == UpdateCall(StringAt(attrs, CallSid).value, reply.sid.value, UpdateRequest(attrs))
    // a failed create records nothing
    ensures createFailure.Some? || reply.sid.None? ==> o.attrs == attrs && o.id == id
    // a successful create records the identifier and the response, even if the update fails
    ensures createFailure.None? && reply.sid.Some? ==>
      o.id == Encode(Key(StringAt(attrs, CallSid).value, reply.sid.value)) && o.attrs == Project(attrs, reply)
    ensures o.err.None? <==>
      createFailure.None? && reply.sid.Some? && (WantsUpdate(attrs) ==> updateFailure.None?)
    // which error comes back: a remote failure unchanged, or the missing recording SID
    ensures createFailure.Some? ==> o.err == Some(Remote(createFailure.value))
    ensures createFailure.None? && reply.sid.None? ==> o.err == Some(MissingSid)
    ensures createFailure.None? && reply.sid.Some? && WantsUpdate(attrs) && updateFailure.Some? ==>
      o.err == Some(Remote(updateFailure.value))
    ensures WellTyped(attrs) ==> WellTyped(o.attrs)
  {
    var callSid := StringAt(attrs, CallSid).value;
    var create := CreateCall(callSid, CreateRequest(attrs));
    if createFailure.Some? then CreateOutcome(attrs, id, [create], Some(Remote(createFailure.value)))
    else if reply.sid.None? then CreateOutcome(attrs, id, [create], Some(MissingSid))
    else
      var sid := reply.sid.value;
      var newId := Encode(Key(callSid, sid));
      var created := Project(attrs, reply);
      ProjectKeepsInputs(attrs, reply);
      if !WantsUpdate(created) then CreateOutcome(created, newId, [create], None)
      else
        var update := UpdateCall(callSid, sid, UpdateRequest(created));
        if updateFailure.Some? then CreateOutcome(created, newId, [create, update], Some(Remote(updateFailure.value)))
        else
          ProjectIdempotent(attrs, reply);
          CreateOutcome(Project(created, reply), newId, [create, update], None)
  }

  /** The state Import leaves: the key parsed out of the identifier, or the codec's error. */
  function ImportState(attrs: Attrs, id: string): (r: Result<Attrs, CodecError>)
    ensures r.Err? <==> Decode(id).Err?
    ensures r.Err? ==> r.error == Decode(id).error
    ensures r.Ok? ==> r.value.Keys == attrs.Keys + {CallSid, Sid}
    ensures r.Ok? ==> r.value[CallSid] == Str(Decode(id).value.callSid) && r.value[Sid] == Int(Decode(id).value.sid)
    ensures r.Ok? ==> forall a :: a in attrs && a != CallSid && a != Sid ==> r.value[a] == attrs[a]
    ensures r.Ok? && WellTyped(attrs) ==> WellTyped(r.value)
  {
    match Decode(id)
    case Err(e) => Err(e)
    case Ok(k) => Ok(attrs[CallSid := Str(k.callSid)][Sid := Int(k.sid)])
  }

  /** Importing an encoded identifier sets `call_sid` to the call SID and `sid` to the number. */
  lemma ImportEncoded(attrs: Attrs, k: Key)
    requires ValidKey(k)
    ensures ImportState(attrs, Encode(k)).Ok?
    ensures ImportState(attrs, Encode(k)).value[CallSid] == Str(k.callSid)
    ensures ImportState(attrs, Encode(k)).value[Sid] == Int(k.sid)
  {
    DecodeEncode(k);
  }

  /** Importing a one-segment identifier fails with an error saying "invalid". */
  lemma ImportSingleSegment(attrs: Attrs, id: string)
    requires Separator !in id
    ensures ImportState(attrs, id) == Err(InvalidId(id))
    ensures ContainsSubstring(ErrorMessage(Codec(ImportState(attrs, id).error)), "invalid")
  {
    SingleSegmentRejected(id);
  }

  /** After a successful Create, importing the recorded identifier gives back the same key. */
  lemma CreateThenImport(attrs: Attrs, id: string, reply: CallRecording, updateFailure: Option<string>)
    requires StringAt(attrs, CallSid).Some? && Separator !in StringAt(attrs, CallSid).value
    requires reply.sid.Some?
    ensures var o := CreateSpec(attrs, id, reply, None, updateFailure);
      ImportState(o.attrs, o.id).Ok?
      && ImportState(o.attrs, o.id).value[CallSid] == attrs[CallSid]
      && ImportState(o.attrs, o.id).value[Sid] == Int(reply.sid.value)
  {
    var o := CreateSpec(attrs, id, reply, None, updateFailure);
    ImportEncoded(o.attrs, Key(StringAt(attrs, CallSid).value, reply.sid.value));
  }

  /** When the response names no other call, the recorded identifier agrees with the created
      state: importing it changes nothing. */
  lemma CreateIdMatchesState(attrs: Attrs, id: string, reply: CallRecording, updateFailure: Option<string>)
    requires StringAt(attrs, CallSid).Some? && Separator !in StringAt(attrs, CallSid).value
    requires reply.sid.Some?
    requires reply.callSid.None? || reply.callSid == StringAt(attrs, CallSid)
    ensures var o := CreateSpec(attrs, id, reply, None, updateFailure);
      ImportState(o.attrs, o.id) == Ok(o.attrs)
  {
    var o := CreateSpec(attrs, id, reply, None, updateFailure);
    ImportEncoded(o.attrs, Key(StringAt(attrs, CallSid).value, reply.sid.value));
    var a := ImportState(o.attrs, o.id).value;
    assert o.attrs[CallSid] == attrs[CallSid] == a[CallSid];
    assert o.attrs[Sid] == a[Sid];
    assert a.Keys == o.attrs.Keys;
    assert forall x :: x in a ==> a[x] == o.attrs[x];
    assert a == o.attrs;
  }

  /** The identifier's call SID is the request's, while the state's `call_sid` is overwritten
      by the response's, so the two can differ. */
  lemma CreateIdFromRequest(attrs: Attrs, id: string, reply: CallRecording, updateFailure: Option<string>)
    requires StringAt(attrs, CallSid).Some? && Separator !in StringAt(attrs, CallSid).value
    requires reply.sid.Some? && reply.callSid.Some?
    ensures var o := CreateSpec(attrs, id, reply, None, updateFailure);
      Decode(o.id) == Ok(Key(StringAt(attrs, CallSid).value, reply.sid.value))
      && o.attrs[CallSid] == Str(reply.callSid.value)
  {
    DecodeEncode(Key(StringAt(attrs, CallSid).value, reply.sid.value));
  }

  /** The state bag the framework passes to each operation: attribute values and the identifier. */
  class ResourceData {
    var attrs: Attrs
    var id: string

    /** Every stored value has the type the schema gives its attribute. */
    predicate Valid()
      reads this
    {
      WellTyped(attrs)
    }

    constructor ()
      ensures Valid() && attrs == map[] && id == ""
    {
      attrs := map[];
      id := "";
    }

    /** The value of an attribute, by schema name, if it has been set. This stands for the
        framework's `Get`; where `Get` would give Go's zero value for an unset attribute,
        this gives `None`. */
    function Lookup(name: string): (v: Option<Value>)
      reads this
      ensures v.Some? <==> AttributeNamed(name).Some? && AttributeNamed(name).value in attrs
      ensures v.Some? ==> v.value == attrs[AttributeNamed(name).value]
    {
      match AttributeNamed(name)
      case None => None
      case Some(a) => if a in attrs then Some(attrs[a]) else None
    }

    /** Set an attribute by schema name; an unknown name or a value of the wrong type is refused. */
    method Set(name: string, v: Value) returns (ok: bool)
      requires Valid()
      modifies this`attrs
      ensures Valid()
      ensures ok <==> AttributeNamed(name).Some? && HasType(AttributeNamed(name).value, v)
      ensures attrs == if ok then old(attrs)[AttributeNamed(name).value := v] else old(attrs)
    {
      var a := AttributeNamed(name);
      ok := a.Some? && HasType(a.value, v);
      if ok {
        attrs := attrs[a.value := v];
      }
    }

    method SetId(newId: string)
      modifies this`id
      ensures id == newId
    {
      id := newId;
    }
  }

  /** A stand-in for the remote API: it logs every call and answers each with a fixed
      recording, unless that kind of call is set to fail. */
  class RecordingClient {
    const reply: CallRecording
    const createFailure: Option<string>
    const updateFailure: Option<string>
    var calls: seq<Call>

    constructor (reply: CallRecording, createFailure: Option<string>, updateFailure: Option<string>)
      ensures this.reply == reply && this.createFailure == createFailure && this.updateFailure == updateFailure
      ensures calls == []
    {
      this.reply := reply;
      this.createFailure := createFailure;
      this.updateFailure := updateFailure;
      calls := [];
    }

    method CreateCallRecording(callSid: string, params: CreateParams) returns (r: Result<CallRecording, string>)
      modifies this`calls
      ensures calls == old(calls) + [CreateCall(callSid, params)]
      ensures r == if createFailure.Some? then Err(createFailure.value) else Ok(reply)
    {
      calls := calls + [CreateCall(callSid, params)];
      r := if createFailure.Some? then Err(createFailure.value) else Ok(reply);
    }

    method UpdateCallRecording(callSid: string, sid: Int64, params: UpdateParams) returns (r: Result<CallRecording, string>)
      modifies this`calls
      ensures calls == old(calls) + [UpdateCall(callSid, sid, params)]
      ensures r == if updateFailure.Some? then Err(updateFailure.value) else Ok(reply)
    {
      calls := calls + [UpdateCall(callSid, sid, params)];
      r := if updateFailure.Some? then Err(updateFailure.value) else Ok(reply);
    }
  }

  /** The second half of Create: send the update inputs for the new recording and write the
      response back; a failed update leaves the state as it was. */
  method SendUpdate(d: ResourceData, c: RecordingClient, callSid: string, sid: Int64)
    returns (err: Option<AdapterError>)
    requires d.Valid()
    modifies d`attrs, c`calls
    ensures d.Valid()
    ensures c.calls == old(c.calls) + [UpdateCall(callSid, sid, UpdateRequest(old(d.attrs)))]
    ensures err == if c.updateFailure.Some? then Some(Remote(c.updateFailure.value)) else None
    ensures d.attrs == if c.updateFailure.Some? then old(d.attrs) else Project(old(d.attrs), c.reply)
  {
    var updated := c.UpdateCallRecording(callSid, sid, UpdateRequest(d.attrs));
    if updated.Err? {
      return Some(Remote(updated.error));
    }
    d.attrs := Project(d.attrs, updated.value);
    err := None;
  }

  /** Create the recording: one create call with the create inputs, then, when an update-only
      input is set, one update call keyed by the new recording's SID; the identifier and the
      response fields are written back as soon as the create call succeeds. */
  method Create(d: ResourceData, c: RecordingClient) returns (err: Option<AdapterError>)
    requires d.Valid() && StringAt(d.attrs, CallSid).Some?
    modifies d, c
    ensures d.Valid()
    ensures var o := CreateSpec(old(d.attrs), old(d.id), c.reply, c.createFailure, c.updateFailure);
      d.attrs == o.attrs && d.id == o.id && c.calls == old(c.calls) + o.calls && err == o.err
  {
    ghost var before, log := d.attrs, c.calls;
    var callSid := StringAt(d.attrs, CallSid).value;
    var created := c.CreateCallRecording(callSid, CreateRequest(d.attrs));
    if created.Err? {
      return Some(Remote(created.error));
    }
    var recording := created.value;
    if recording.sid.None? {
      return Some(MissingSid);
    }
    var sid := recording.sid.value;
    d.id := Encode(Key(callSid, sid));
    d.attrs := Project(d.attrs, recording);
    ProjectKeepsInputs(before, recording);
    if !WantsUpdate(d.attrs) {
      return None;
    }
    err := SendUpdate(d, c, callSid, sid);
    ProjectIdempotent(before, recording);
    assert c.calls == log + ([CreateCall(callSid, CreateRequest(before))] + [UpdateCall(callSid, sid, UpdateRequest(before))]);
  }

  /** Import: parse the stored identifier into `call_sid` and `sid`, without calling the
      remote API; a malformed identifier leaves the state as it was. */
  method Import(d: ResourceData) returns (err: Option<AdapterError>)
    requires d.Valid()
    modifies d`attrs
    ensures d.Valid()
    ensures match ImportState(old(d.attrs), d.id)
      case Ok(a) => err == None && d.attrs == a
      case Err(e) => err == Some(Codec(e)) && d.attrs == old(d.attrs)
  {
    match ImportState(d.attrs, d.id)
    case Err(e) =>
      err := Some(Codec(e));
    case Ok(a) =>
      d.attrs := a;
      err := None;
  }
}
