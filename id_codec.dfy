/** The composite identifier of a call recording: the call SID, a literal `/`, then the
    recording SID in decimal (`"CA123/123"`). */
module IdCodec {
  import opened Wrappers
  import opened Decimal
  import opened Segments

  const Separator: char := '/'

  /** The key that addresses one recording: its call and its own numeric SID. */
  datatype Key = Key(callSid: string, sid: Int64)

  datatype CodecError =
    | InvalidId(id: string)        // not exactly two `/`-separated segments
    | NotAnInteger(segment: string) // the second segment is not a Go `int`

  /** Keys whose call SID is free of the separator; only these survive a round trip. */
  predicate ValidKey(k: Key) {
    Separator !in k.callSid
  }

  /** The text of a codec error: every codec failure is reported as an invalid identifier,
      and the message names the offending text. */
  function Message(e: CodecError): (m: string)
    ensures ContainsSubstring(m, "invalid")
    ensures ContainsSubstring(m, if e.InvalidId? then e.id else e.segment)
  {
    var prefix := "invalid identifier: ";
    var subject := if e.InvalidId? then e.id else e.segment;
    var suffix := if e.InvalidId? then " (expected <call_sid>/<sid>)" else " is not an integer";
    var m := prefix + subject + suffix;
    assert OccursAt(m, "invalid", 0);
    assert OccursAt(m, subject, |prefix|);
    m
  }

  /** The identifier of a key, as `fmt.Sprintf("%s/%d", callSid, sid)` builds it: one more
      `/` than the call SID holds, since the decimal text never contains one. */
  function Encode(k: Key): (id: string)
    ensures Count(id, Separator) == Count(k.callSid, Separator) + 1
  {
    var digits := IntToString(k.sid);
    CountAppend(k.callSid, [Separator] + digits, Separator);
    CountAppend([Separator], digits, Separator);
    CountZero(digits, Separator);
    assert k.callSid + [Separator] + digits == k.callSid + ([Separator] + digits);
    k.callSid + [Separator] + digits
  }

  /** Split on `/`; exactly two segments, the second read as an integer. */
  function Decode(id: string): (r: Result<Key, CodecError>)
    ensures r.Ok? ==> ValidKey(r.value)
    ensures r.Ok? ==> Count(id, Separator) == 1
  {
    var parts := Split(id, Separator);
    SplitCount(id, Separator);
    if |parts| != 2 then Err(InvalidId(id))
    else match ParseInt(parts[1])
      case None => Err(NotAnInteger(parts[1]))
      case Some(n) => Ok(Key(parts[0], n))
  }

  lemma EncodeSegments(k: Key)
    requires ValidKey(k)
    ensures Split(Encode(k), Separator) == [k.callSid, IntToString(k.sid)]
  {
    var digits := IntToString(k.sid);
    assert Separator !in digits;
    SplitAfterPrefix(k.callSid, Separator, digits);
    SplitNoSeparator(digits, Separator);
  }

  /** Decoding an encoded key gives the key back. */
  lemma DecodeEncode(k: Key)
    requires ValidKey(k)
    ensures Decode(Encode(k)) == Ok(k)
  {
    EncodeSegments(k);
    ParseIntRoundTrip(k.sid);
  }

  /** What decodes is the call SID, a `/`, then a second segment that Atoi reads as the
      recording SID (not necessarily `%d`'s text: `"CA1/+7"` decodes like `"CA1/7"`). */
  lemma DecodeSegments(id: string)
    requires Decode(id).Ok?
    ensures var k := Decode(id).value;
      |k.callSid| < |id| && id == k.callSid + [Separator] + id[|k.callSid| + 1..]
      && ParseInt(id[|k.callSid| + 1..]) == Some(k.sid)
  {
    var parts := Split(id, Separator);
    SplitCount(id, Separator);
    JoinSplit(id, Separator);
    assert parts[1..] == [parts[1]];
    assert id == parts[0] + [Separator] + parts[1];
    assert id[|parts[0]| + 1..] == parts[1];
  }

  /** Conversely, a `/`-free call SID, a `/` and any text Atoi reads decode to that key. */
  lemma DecodeOfSegments(k: Key, second: string)
    requires ValidKey(k) && ParseInt(second) == Some(k.sid)
    ensures Decode(k.callSid + [Separator] + second) == Ok(k)
  {
    SplitAfterPrefix(k.callSid, Separator, second);
    SplitNoSeparator(second, Separator);
  }

  /** Encoding is one-to-one on valid keys. */
  lemma EncodeInjective(k1: Key, k2: Key)
    requires ValidKey(k1) && ValidKey(k2) && Encode(k1) == Encode(k2)
    ensures k1 == k2
  {
    DecodeEncode(k1);
    DecodeEncode(k2);
  }

  /** A call SID that holds `/` makes an identifier with more than two segments,
      which decoding rejects rather than splitting wrongly. */
  lemma EncodeInvalidKey(k: Key)
    requires !ValidKey(k)
    ensures Decode(Encode(k)) == Err(InvalidId(Encode(k)))
  {
    SplitCount(Encode(k), Separator);
    CountZero(k.callSid, Separator);
  }

  /** The structural error happens exactly when the number of separators is not one. */
  lemma DecodeArity(id: string)
    ensures Decode(id).Err? && Decode(id).error.InvalidId? <==> Count(id, Separator) != 1
  {
    SplitCount(id, Separator);
  }

  /** A one-segment identifier such as `"CA123"` is rejected with an error saying "invalid". */
  lemma SingleSegmentRejected(id: string)
    requires Separator !in id
    ensures Decode(id) == Err(InvalidId(id))
    ensures ContainsSubstring(Message(Decode(id).error), "invalid")
  {
    SplitNoSeparator(id, Separator);
  }

  /** The identifier of the recording used throughout the test file. */
  lemma FixtureEncode()
    ensures Encode(Key("CA123", 123)) == "CA123/123"
  {
    ParseIntLenient();
  }

  /** The test file's identifier decodes to its key; its call SID alone is rejected. */
  lemma FixtureDecode()
    ensures Decode("CA123/123") == Ok(Key("CA123", 123))
    ensures Decode("CA123") == Err(InvalidId("CA123"))
  {
    FixtureEncode();
    DecodeEncode(Key("CA123", 123));
    SingleSegmentRejected("CA123");
  }
}
