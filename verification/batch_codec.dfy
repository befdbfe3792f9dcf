/** The framed batch upload: the parser of cmd/server against the encoder of
    cmd/compare. A body is accepted exactly when it is the encoding of 1 to 200
    valid entries, and then those entries are what the parser returns. */
module BatchCodec {
  import opened Tables
  import opened Wire

  const MAX_ENTRIES := 200

  datatype Entry = Entry(operation: byte, identifier: seq<byte>, version: nat, blob: seq<byte>)

  datatype ParseError =
    | TooManyEntries | InvalidOperation | TruncatedIdentifierLength | TruncatedIdentifier | InvalidIdentifier
    | InvalidMutationId | InvalidObjectId | TruncatedVersion | CreateVersionNotZero | UpdateVersionZero
    | TruncatedBlobLength | EmptyBlob | TruncatedBlob | NoEntries

  datatype Parsed<+T> = Ok(value: T) | Err(error: ParseError)

  predicate ValidEntry(e: Entry) {
    (if e.operation == 0 then ValidMutationId(e.identifier) && e.version == 0
     else e.operation == 1 && ValidUuidBytes(e.identifier) && 0 < e.version < 0x1_0000_0000) &&
    0 < |e.blob| < 0x1_0000_0000
  }

  /** batchEntryFrame. */
  function Encode(e: Entry): seq<byte>
    requires ValidEntry(e)
  {
    [e.operation] + (U16(|e.identifier|) + Body(e))
  }

  /** From the version on. */
  function Tail(e: Entry): (s: seq<byte>)
    requires ValidEntry(e)
    ensures |s| == 8 + |e.blob|
  {
    U32(e.version) + (U32(|e.blob|) + e.blob)
  }

  /** From the identifier on. */
  function Body(e: Entry): (s: seq<byte>)
    requires ValidEntry(e)
    ensures |s| == |e.identifier| + 8 + |e.blob|
  {
    e.identifier + Tail(e)
  }

  predicate AllValid(es: seq<Entry>) { forall i | 0 <= i < |es| :: ValidEntry(es[i]) }

  function EncodeAll(es: seq<Entry>): seq<byte>
    requires AllValid(es)
  {
    if es == [] then [] else Encode(es[0]) + EncodeAll(es[1..])
  }

  /** One frame at this offset: the entry and where the next frame starts. */
  function ParseEntry(body: seq<byte>, at: nat): (r: Parsed<(Entry, nat)>)
    requires at < |body|
    ensures r.Ok? ==> at < r.value.1 <= |body|
  {
    var op := body[at];
    if op > 1 then Err(InvalidOperation)
    else if |body| - (at + 1) < 2 then Err(TruncatedIdentifierLength)
    else
      var idLen := ReadU16(body, at + 1);
      if |body| - (at + 3) < idLen then Err(TruncatedIdentifier)
      else
        var id := body[at + 3..at + 3 + idLen];
        var v := at + 3 + idLen;
        if !Utf8Valid(id) then Err(InvalidIdentifier)
        else if op == 0 && !ValidMutationId(id) then Err(InvalidMutationId)
        else if op == 1 && !ValidUuidBytes(id) then Err(InvalidObjectId)
        else if |body| - v < 4 then Err(TruncatedVersion)
        else
          var version := ReadU32(body, v);
          if op == 0 && version != 0 then Err(CreateVersionNotZero)
          else if op == 1 && version == 0 then Err(UpdateVersionZero)
          else if |body| - (v + 4) < 4 then Err(TruncatedBlobLength)
          else
            var blobLen := ReadU32(body, v + 4);
            if blobLen == 0 then Err(EmptyBlob)
            else if blobLen > |body| - (v + 8) then Err(TruncatedBlob)
            else Ok((Entry(op, id, version, body[v + 8..v + 8 + blobLen]), v + 8 + blobLen))
  }

  /** The rest of the body, after these entries. */
  function ParseFrom(body: seq<byte>, at: nat, parsed: seq<Entry>): Parsed<seq<Entry>>
    requires at <= |body|
    decreases |body| - at
  {
    if at == |body| then (if parsed == [] then Err(NoEntries) else Ok(parsed))
    else if |parsed| == MAX_ENTRIES then Err(TooManyEntries)
    else
      match ParseEntry(body, at)
      case Err(error) => Err(error)
      case Ok((entry, next)) => ParseFrom(body, next, parsed + [entry])
  }

  /** The body of the loop. */
  method ReadEntry(body: array<byte>, at: nat) returns (r: Parsed<(Entry, nat)>)
    requires at < body.Length
    ensures r == ParseEntry(body[..], at)
  {
    ghost var all := body[..];
    var offset := at;
    var op := body[offset];
    offset := offset + 1;
    if op > 1 { return Err(InvalidOperation); }
    if body.Length - offset < 2 { return Err(TruncatedIdentifierLength); }
    var idLen := body[offset] as nat * 256 + body[offset + 1] as nat;
    offset := offset + 2;
    if body.Length - offset < idLen { return Err(TruncatedIdentifier); }
    var id := body[offset..offset + idLen];
    assert id == all[at + 3..at + 3 + idLen];
    offset := offset + idLen;
    if !Utf8Valid(id) { return Err(InvalidIdentifier); }
    if op == 0 && !ValidMutationId(id) { return Err(InvalidMutationId); }
    if op == 1 && !ValidUuidBytes(id) { return Err(InvalidObjectId); }
    if body.Length - offset < 4 { return Err(TruncatedVersion); }
    var version := BigEndian(body, offset);
    offset := offset + 4;
    if op == 0 && version != 0 { return Err(CreateVersionNotZero); }
    if op == 1 && version == 0 { return Err(UpdateVersionZero); }
    if body.Length - offset < 4 { return Err(TruncatedBlobLength); }
    var blobLen := BigEndian(body, offset);
    offset := offset + 4;
    if blobLen == 0 { return Err(EmptyBlob); }
    if blobLen > body.Length - offset { return Err(TruncatedBlob); }
    var blob := body[offset..offset + blobLen];
    assert blob == all[offset..offset + blobLen];
    return Ok((Entry(op, id, version, blob), offset + blobLen));
  }

  method BigEndian(body: array<byte>, at: nat) returns (n: nat)
    requires at + 4 <= body.Length
    ensures n == ReadU32(body[..], at)
  {
    n := 0;
    for i := 0 to 4
      invariant n == [0, body[at] as nat, ReadU16(body[..], at), ReadU16(body[..], at) * 256 + body[at + 2] as nat,
                ReadU32(body[..], at)][i]
    {
      n := n * 256 + body[at + i] as nat;
    }
  }

  method ParseBatch(body: array<byte>) returns (r: Parsed<seq<Entry>>)
    ensures r == ParseFrom(body[..], 0, [])
    ensures r.Ok? <==> exists es :: IsBatch(es, body[..])
    ensures r.Ok? ==> IsBatch(r.value, body[..])
    ensures r.Err? ==> Refused(body[..], r.error)
  {
    Refuses(body[..]);
    Exact(body[..]);
    hide Refused;
    var entries, offset := [], 0;
    while offset < body.Length
      invariant 0 <= offset <= body.Length && |entries| <= MAX_ENTRIES
      invariant ParseFrom(body[..], 0, []) == ParseFrom(body[..], offset, entries)
      decreases body.Length - offset
    {
      if |entries| == MAX_ENTRIES { return Err(TooManyEntries); }
      var entry := ReadEntry(body, offset);
      if entry.Err? { return Err(entry.error); }
      entries := entries + [entry.value.0];
      offset := entry.value.1;
    }
    if entries == [] { return Err(NoEntries); }
    return Ok(entries);
  }

  /** body is the encoding of these entries, 1 to 200 of them. */
  predicate IsBatch(es: seq<Entry>, body: seq<byte>) {
    AllValid(es) && 1 <= |es| <= 200 && EncodeAll(es) == body
  }

  // ---- Round trips ------------------------------------------------------------------

  lemma IdentifierIsUtf8(e: Entry)
    requires ValidEntry(e)
    ensures Utf8Valid(e.identifier) && |e.identifier| < 0x10000
  {
    forall i | 0 <= i < |e.identifier| ensures e.identifier[i] < 0x80 {
      if e.operation == 0 { assert Unreserved(e.identifier[i]); }
    }
    AsciiIsUtf8(e.identifier);
  }

  /** Where the fields of an encoded entry lie. */
  predicate LaidOut(e: Entry, body: seq<byte>, at: nat)
    requires ValidEntry(e) && at + 11 + |e.identifier| + |e.blob| <= |body| && |e.identifier| < 0x10000
  {
    var n, v := |e.identifier|, at + 3 + |e.identifier|;
    body[at] == e.operation && body[at + 1..at + 3] == U16(n) && body[at + 3..v] == e.identifier &&
    body[v..v + 4] == U32(e.version) && body[v + 4..v + 8] == U32(|e.blob|) && body[v + 8..v + 8 + |e.blob|] == e.blob
  }

  lemma TailLayout(e: Entry, body: seq<byte>, v: nat)
    requires ValidEntry(e) && v + 8 + |e.blob| <= |body|
    ensures body[v..v + 8 + |e.blob|] == Tail(e) <==>
            body[v..v + 4] == U32(e.version) && body[v + 4..v + 8] == U32(|e.blob|) &&
              body[v + 8..v + 8 + |e.blob|] == e.blob
  {
    SplitsAt(body, v, v + 8 + |e.blob|, U32(e.version), U32(|e.blob|) + e.blob);
    SplitsAt(body, v + 4, v + 8 + |e.blob|, U32(|e.blob|), e.blob);
  }

  lemma BodyLayout(e: Entry, body: seq<byte>, at: nat)
    requires ValidEntry(e) && at + |e.identifier| + 8 + |e.blob| <= |body|
    ensures var v, end := at + |e.identifier|, at + |e.identifier| + 8 + |e.blob|;
            body[at..end] == Body(e) <==>
              body[at..v] == e.identifier && body[v..v + 4] == U32(e.version) &&
              body[v + 4..v + 8] == U32(|e.blob|) && body[v + 8..end] == e.blob
  {
    hide U32, Tail, ValidEntry;
    SplitsAt(body, at, at + |e.identifier| + 8 + |e.blob|, e.identifier, Tail(e));
    TailLayout(e, body, at + |e.identifier|);
  }

  /** The operation and the length of the identifier, before the rest. */
  lemma HeadLayout(op: byte, length: seq<byte>, rest: seq<byte>, body: seq<byte>, at: nat)
    requires |length| == 2 && at + 3 + |rest| <= |body|
    ensures var end := at + 3 + |rest|;
            body[at..end] == [op] + (length + rest) <==>
              body[at] == op && body[at + 1..at + 3] == length && body[at + 3..end] == rest
  {
    SplitsAt(body, at, at + 3 + |rest|, [op], length + rest);
    SplitsAt(body, at + 1, at + 3 + |rest|, length, rest);
    assert body[at..at + 1] == [body[at]];
  }

  lemma Layout(e: Entry, body: seq<byte>, at: nat)
    requires ValidEntry(e) && at + 11 + |e.identifier| + |e.blob| <= |body|
    ensures |e.identifier| < 0x10000 && |Encode(e)| == 11 + |e.identifier| + |e.blob|
    ensures body[at..at + |Encode(e)|] == Encode(e) <==> LaidOut(e, body, at)
  {
    hide U16, U32, Body, ValidEntry, Utf8Valid;
    IdentifierIsUtf8(e);
    HeadLayout(e.operation, U16(|e.identifier|), Body(e), body, at);
    BodyLayout(e, body, at + 3);
  }

  /** The same, by what the parser reads. */
  predicate Reads(e: Entry, body: seq<byte>, at: nat)
    requires at + 11 + |e.identifier| + |e.blob| <= |body|
  {
    var n, v := |e.identifier|, at + 3 + |e.identifier|;
    body[at] == e.operation && ReadU16(body, at + 1) == n && body[at + 3..v] == e.identifier &&
    ReadU32(body, v) == e.version && ReadU32(body, v + 4) == |e.blob| && body[v + 8..v + 8 + |e.blob|] == e.blob
  }

  lemma ReadsWhatIsLaidOut(e: Entry, body: seq<byte>, at: nat)
    requires ValidEntry(e) && at + 11 + |e.identifier| + |e.blob| <= |body| && |e.identifier| < 0x10000
    ensures LaidOut(e, body, at) <==> Reads(e, body, at)
  {
    hide ReadU16, ReadU32, U16, U32, ValidUuidBytes, ValidMutationId;
    var v := at + 3 + |e.identifier|;
    ReadsU16(body, at + 1, |e.identifier|);
    ReadsU32(body, v, e.version);
    ReadsU32(body, v + 4, |e.blob|);
  }

  lemma ParsedReads(body: seq<byte>, at: nat, e: Entry, next: nat)
    requires at < |body| && ParseEntry(body, at) == Ok((e, next))
    ensures ValidEntry(e) && next == at + 11 + |e.identifier| + |e.blob| <= |body| && Reads(e, body, at)
  {
    hide ReadU16, ReadU32, Utf8Valid, ValidUuidBytes, ValidMutationId;
  }

  /** What parses is the encoding of what it parses to. */
  lemma ParsedIsEncoded(body: seq<byte>, at: nat, e: Entry, next: nat)
    requires at < |body| && ParseEntry(body, at) == Ok((e, next))
    ensures ValidEntry(e) && next == at + |Encode(e)| <= |body| && body[at..next] == Encode(e)
  {
    hide ParseEntry, Encode, LaidOut, Reads, ValidEntry;
    ParsedReads(body, at, e, next);
    Layout(e, body, at);
    ReadsWhatIsLaidOut(e, body, at);
  }

  lemma ReadsParse(e: Entry, body: seq<byte>, at: nat)
    requires ValidEntry(e) && at + 11 + |e.identifier| + |e.blob| <= |body| && Utf8Valid(e.identifier) &&
             Reads(e, body, at)
    ensures ParseEntry(body, at) == Ok((e, at + 11 + |e.identifier| + |e.blob|))
  {
    hide ReadU16, ReadU32, Utf8Valid, ValidUuidBytes, ValidMutationId;
  }

  /** The encoding of a valid entry parses to it, whatever follows. */
  lemma EncodedParses(e: Entry, body: seq<byte>, at: nat)
    requires ValidEntry(e) && at + |Encode(e)| <= |body| && body[at..at + |Encode(e)|] == Encode(e)
    ensures ParseEntry(body, at) == Ok((e, at + |Encode(e)|))
  {
    hide ParseEntry, LaidOut, Reads, ValidEntry, Utf8Valid;
    IdentifierIsUtf8(e);
    EncodedLength(e);
    Layout(e, body, at);
    ReadsWhatIsLaidOut(e, body, at);
    ReadsParse(e, body, at);
  }

  lemma EncodedLength(e: Entry)
    requires ValidEntry(e)
    ensures |e.identifier| < 0x10000 && |Encode(e)| == 11 + |e.identifier| + |e.blob|
  {
    IdentifierIsUtf8(e);
  }

  lemma EncodeCons(e: Entry, tail: seq<Entry>)
    requires ValidEntry(e) && AllValid(tail)
    ensures AllValid([e] + tail) && EncodeAll([e] + tail) == Encode(e) + EncodeAll(tail)
  {
    assert ([e] + tail)[1..] == tail;
  }

  lemma ParsesOn(body: seq<byte>, at: nat, parsed: seq<Entry>)
    requires at < |body| && |parsed| <= MAX_ENTRIES && ParseFrom(body, at, parsed).Ok?
    ensures ParseEntry(body, at).Ok? && |parsed| < MAX_ENTRIES
    ensures var (e, next) := ParseEntry(body, at).value;
            ParseFrom(body, at, parsed) == ParseFrom(body, next, parsed + [e])
  {
  }

  lemma {:induction false} AcceptedIsEncoded(body: seq<byte>, at: nat, parsed: seq<Entry>) returns (rest: seq<Entry>)
    requires at <= |body| && |parsed| <= MAX_ENTRIES && ParseFrom(body, at, parsed).Ok?
    ensures AllValid(rest) && ParseFrom(body, at, parsed) == Ok(parsed + rest) && |parsed| + |rest| <= MAX_ENTRIES
    ensures EncodeAll(rest) == body[at..] && parsed + rest != []
    decreases |body| - at
  {
    hide ParseEntry, Encode, ValidEntry;
    if at == |body| {
      rest := [];
      assert parsed + [] == parsed;
    } else {
      ParsesOn(body, at, parsed);
      var (e, next) := ParseEntry(body, at).value;
      ParsedIsEncoded(body, at, e, next);
      var tail := AcceptedIsEncoded(body, next, parsed + [e]);
      rest := [e] + tail;
      EncodeCons(e, tail);
      assert parsed + [e] + tail == parsed + rest;
      assert body[at..] == body[at..next] + body[next..];
    }
  }

  lemma FirstEncoded(es: seq<Entry>, body: seq<byte>, at: nat)
    requires at <= |body| && AllValid(es) && es != [] && body[at..] == EncodeAll(es)
    ensures var n := |Encode(es[0])|;
            at + n <= |body| && body[at..at + n] == Encode(es[0]) && body[at + n..] == EncodeAll(es[1..])
  {
    hide Encode, ValidEntry;
    var n := |Encode(es[0])|;
    assert |body[at..]| == n + |EncodeAll(es[1..])|;
    SplitsAt(body, at, |body|, Encode(es[0]), EncodeAll(es[1..]));
  }

  lemma StepOver(es: seq<Entry>, body: seq<byte>, at: nat, parsed: seq<Entry>)
    requires at < |body| && AllValid(es) && es != [] && |parsed| < MAX_ENTRIES
    requires at + |Encode(es[0])| <= |body| && ParseEntry(body, at) == Ok((es[0], at + |Encode(es[0])|))
    ensures ParseFrom(body, at, parsed) == ParseFrom(body, at + |Encode(es[0])|, parsed + [es[0]])
  {
    hide ParseEntry, Encode, ValidEntry;
  }

  lemma {:induction false} EncodedIsAccepted(es: seq<Entry>, body: seq<byte>, at: nat, parsed: seq<Entry>)
    requires at <= |body| && AllValid(es) && body[at..] == EncodeAll(es) && 1 <= |parsed| + |es| <= MAX_ENTRIES
    ensures ParseFrom(body, at, parsed) == Ok(parsed + es)
    decreases |es|
  {
    hide ParseEntry, Encode, ValidEntry;
    if es == [] {
      assert parsed + es == parsed;
    } else {
      FirstEncoded(es, body, at);
      EncodedParses(es[0], body, at);
      StepOver(es, body, at, parsed);
      EncodedIsAccepted(es[1..], body, at + |Encode(es[0])|, parsed + [es[0]]);
      assert parsed + [es[0]] + es[1..] == parsed + es;
    }
  }

  /** The parser accepts exactly the encodings of 1 to 200 valid entries, and
      returns what was encoded. */
  lemma Exact(body: seq<byte>)
    ensures ParseFrom(body, 0, []).Ok? ==> IsBatch(ParseFrom(body, 0, []).value, body)
    ensures forall es | IsBatch(es, body) :: ParseFrom(body, 0, []) == Ok(es)
  {
    if ParseFrom(body, 0, []).Ok? {
      var rest := AcceptedIsEncoded(body, 0, []);
      assert [] + rest == rest && body[0..] == body;
    }
    forall es | IsBatch(es, body) ensures ParseFrom(body, 0, []) == Ok(es) {
      assert body[0..] == body;
      EncodedIsAccepted(es, body, 0, []);
      assert [] + es == es;
    }
  }

  /** So framing is canonical: two lists with one encoding are one list. */
  lemma EncodingInjective(a: seq<Entry>, b: seq<Entry>)
    requires AllValid(a) && IsBatch(a, EncodeAll(a)) && IsBatch(b, EncodeAll(a))
    ensures a == b
  {
    Exact(EncodeAll(a));
  }

  // ---- Refusals -----------------------------------------------------------------

  /** What a refusal says of the rest of the body, after the entries it follows. */
  predicate Blames(error: ParseError, count: nat, rest: seq<byte>) {
    var n := if |rest| < 3 then 0 else rest[1] as nat * 256 + rest[2] as nat;
    var op, v := if rest == [] then 2 else rest[0], 3 + n;
    match error
    case NoEntries => count == 0 && rest == []
    case TooManyEntries => count == MAX_ENTRIES && rest != []
    case InvalidOperation => rest != [] && rest[0] > 1
    case TruncatedIdentifierLength => op <= 1 && |rest| < 3
    case TruncatedIdentifier => op <= 1 && 3 <= |rest| < v
    case InvalidIdentifier => op <= 1 && 3 <= v <= |rest| && !Utf8Valid(rest[3..v])
    case InvalidMutationId => op == 0 && 3 <= v <= |rest| && Utf8Valid(rest[3..v]) && !ValidMutationId(rest[3..v])
    case InvalidObjectId => op == 1 && 3 <= v <= |rest| && Utf8Valid(rest[3..v]) && !ValidUuidBytes(rest[3..v])
    case TruncatedVersion => Identified(op, rest, v) && |rest| < v + 4
    case CreateVersionNotZero => Identified(op, rest, v) && v + 4 <= |rest| && op == 0 && ReadU32(rest, v) != 0
    case UpdateVersionZero => Identified(op, rest, v) && v + 4 <= |rest| && op == 1 && ReadU32(rest, v) == 0
    case TruncatedBlobLength => Versioned(op, rest, v) && |rest| < v + 8
    case EmptyBlob => Versioned(op, rest, v) && v + 8 <= |rest| && ReadU32(rest, v + 4) == 0
    case TruncatedBlob => Versioned(op, rest, v) && v + 8 <= |rest| && |rest| < v + 8 + ReadU32(rest, v + 4)
  }

  /** A valid operation and identifier, which ends here. */
  predicate Identified(op: byte, rest: seq<byte>, v: nat) {
    3 <= v <= |rest| && ((op == 0 && ValidMutationId(rest[3..v])) || (op == 1 && ValidUuidBytes(rest[3..v])))
  }

  predicate Versioned(op: byte, rest: seq<byte>, v: nat) {
    Identified(op, rest, v) && v + 4 <= |rest| && (op == 0 <==> ReadU32(rest, v) == 0)
  }

  lemma EntryBlames(body: seq<byte>, at: nat)
    requires at < |body| && ParseEntry(body, at).Err?
    ensures Blames(ParseEntry(body, at).error, 0, body[at..]) && !ParseEntry(body, at).error.NoEntries?
    ensures !ParseEntry(body, at).error.TooManyEntries?
  {
    hide Utf8Valid, ValidUuidBytes, ValidMutationId;
    var rest := body[at..];
    if 3 <= |rest| {
      var n := ReadU16(body, at + 1);
      if 3 + n <= |rest| {
        assert rest[3..3 + n] == body[at + 3..at + 3 + n];
      }
    }
  }

  lemma BlamesAnyCount(error: ParseError, count: nat, rest: seq<byte>)
    requires Blames(error, 0, rest) && !error.NoEntries? && !error.TooManyEntries?
    ensures Blames(error, count, rest)
  {
    hide Utf8Valid, ValidUuidBytes, ValidMutationId, ReadU32;
  }

  lemma EncodeAppend(es: seq<Entry>, e: Entry)
    requires AllValid(es) && ValidEntry(e)
    ensures AllValid(es + [e]) && EncodeAll(es + [e]) == EncodeAll(es) + Encode(e)
    decreases |es|
  {
    hide Encode, ValidEntry;
    if es == [] {
      assert [] + [e] == [e] && [e][1..] == [];
    } else {
      EncodeAppend(es[1..], e);
      assert (es + [e])[1..] == es[1..] + [e];
    }
  }

  /** A refused body starts with valid entries, at most 200, and the error is what is
      wrong after them. */
  lemma {:induction false} RefusedFrom(body: seq<byte>, at: nat, parsed: seq<Entry>)
                                       returns (good: seq<Entry>, end: nat)
    requires at <= |body| && |parsed| <= MAX_ENTRIES && AllValid(parsed) && EncodeAll(parsed) == body[..at]
    requires ParseFrom(body, at, parsed).Err?
    ensures AllValid(good) && |good| <= MAX_ENTRIES && end <= |body| && EncodeAll(good) == body[..end]
    ensures Blames(ParseFrom(body, at, parsed).error, |good|, body[end..])
    decreases |body| - at
  {
    hide ParseEntry, Encode, ValidEntry, Blames, EncodeAll;
    if at == |body| || |parsed| == MAX_ENTRIES || ParseEntry(body, at).Err? {
      good, end := parsed, at;
      StopsBlame(body, at, parsed);
    } else {
      var (e, next) := ParseEntry(body, at).value;
      ParsedIsEncoded(body, at, e, next);
      EncodeAppend(parsed, e);
      assert body[..next] == body[..at] + body[at..next];
      good, end := RefusedFrom(body, next, parsed + [e]);
    }
  }

  lemma StopsBlame(body: seq<byte>, at: nat, parsed: seq<Entry>)
    requires at <= |body| && |parsed| <= MAX_ENTRIES && ParseFrom(body, at, parsed).Err?
    requires at == |body| || |parsed| == MAX_ENTRIES || ParseEntry(body, at).Err?
    ensures Blames(ParseFrom(body, at, parsed).error, |parsed|, body[at..])
  {
    hide ParseEntry, Utf8Valid, ValidUuidBytes, ValidMutationId, ReadU32;
    if at < |body| && |parsed| < MAX_ENTRIES {
      EntryBlames(body, at);
      BlamesAnyCount(ParseEntry(body, at).error, |parsed|, body[at..]);
    }
  }

  ghost predicate Refused(body: seq<byte>, error: ParseError) {
    exists good, end: nat ::
      AllValid(good) && |good| <= MAX_ENTRIES && end <= |body| && EncodeAll(good) == body[..end] &&
      Blames(error, |good|, body[end..])
  }

  lemma Refuses(body: seq<byte>)
    ensures ParseFrom(body, 0, []).Err? ==> Refused(body, ParseFrom(body, 0, []).error)
  {
    if ParseFrom(body, 0, []).Err? {
      assert EncodeAll([]) == body[..0];
      var good, end := RefusedFrom(body, 0, []);
    }
  }

  /** The frame, field by field. */
  lemma EncodedBytes(e: Entry)
    ensures ValidEntry(e) ==>
            |e.identifier| < 0x10000 && 0 <= e.version < 0x1_0000_0000 && |e.blob| < 0x1_0000_0000 &&
            Encode(e) == [e.operation] + U16(|e.identifier|) + e.identifier + U32(e.version) + U32(|e.blob|) + e.blob
  {
    hide U16, U32, ValidUuidBytes, ValidMutationId;
    if ValidEntry(e) { IdentifierIsUtf8(e); }
  }

  /** batchEntryFrame, which writes the two lengths in 16 and 32 bits. */
  method BatchEntryFrame(operation: byte, identifier: seq<byte>, version: nat, blob: seq<byte>)
                         returns (frame: seq<byte>)
    requires version < 0x1_0000_0000
    ensures ValidEntry(Entry(operation, identifier, version, blob)) ==>
            frame == Encode(Entry(operation, identifier, version, blob))
    ensures frame == [operation] + U16(|identifier| % 0x10000) + identifier + U32(version) +
                     U32(|blob| % 0x1_0000_0000) + blob
  {
    EncodedBytes(Entry(operation, identifier, version, blob));
    hide U16, U32, ValidEntry, Encode;
    frame := [operation];
    frame := frame + U16(|identifier| % 0x10000);
    frame := frame + identifier;
    frame := frame + U32(version);
    frame := frame + U32(|blob| % 0x1_0000_0000);
    frame := frame + blob;
  }
}
