/** The inverse of the batch download: decodeDownloadFrames finds the one list
    of frames a body encodes, or an error when there is none. */
module FrameDecoder {
  import opened Tables
  import opened Wire
  import opened FrameStream

  datatype DecodeError = TruncatedKeyLength(at: nat) | TruncatedFrame(at: nat) | TruncatedBlob(at: nat)
  datatype Decoded<+T> = Frames(value: T) | Bad(error: DecodeError)

  ghost predicate IsDecoding(fs: seq<Frame>, body: seq<byte>) { AllFit(fs) && EncodeAll(fs) == body }

  /** The fields of f lie at this offset. */
  predicate Reads(f: Frame, body: seq<byte>, at: nat)
    requires at + OVERHEAD + |f.key| + |f.blob| <= |body|
  {
    var k := at + 2 + |f.key|;
    ReadU16(body, at) == |f.key| && body[at + 2..k] == f.key && body[k] == f.status &&
    ReadU32(body, k + 1) == |f.blob| && body[k + 5..k + 5 + |f.blob|] == f.blob
  }

  lemma RestLayout(f: Frame, body: seq<byte>, at: nat)
    requires Fits(f) && at + OVERHEAD + |f.key| + |f.blob| <= |body|
    ensures var k, end := at + 2 + |f.key|, at + OVERHEAD + |f.key| + |f.blob|;
            body[at + 2..end] == Rest(f) <==>
              body[at + 2..k] == f.key && body[k] == f.status && ReadU32(body, k + 1) == |f.blob| &&
                body[k + 5..end] == f.blob
  {
    hide U32, ReadU32;
    var k, end := at + 2 + |f.key|, at + OVERHEAD + |f.key| + |f.blob|;
    SplitsAt(body, at + 2, end, f.key, [f.status] + (U32(|f.blob|) + f.blob));
    SplitsAt(body, k, end, [f.status], U32(|f.blob|) + f.blob);
    SplitsAt(body, k + 1, end, U32(|f.blob|), f.blob);
    ReadsU32(body, k + 1, |f.blob|);
    assert body[k..k + 1] == [body[k]];
  }

  lemma Layout(f: Frame, body: seq<byte>, at: nat)
    requires Fits(f) && at + |Encode(f)| <= |body|
    ensures body[at..at + |Encode(f)|] == Encode(f) <==> Reads(f, body, at)
  {
    hide U16, U32, ReadU16, ReadU32, Rest;
    SplitsAt(body, at, at + |Encode(f)|, U16(|f.key|), Rest(f));
    RestLayout(f, body, at);
    ReadsU16(body, at, |f.key|);
  }

  /** These frames are the start of every decoding of the body. */
  ghost predicate Starts(frames: seq<Frame>, body: seq<byte>) {
    forall fs | IsDecoding(fs, body) :: |frames| <= |fs| && fs[..|frames|] == frames
  }

  lemma {:induction false} EncodePrefix(fs: seq<Frame>, n: nat)
    requires AllFit(fs) && n < |fs|
    ensures |EncodeAll(fs[..n])| + |Encode(fs[n])| <= |EncodeAll(fs)|
    ensures var at := |EncodeAll(fs[..n])|;
            EncodeAll(fs)[..at] == EncodeAll(fs[..n]) && EncodeAll(fs)[at..at + |Encode(fs[n])|] == Encode(fs[n])
    decreases |fs|
  {
    hide Encode, Fits;
    var last := |fs| - 1;
    if n < last {
      EncodePrefix(fs[..last], n);
      assert fs[..last][..n] == fs[..n];
    }
  }

  /** When frames start every decoding and take up body[..at], a further frame
      of any decoding lies at this offset. */
  lemma NextLies(frames: seq<Frame>, body: seq<byte>, at: nat, fs: seq<Frame>)
    requires AllFit(frames) && at < |body| && EncodeAll(frames) == body[..at]
    requires Starts(frames, body) && IsDecoding(fs, body)
    ensures |frames| < |fs| && at + |Encode(fs[|frames|])| <= |body| && Reads(fs[|frames|], body, at)
  {
    hide Encode, EncodeAll, Reads, Fits;
    assert fs[..|fs|] == fs;
    EncodePrefix(fs, |frames|);
    Layout(fs[|frames|], body, at);
  }

  lemma Extends(frames: seq<Frame>, body: seq<byte>, at: nat, f: Frame)
    requires AllFit(frames) && at < |body| && EncodeAll(frames) == body[..at] && Starts(frames, body)
    requires Fits(f) && at + |Encode(f)| <= |body| && Reads(f, body, at)
    ensures AllFit(frames + [f]) && EncodeAll(frames + [f]) == body[..at + |Encode(f)|] && Starts(frames + [f], body)
  {
    hide Encode, EncodeAll, Reads;
    EncodeSnoc(frames, f);
    Layout(f, body, at);
    assert body[..at + |Encode(f)|] == body[..at] + body[at..at + |Encode(f)|];
    forall fs | IsDecoding(fs, body) ensures |frames| + 1 <= |fs| && fs[..|frames| + 1] == frames + [f] {
      NextLies(frames, body, at, fs);
      SameRead(f, fs[|frames|], body, at);
      assert fs[..|frames| + 1] == fs[..|frames|] + [fs[|frames|]];
    }
  }

  lemma SameRead(f: Frame, g: Frame, body: seq<byte>, at: nat)
    requires at + OVERHEAD + |f.key| + |f.blob| <= |body| && at + OVERHEAD + |g.key| + |g.blob| <= |body|
    requires Reads(f, body, at) && Reads(g, body, at)
    ensures f == g
  {
  }

  /** The error names the first field that is cut short, and where it should start. */
  predicate CutShort(body: seq<byte>, at: nat, error: DecodeError)
    requires at < |body|
  {
    match error
    case TruncatedKeyLength(from) => from == at && |body| < at + 2
    case TruncatedFrame(from) => from == at + 2 <= |body| && |body| < from + ReadU16(body, at) + 5
    case TruncatedBlob(from) =>
      at + 2 <= |body| && from == at + OVERHEAD + ReadU16(body, at) <= |body| && |body| < from + ReadU32(body, from - 4)
  }

  /** The loop body: the frame at this offset, or that none is there. */
  method DecodeFrame(body: array<byte>, at: nat) returns (r: Decoded<Frame>)
    requires at < body.Length
    ensures r.Frames? ==>
            at + OVERHEAD + |r.value.key| + |r.value.blob| <= body.Length && Fits(r.value) &&
            Reads(r.value, body[..], at)
    ensures r.Bad? ==> forall f | Fits(f) && at + |Encode(f)| <= body.Length :: !Reads(f, body[..], at)
    ensures r.Bad? ==> CutShort(body[..], at, r.error)
  {
    hide Encode;
    var offset := at;
    if body.Length - offset < 2 { return Bad(TruncatedKeyLength(offset)); }
    var keyLen := ReadU16(body[..], offset);
    offset := offset + 2;
    if body.Length - offset < keyLen + 5 { return Bad(TruncatedFrame(offset)); }
    var key := body[offset..offset + keyLen];
    offset := offset + keyLen;
    var status := body[offset];
    offset := offset + 1;
    var blobLen := ReadU32(body[..], offset);
    offset := offset + 4;
    if body.Length - offset < blobLen { return Bad(TruncatedBlob(offset)); }
    var blob := body[offset..offset + blobLen];
    assert key == body[..][at + 2..at + 2 + keyLen] && blob == body[..][offset..offset + blobLen];
    return Frames(Frame(key, status, blob));
  }

  /** Decoding succeeds exactly on encodings, with the frames encoded. */
  method DecodeDownloadFrames(body: array<byte>) returns (r: Decoded<seq<Frame>>)
    ensures r.Frames? ==> IsDecoding(r.value, body[..])
    ensures forall fs | IsDecoding(fs, body[..]) :: r == Frames(fs)
    ensures r.Bad? ==> exists fs, at: nat ::
            at < body.Length && IsDecoding(fs, body[..][..at]) && CutShort(body[..], at, r.error)
  {
    hide Encode, EncodeAll, Reads, CutShort;
    Begin(body[..]);
    var frames, offset := [], 0;
    while offset < body.Length
      invariant 0 <= offset <= body.Length
      invariant AllFit(frames) && EncodeAll(frames) == body[..][..offset] && Starts(frames, body[..])
      decreases body.Length - offset
    {
      var frame := DecodeFrame(body, offset);
      if frame.Bad? {
        forall fs | IsDecoding(fs, body[..]) ensures false {
          NextLies(frames, body[..], offset, fs);
        }
        assert IsDecoding(frames, body[..][..offset]);
        return Bad(frame.error);
      }
      Extends(frames, body[..], offset, frame.value);
      frames := frames + [frame.value];
      offset := offset + OVERHEAD + |frame.value.key| + |frame.value.blob|;
    }
    assert body[..][..offset] == body[..];
    forall fs | IsDecoding(fs, body[..]) ensures fs == frames { OneDecoding(fs, frames, body[..]); }
    return Frames(frames);
  }

  lemma Begin(body: seq<byte>)
    ensures AllFit([]) && EncodeAll([]) == body[..0] && Starts([], body)
  {
  }

  lemma {:induction false} OneDecoding(fs: seq<Frame>, frames: seq<Frame>, body: seq<byte>)
    requires IsDecoding(fs, body) && IsDecoding(frames, body) && |frames| <= |fs| && fs[..|frames|] == frames
    ensures fs == frames
  {
    if |frames| < |fs| { EncodePrefix(fs, |frames|); }
  }

  /** No two lists of frames have one encoding. */
  lemma {:induction false} EncodingInjective(fs: seq<Frame>, gs: seq<Frame>, n: nat)
    requires AllFit(fs) && AllFit(gs) && EncodeAll(fs) == EncodeAll(gs) && n <= |fs| <= |gs|
    ensures fs[..n] == gs[..n] && (n == |fs| ==> fs == gs)
  {
    hide Encode, Reads, Fits, EncodeAll;
    var body := EncodeAll(fs);
    if n > 0 {
      EncodingInjective(fs, gs, n - 1);
      EncodePrefix(fs, n - 1);
      EncodePrefix(gs, n - 1);
      var at := |EncodeAll(fs[..n - 1])|;
      Layout(fs[n - 1], body, at);
      Layout(gs[n - 1], body, at);
      SameRead(fs[n - 1], gs[n - 1], body, at);
      assert fs[..n] == fs[..n - 1] + [fs[n - 1]] && gs[..n] == gs[..n - 1] + [gs[n - 1]];
    }
    if n == |fs| {
      assert fs[..n] == fs;
      OneDecoding(gs, fs, body);
    }
  }
}
