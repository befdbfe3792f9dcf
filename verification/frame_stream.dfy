/** The framed batch download: the capped stream of cmd/server/blobs.go against
    the decoder of cmd/compare/frames.go, and the client that asks again for
    what was left out. */
module FrameStream {
  import opened Tables
  import opened Wire

  const MAX_BATCH_BYTES := 33_554_432
  const MAX_BLOB_BYTES := 104_857_600
  const OVERHEAD := 7

  const OK: byte := 0
  const MISSING: byte := 1
  const OMITTED: byte := 2

  type Key = seq<byte>

  datatype Frame = Frame(key: Key, status: byte, blob: seq<byte>)

  /** What opening and reading a blob file does. A file that changes under the
      server may yield more or fewer bytes than it was said to hold. */
  datatype File = Unopenable | Opened(size: nat, content: seq<byte>, readFails: bool)

  datatype Store = Store(user: seq<byte>, files: map<Key, File>)

  predicate ValidKey(user: seq<byte>, key: Key) {
    |user| == 36 && |key| == 73 && key[..36] == user && key[36] == 0x2F && ValidUuidBytes(key[37..])
  }

  predicate Available(store: Store, key: Key) {
    ValidKey(store.user, key) && key in store.files && store.files[key].Opened? &&
      store.files[key].size <= MAX_BLOB_BYTES
  }

  /** Keys whose length the frame header can carry. */
  predicate Short(keys: seq<Key>) { forall i | 0 <= i < |keys| :: |keys[i]| < 0x10000 }

  // ---- The encoding -----------------------------------------------------------------

  predicate Fits(f: Frame) { |f.key| < 0x10000 && |f.blob| < 0x1_0000_0000 }
  predicate AllFit(fs: seq<Frame>) { forall i | 0 <= i < |fs| :: Fits(fs[i]) }

  function Rest(f: Frame): (s: seq<byte>)
    requires Fits(f)
    ensures |s| == |f.key| + 5 + |f.blob|
  {
    f.key + ([f.status] + (U32(|f.blob|) + f.blob))
  }

  function Encode(f: Frame): (s: seq<byte>)
    requires Fits(f)
    ensures |s| == OVERHEAD + |f.key| + |f.blob|
  {
    U16(|f.key|) + Rest(f)
  }

  function EncodeAll(fs: seq<Frame>): seq<byte>
    requires AllFit(fs)
  {
    if fs == [] then [] else EncodeAll(fs[..|fs| - 1]) + Encode(fs[|fs| - 1])
  }

  lemma FrameBytes(f: Frame)
    ensures Fits(f) ==> Encode(f) == U16(|f.key|) + f.key + [f.status] + U32(|f.blob|) + f.blob
  {
  }

  lemma EncodeSnoc(fs: seq<Frame>, f: Frame)
    requires AllFit(fs) && Fits(f)
    ensures AllFit(fs + [f]) && EncodeAll(fs + [f]) == EncodeAll(fs) + Encode(f)
  {
    assert (fs + [f])[..|fs|] == fs;
  }

  // ---- The stream -------------------------------------------------------------------

  predicate Shipped(sent: seq<Frame>) { exists i | 0 <= i < |sent| :: sent[i].status == OK }

  /** A blob that would take the stream over the cap, after some blob shipped. */
  predicate Overflows(store: Store, sent: seq<Frame>, key: Key)
    requires AllFit(sent) && Available(store, key)
  {
    Shipped(sent) && |EncodeAll(sent)| + OVERHEAD + |key| + store.files[key].size > MAX_BATCH_BYTES
  }

  function NextFrame(store: Store, sent: seq<Frame>, key: Key): Frame
    requires AllFit(sent)
  {
    if !Available(store, key) then Frame(key, MISSING, [])
    else if Overflows(store, sent, key) then Frame(key, OMITTED, [])
    else Frame(key, OK, store.files[key].content)
  }

  /** The keys that end the transfer: a file that cannot be opened, or one that
      is being sent and does not yield what its header says. */
  predicate Breaks(store: Store, sent: seq<Frame>, key: Key)
    requires AllFit(sent)
  {
    ValidKey(store.user, key) && key in store.files &&
    (store.files[key].Unopenable? ||
     (Available(store, key) && !Overflows(store, sent, key) &&
      (store.files[key].readFails || |store.files[key].content| != store.files[key].size)))
  }

  /** The frames of a transfer, or None when it breaks off. */
  function Plan(store: Store, keys: seq<Key>): (fs: Option<seq<Frame>>)
    requires Short(keys)
    ensures fs.Some? ==> AllFit(fs.value)
  {
    if keys == [] then Some([])
    else
      var key := keys[|keys| - 1];
      match Plan(store, keys[..|keys| - 1])
      case None => None
      case Some(sent) => if Breaks(store, sent, key) then None else Some(sent + [NextFrame(store, sent, key)])
  }

  class Writer {
    var out: seq<byte>

    constructor ()
      ensures out == []
    {
      out := [];
    }

    method WriteFrameHeader(key: Key, status: byte, blobLen: nat)
      requires |key| < 0x10000 && blobLen < 0x1_0000_0000
      modifies this
      ensures out == old(out) + U16(|key|) + key + [status] + U32(blobLen)
    {
      var header := U16(|key|);
      header := header + key;
      header := header + [status];
      header := header + U32(blobLen);
      out := out + header;
    }

    method Write(bytes: seq<byte>)
      modifies this
      ensures out == old(out) + bytes
    {
      out := out + bytes;
    }

    /** One key: its whole frame, or a failure. */
    method WriteFrame(store: Store, key: Key, written: nat, shipped: bool, ghost sent: seq<Frame>)
        returns (ok: bool, length: nat, isBlob: bool)
      requires |key| < 0x10000 && AllFit(sent) && written == |EncodeAll(sent)| && shipped == Shipped(sent)
      modifies this
      ensures ok == !Breaks(store, sent, key)
      ensures ok ==> var f := NextFrame(store, sent, key);
                     Fits(f) && out == old(out) + Encode(f) && length == |Encode(f)| && isBlob == (f.status == OK)
    {
      hide Encode, EncodeAll, ValidKey, Shipped, U16, U32;
      FrameBytes(NextFrame(store, sent, key));
      var size, file := 0, None;
      if ValidKey(store.user, key) && key in store.files {
        var found := store.files[key];
        if found.Unopenable? { return false, 0, false; }
        if found.size <= MAX_BLOB_BYTES { size, file := found.size, Some(found); }
      }
      var fixed := OVERHEAD + |key|;
      if file == None {
        WriteFrameHeader(key, MISSING, 0);
        return true, fixed, false;
      } else if shipped && written + fixed + size > MAX_BATCH_BYTES {
        WriteFrameHeader(key, OMITTED, 0);
        return true, fixed, false;
      } else {
        WriteFrameHeader(key, OK, size);
        Write(file.value.content);
        return !file.value.readFails && |file.value.content| == size, fixed + size, true;
      }
    }

    method StreamBlobBatch(store: Store, keys: seq<Key>) returns (ok: bool)
      requires Short(keys)
      modifies this
      ensures ok == Plan(store, keys).Some?
      ensures ok ==> out == old(out) + EncodeAll(Plan(store, keys).value)
      ensures ok ==> IsStream(store, keys, Plan(store, keys).value)
      ensures ok <==> Streamable(store, keys)
    {
      CompletesExactly(store, keys);
      hide Plan, Breaks, NextFrame, Encode, EncodeAll, Shipped, IsStream, Streamable, AllFit;
      Begins(store, keys);
      var written, shipped := 0, false;
      ghost var sent: seq<Frame> := [];
      for i := 0 to |keys|
        invariant AllFit(sent) && Sent(store, keys, i, sent, written, shipped)
        invariant out == old(out) + EncodeAll(sent)
      {
        var wrote, length, isBlob := WriteFrame(store, keys[i], written, shipped, sent);
        Continues(store, keys, i, sent, written, shipped);
        if !wrote { return false; }
        sent := sent + [NextFrame(store, sent, keys[i])];
        written := written + length;
        shipped := shipped || isBlob;
      }
      Ends(store, keys, sent, written, shipped);
      return true;
    }
  }

  /** After the first i keys: the frames sent, their length, and whether a blob is among them. */
  ghost predicate Sent(store: Store, keys: seq<Key>, i: nat, sent: seq<Frame>, written: nat, shipped: bool)
    requires i <= |keys| && Short(keys)
  {
    Plan(store, keys[..i]) == Some(sent) && AllFit(sent) && written == |EncodeAll(sent)| && shipped == Shipped(sent)
  }

  lemma Begins(store: Store, keys: seq<Key>)
    requires Short(keys)
    ensures AllFit([]) && EncodeAll([]) == [] && Sent(store, keys, 0, [], 0, false)
  {
  }

  lemma Continues(store: Store, keys: seq<Key>, i: nat, sent: seq<Frame>, written: nat, shipped: bool)
    requires i < |keys| && Short(keys) && Sent(store, keys, i, sent, written, shipped)
    ensures Breaks(store, sent, keys[i]) ==> Plan(store, keys).None?
    ensures var f := NextFrame(store, sent, keys[i]);
            !Breaks(store, sent, keys[i]) && Fits(f) ==>
              AllFit(sent + [f]) && EncodeAll(sent + [f]) == EncodeAll(sent) + Encode(f) &&
              Sent(store, keys, i + 1, sent + [f], written + |Encode(f)|, shipped || f.status == OK)
  {
    hide Breaks, NextFrame, Encode, EncodeAll, Shipped;
    PlanStep(store, keys, i);
    if Breaks(store, sent, keys[i]) {
      PlanBreaks(store, keys, i + 1);
    } else {
      var f := NextFrame(store, sent, keys[i]);
      if Fits(f) { EncodeSnoc(sent, f); }
      ShippedSnoc(sent, f);
    }
  }

  lemma Ends(store: Store, keys: seq<Key>, sent: seq<Frame>, written: nat, shipped: bool)
    requires Short(keys) && Sent(store, keys, |keys|, sent, written, shipped)
    ensures Plan(store, keys) == Some(sent) && IsStream(store, keys, sent)
  {
    assert keys[..|keys|] == keys;
    PlanIsStream(store, keys);
  }

  lemma ShippedSnoc(sent: seq<Frame>, f: Frame)
    ensures Shipped(sent + [f]) <==> Shipped(sent) || f.status == OK
  {
    assert (sent + [f])[|sent|] == f;
    if Shipped(sent) {
      var i :| 0 <= i < |sent| && sent[i].status == OK;
      assert (sent + [f])[i] == sent[i];
    }
  }

  lemma PlanStep(store: Store, keys: seq<Key>, i: nat)
    requires i < |keys| && Short(keys)
    ensures Plan(store, keys[..i + 1]) ==
            match Plan(store, keys[..i])
            case None => None
            case Some(sent) => if Breaks(store, sent, keys[i]) then None
              else Some(sent + [NextFrame(store, sent, keys[i])])
  {
    assert keys[..i + 1][..i] == keys[..i];
  }

  lemma {:induction false} PlanBreaks(store: Store, keys: seq<Key>, i: nat)
    requires i <= |keys| && Short(keys) && Plan(store, keys[..i]) == None
    ensures Plan(store, keys) == None
    decreases |keys| - i
  {
    if i < |keys| {
      PlanStep(store, keys, i);
      PlanBreaks(store, keys, i + 1);
    } else {
      assert keys[..i] == keys;
    }
  }

  // ---- What a client may rely on -------------------------------------------------

  /** A key in the caller's own directory whose file exists. */
  predicate Named(store: Store, key: Key) {
    |store.user| == 36 && |key| == 73 && (forall i | 0 <= i < 36 :: key[i] == store.user[i]) && key[36] == 0x2F &&
    ValidUuidBytes(key[37..]) && key in store.files
  }

  /** What the server offers: such a file that can be opened and holds at most 100 MiB. */
  predicate Offered(store: Store, key: Key) {
    Named(store, key) && store.files[key].Opened? && store.files[key].size <= 100 * 1024 * 1024
  }

  lemma OfferedIsAvailable(store: Store, key: Key)
    ensures Named(store, key) <==> ValidKey(store.user, key) && key in store.files
    ensures Offered(store, key) <==> Available(store, key)
  {
    hide ValidUuidBytes;
    if |store.user| == 36 && |key| == 73 {
      assert key[..36] == store.user <==> forall i | 0 <= i < 36 :: key[i] == store.user[i];
    }
  }

  /** One frame per key, in order. Status 1 says exactly that nothing is offered; 0
      carries the whole file, read without error; 2 says that the blob does not fit
      under 32 MiB after another shipped. No file of the caller's failed to open. */
  predicate IsFrame(store: Store, key: Key, frames: seq<Frame>, i: nat)
    requires i < |frames| && AllFit(frames)
  {
    var f := frames[i];
    f.key == key && f.status in {0, 1, 2} && (Named(store, key) ==> store.files[key].Opened?) &&
    (f.status == 1 <==> !Offered(store, key)) && (f.status != 0 ==> f.blob == []) &&
    (f.status == 0 ==>
      f.blob == store.files[key].content && |f.blob| == store.files[key].size && !store.files[key].readFails) &&
    (f.status == 2 ==>
      Shipped(frames[..i]) && |EncodeAll(frames[..i])| + 7 + |key| + store.files[key].size > 32 * 1024 * 1024) &&
    (f.status == 0 && Shipped(frames[..i]) ==> |EncodeAll(frames[..i + 1])| <= 32 * 1024 * 1024)
  }

  predicate IsStream(store: Store, keys: seq<Key>, frames: seq<Frame>) {
    |frames| == |keys| && AllFit(frames) && forall i | 0 <= i < |keys| :: IsFrame(store, keys[i], frames, i)
  }

  ghost predicate Streamable(store: Store, keys: seq<Key>) { exists frames :: IsStream(store, keys, frames) }

  lemma NextIsFrame(store: Store, sent: seq<Frame>, key: Key)
    requires |key| < 0x10000 && AllFit(sent) && !Breaks(store, sent, key)
    ensures var frames := sent + [NextFrame(store, sent, key)]; AllFit(frames) && IsFrame(store, key, frames, |sent|)
  {
    OfferedIsAvailable(store, key);
    hide ValidUuidBytes, Named, ValidKey;
    var f := NextFrame(store, sent, key);
    EncodeSnoc(sent, f);
    assert (sent + [f])[..|sent|] == sent && (sent + [f])[..|sent| + 1] == sent + [f];
  }

  lemma {:induction false} PlanIsStream(store: Store, keys: seq<Key>)
    requires Short(keys) && Plan(store, keys).Some?
    ensures IsStream(store, keys, Plan(store, keys).value)
  {
    if keys != [] {
      var n := |keys| - 1;
      PlanIsStream(store, keys[..n]);
      var sent := Plan(store, keys[..n]).value;
      NextIsFrame(store, sent, keys[n]);
      var frames := Plan(store, keys).value;
      forall i | 0 <= i < n ensures IsFrame(store, keys[i], frames, i) {
        assert IsFrame(store, keys[..n][i], sent, i);
        assert frames[..i] == sent[..i] && frames[..i + 1] == sent[..i + 1];
      }
    }
  }

  /** The description leaves no choice: it has at most one stream. */
  lemma {:induction false} StreamUnique(store: Store, keys: seq<Key>, a: seq<Frame>, b: seq<Frame>, n: nat)
    requires n <= |keys| && IsStream(store, keys, a) && IsStream(store, keys, b)
    ensures a[..n] == b[..n]
  {
    if n > 0 {
      StreamUnique(store, keys, a, b, n - 1);
      assert IsFrame(store, keys[n - 1], a, n - 1) && IsFrame(store, keys[n - 1], b, n - 1);
      FrameUnique(store, keys[n - 1], a, b, n - 1);
      assert a[..n] == a[..n - 1] + [a[n - 1]] && b[..n] == b[..n - 1] + [b[n - 1]];
    }
  }

  lemma FrameUnique(store: Store, key: Key, a: seq<Frame>, b: seq<Frame>, i: nat)
    requires i < |a| && i < |b| && AllFit(a) && AllFit(b) && a[..i] == b[..i]
    requires IsFrame(store, key, a, i) && IsFrame(store, key, b, i)
    ensures a[i] == b[i]
  {
    assert a[..i + 1] == a[..i] + [a[i]] && b[..i + 1] == b[..i] + [b[i]];
    EncodeSnoc(a[..i], a[i]);
    EncodeSnoc(b[..i], b[i]);
  }

  /** A transfer is completed exactly when there is such a stream, and then it is that
      stream: no transfer breaks off but for a file of the caller's that cannot be
      opened, or one being sent that does not yield what its header says. */
  lemma {:induction false} CompletedExactly(store: Store, keys: seq<Key>, frames: seq<Frame>)
    requires Short(keys) && IsStream(store, keys, frames)
    ensures Plan(store, keys) == Some(frames)
  {
    if keys != [] {
      var n := |keys| - 1;
      StreamPrefix(store, keys, frames, n);
      CompletedExactly(store, keys[..n], frames[..n]);
      Unbroken(store, keys[n], frames, n);
      NextIsFrame(store, frames[..n], keys[n]);
      var next := frames[..n] + [NextFrame(store, frames[..n], keys[n])];
      assert next[..n] == frames[..n];
      hide IsFrame, Encode, EncodeAll, Breaks, NextFrame;
      FrameUnique(store, keys[n], frames, next, n);
      assert frames == frames[..n] + [frames[n]];
    } else {
      assert frames == [];
    }
  }

  lemma CompletesExactly(store: Store, keys: seq<Key>)
    requires Short(keys)
    ensures Plan(store, keys).Some? <==> Streamable(store, keys)
  {
    hide IsStream, Plan;
    if Plan(store, keys).Some? { PlanIsStream(store, keys); }
    if frames :| IsStream(store, keys, frames) { CompletedExactly(store, keys, frames); }
  }

  lemma StreamPrefix(store: Store, keys: seq<Key>, frames: seq<Frame>, n: nat)
    requires IsStream(store, keys, frames) && n < |keys|
    ensures IsStream(store, keys[..n], frames[..n]) && IsFrame(store, keys[n], frames, n)
  {
    forall i | 0 <= i < n ensures IsFrame(store, keys[..n][i], frames[..n], i) {
      assert IsFrame(store, keys[i], frames, i);
      assert frames[..n][..i] == frames[..i] && frames[..n][..i + 1] == frames[..i + 1];
    }
  }

  lemma Unbroken(store: Store, key: Key, frames: seq<Frame>, i: nat)
    requires i < |frames| && AllFit(frames) && IsFrame(store, key, frames, i)
    ensures !Breaks(store, frames[..i], key) && |key| < 0x10000
  {
    OfferedIsAvailable(store, key);
    hide ValidUuidBytes, Named, ValidKey, Encode;
    assert frames[..i + 1] == frames[..i] + [frames[i]];
    EncodeSnoc(frames[..i], frames[i]);
  }

  /** The first blob there is always ships. */
  lemma FirstAvailableShips(store: Store, keys: seq<Key>, frames: seq<Frame>, i: nat)
    requires IsStream(store, keys, frames) && i < |keys|
    requires Offered(store, keys[i]) && forall j | 0 <= j < i :: !Offered(store, keys[j])
    ensures frames[i].status == OK
  {
    assert IsFrame(store, keys[i], frames, i);
    forall j | 0 <= j < i ensures frames[..i][j].status == 1 {
      assert IsFrame(store, keys[j], frames, j);
    }
  }

  // ---- Asking again -----------------------------------------------------------------

  function OmittedKeys(frames: seq<Frame>): (keys: seq<Key>)
    ensures |keys| <= |frames|
    ensures forall k | k in keys :: exists i | 0 <= i < |frames| :: frames[i].key == k && frames[i].status == OMITTED
    ensures forall i | 0 <= i < |frames| && frames[i].status == OMITTED :: frames[i].key in keys
    ensures Shipped(frames) ==> |keys| < |frames|
  {
    if frames == [] then []
    else
      var n := |frames| - 1;
      OmittedKeys(frames[..n]) + (if frames[n].status == OMITTED then [frames[n].key] else [])
  }

  function Received(frames: seq<Frame>): (blobs: map<Key, seq<byte>>)
    ensures forall k | k in blobs :: exists i | 0 <= i < |frames| :: frames[i] == Frame(k, OK, blobs[k])
    ensures forall i | 0 <= i < |frames| && frames[i].status == OK :: frames[i].key in blobs
  {
    if frames == [] then map[]
    else
      var n := |frames| - 1;
      var blobs := Received(frames[..n]);
      if frames[n].status == OK then blobs[frames[n].key := frames[n].blob] else blobs
  }

  /** Something is left out only when something shipped, so a client that asks
      again for what was left out asks for less each time. */
  lemma AskingAgainIsShorter(store: Store, keys: seq<Key>)
    requires Short(keys) && keys != [] && Plan(store, keys).Some?
    ensures var again := OmittedKeys(Plan(store, keys).value); |again| < |keys| && Short(again)
  {
    PlanIsStream(store, keys);
    var frames := Plan(store, keys).value;
    var again := OmittedKeys(frames);
    forall i | 0 <= i < |again| ensures |again[i]| < 0x10000 {
      assert again[i] in again;
    }
    if again != [] {
      assert again[0] in again;
      var i :| 0 <= i < |frames| && frames[i].key == again[0] && frames[i].status == OMITTED;
      assert IsFrame(store, keys[i], frames, i);
      var j :| 0 <= j < i && frames[..i][j].status == OK;
      assert frames[j].status == OK;
    }
  }

  /** Ask, then ask again for the omitted keys, until none is left. */
  function Fetch(store: Store, keys: seq<Key>): Option<map<Key, seq<byte>>>
    requires Short(keys)
    decreases |keys|
  {
    if keys == [] then Some(map[])
    else
      match Plan(store, keys)
      case None => None
      case Some(frames) =>
        AskingAgainIsShorter(store, keys);
        match Fetch(store, OmittedKeys(frames))
        case None => None
        case Some(rest) => Some(rest + Received(frames))
  }

  predicate Delivered(store: Store, keys: seq<Key>, blobs: map<Key, seq<byte>>) {
    blobs.Keys == (set k | k in keys && Offered(store, k)) &&
    forall k | k in blobs :: blobs[k] == store.files[k].content && |blobs[k]| == store.files[k].size
  }

  lemma DeliveredOnce(store: Store, keys: seq<Key>, frames: seq<Frame>)
    requires IsStream(store, keys, frames)
    ensures forall k :: k in Received(frames) ==>
              k in keys && Offered(store, k) && Received(frames)[k] == store.files[k].content &&
                |Received(frames)[k]| == store.files[k].size
    ensures forall k :: k in OmittedKeys(frames) ==> k in keys && Offered(store, k)
    ensures forall k :: k in keys && Offered(store, k) ==> k in OmittedKeys(frames) || k in Received(frames)
  {
    forall k | k in Received(frames)
      ensures k in keys && Offered(store, k) && Received(frames)[k] == store.files[k].content &&
              |Received(frames)[k]| == store.files[k].size
    {
      var i :| 0 <= i < |frames| && frames[i] == Frame(k, OK, Received(frames)[k]);
      assert IsFrame(store, keys[i], frames, i);
    }
    forall k | k in OmittedKeys(frames) ensures k in keys && Offered(store, k) {
      var i :| 0 <= i < |frames| && frames[i].key == k && frames[i].status == OMITTED;
      assert IsFrame(store, keys[i], frames, i);
    }
    forall k | k in keys && Offered(store, k) ensures k in OmittedKeys(frames) || k in Received(frames) {
      var i :| 0 <= i < |keys| && keys[i] == k;
      assert IsFrame(store, keys[i], frames, i);
    }
  }

  /** Every available blob arrives, whole, and nothing else does. */
  lemma {:induction false} FetchDelivers(store: Store, keys: seq<Key>)
    requires Short(keys) && Fetch(store, keys).Some?
    ensures Delivered(store, keys, Fetch(store, keys).value)
    decreases |keys|
  {
    if keys != [] {
      var frames := Plan(store, keys).value;
      AskingAgainIsShorter(store, keys);
      PlanIsStream(store, keys);
      FetchDelivers(store, OmittedKeys(frames));
      DeliveredOnce(store, keys, frames);
    }
  }

  /** Every file can be opened and yields as many bytes as it was said to hold. */
  predicate Steady(store: Store) {
    forall k | k in store.files ::
      store.files[k].Opened? && !store.files[k].readFails && |store.files[k].content| == store.files[k].size
  }

  lemma {:induction false} SteadyPlan(store: Store, keys: seq<Key>)
    requires Short(keys) && Steady(store)
    ensures Plan(store, keys).Some?
  {
    if keys != [] { SteadyPlan(store, keys[..|keys| - 1]); }
  }

  lemma {:induction false} SteadyFetch(store: Store, keys: seq<Key>)
    requires Short(keys) && Steady(store)
    ensures Fetch(store, keys).Some? && Delivered(store, keys, Fetch(store, keys).value)
    decreases |keys|
  {
    if keys != [] {
      SteadyPlan(store, keys);
      AskingAgainIsShorter(store, keys);
      SteadyFetch(store, OmittedKeys(Plan(store, keys).value));
    }
    FetchDelivers(store, keys);
  }
}
