/** The values the recording pipeline passes around: bytes and blobs, the
    recorder's chunk events, and the wrappers for a call that either returns
    or throws. */
module Media {
  import opened Text

  type byte = b: int | 0 <= b < 256

  datatype Option<+T> = None | Some(value: T)

  /** A call that returns a value or throws an error with a message. */
  datatype Result<+T> = Ok(value: T) | Err(message: string)

  /** A Blob: its bytes and its `type` attribute. */
  datatype Blob = Blob(bytes: seq<byte>, mimeType: string)

  /** The `type` a Blob constructor stores for a requested type (File API,
      section 3.1 "Constructors"): the ASCII lower-cased type when every
      character lies in U+0020..U+007E, and the empty string otherwise. */
  function BlobTypeOf(requested: string): (t: string)
    ensures (forall k :: 0 <= k < |requested| ==> ' ' <= requested[k] <= '~') ==> t == Lower(requested)
    ensures (exists k :: 0 <= k < |requested| && !(' ' <= requested[k] <= '~')) ==> t == ""
  {
    if forall k :: 0 <= k < |requested| ==> ' ' <= requested[k] <= '~' then Lower(requested) else ""
  }

  /** The bytes of the parts, one after another. */
  function Concat(parts: seq<Blob>): seq<byte>
  {
    if parts == [] then [] else Concat(parts[..|parts| - 1]) + parts[|parts| - 1].bytes
  }

  /** The sum of the parts' sizes. */
  function TotalSize(parts: seq<Blob>): nat
  {
    if parts == [] then 0 else TotalSize(parts[..|parts| - 1]) + |parts[|parts| - 1].bytes|
  }

  /** `new Blob(parts, { type: requested })`. */
  function MakeBlob(parts: seq<Blob>, requested: string): (b: Blob)
    ensures |b.bytes| == TotalSize(parts)
    ensures b.mimeType == BlobTypeOf(requested)
  {
    ConcatLength(parts);
    Blob(Concat(parts), BlobTypeOf(requested))
  }

  /** The assembled recording is exactly as long as its chunks together. */
  lemma {:induction false} ConcatLength(parts: seq<Blob>)
    ensures |Concat(parts)| == TotalSize(parts)
  {
    if parts != [] {
      ConcatLength(parts[..|parts| - 1]);
    }
  }

  /** Whether the recorder's `dataavailable` handler keeps a chunk: it must
      carry data and the data must not be empty. */
  predicate Kept(data: Option<Blob>)
  {
    data.Some? && |data.value.bytes| > 0
  }

  /** The chunks the handler keeps out of the events delivered, in delivery
      order. */
  function KeptChunks(delivered: seq<Option<Blob>>): seq<Blob>
  {
    if delivered == [] then []
    else
      var last := delivered[|delivered| - 1];
      KeptChunks(delivered[..|delivered| - 1]) + (if Kept(last) then [last.value] else [])
  }

  /** One more event adds its chunk at the end when it is kept, and nothing
      otherwise. */
  lemma KeptChunksAppend(delivered: seq<Option<Blob>>, data: Option<Blob>)
    ensures KeptChunks(delivered + [data]) == KeptChunks(delivered) + (if Kept(data) then [data.value] else [])
  {
    assert (delivered + [data])[..|delivered|] == delivered;
  }

  /** The kept chunks are exactly the non-empty data delivered, and there
      are never more of them than events. */
  lemma {:induction false} KeptChunksMembers(delivered: seq<Option<Blob>>)
    ensures |KeptChunks(delivered)| <= |delivered|
    ensures forall c :: c in KeptChunks(delivered) <==> Some(c) in delivered && |c.bytes| > 0
  {
    if delivered != [] {
      var front := delivered[..|delivered| - 1];
      KeptChunksMembers(front);
      assert delivered == front + [delivered[|delivered| - 1]];
    }
  }

  /** The bytes of every event that carried data, empty or not. */
  function DeliveredBytes(delivered: seq<Option<Blob>>): seq<byte>
  {
    if delivered == [] then []
    else
      var last := delivered[|delivered| - 1];
      DeliveredBytes(delivered[..|delivered| - 1]) + (if last.Some? then last.value.bytes else [])
  }

  /** Dropping the empty chunks loses no bytes: the recording assembled from
      the kept chunks holds everything the recorder delivered. */
  lemma {:induction false} KeptChunksKeepAllBytes(delivered: seq<Option<Blob>>)
    ensures Concat(KeptChunks(delivered)) == DeliveredBytes(delivered)
  {
    if delivered != [] {
      var last := delivered[|delivered| - 1];
      var front := delivered[..|delivered| - 1];
      KeptChunksKeepAllBytes(front);
      var k := KeptChunks(front);
      assert delivered == front + [last];
      if Kept(last) {
        assert (k + [last.value])[..|k|] == k;
      } else {
        assert KeptChunks(delivered) == k;
        if last.Some? {
          assert last.value.bytes == [];
          assert DeliveredBytes(delivered) == DeliveredBytes(front) + [];
        }
      }
    }
  }

  /** The file assembled from the kept chunks holds every byte the recorder
      delivered, in delivery order. */
  lemma RecordingHoldsDeliveredBytes(delivered: seq<Option<Blob>>, requested: string)
    ensures MakeBlob(KeptChunks(delivered), requested).bytes == DeliveredBytes(delivered)
  {
    KeptChunksKeepAllBytes(delivered);
  }
}
