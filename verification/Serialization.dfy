/** The two writers that bound and measure serialized JSON. */
module Serialization {

  type Byte = b: int | 0 <= b < 256
  type Bytes = seq<Byte>

  const USIZE_MAX: int := 0xffff_ffff_ffff_ffff

  /** What a serializer emits, however it cuts its output into buffers. */
  function Flatten(chunks: seq<Bytes>): Bytes {
    if chunks == [] then [] else Flatten(chunks[..|chunks| - 1]) + chunks[|chunks| - 1]
  }

  lemma {:induction false} PrefixIsShorter(chunks: seq<Bytes>, k: nat)
    requires k <= |chunks|
    ensures |Flatten(chunks[..k])| <= |Flatten(chunks)|
    decreases |chunks| - k
  {
    if k == |chunks| {
      assert chunks[..k] == chunks;
    } else {
      PrefixIsShorter(chunks, k + 1);
      assert chunks[..k + 1][..k] == chunks[..k];
    }
  }

  class LimitedWriter {
    var bytes: Bytes
    const limit: nat

    constructor (limit: nat)
      ensures bytes == [] && this.limit == limit
    {
      bytes := [];
      this.limit := limit;
    }

    predicate Valid()
      reads this
    {
      |bytes| <= limit
    }

    /** A buffer that would pass the limit is refused whole. */
    method Write(buffer: Bytes) returns (ok: bool)
      requires Valid()
      modifies this
      ensures Valid()
      ensures ok <==> |old(bytes)| + |buffer| <= limit
      ensures bytes == if ok then old(bytes) + buffer else old(bytes)
    {
      var room := if limit < |bytes| then 0 else limit - |bytes|;
      if |buffer| > room {
        return false;
      }
      bytes := bytes + buffer;
      ok := true;
    }

    /** Serializing succeeds exactly when everything fits, whatever the buffers; the limit always holds. */
    method Serialize(chunks: seq<Bytes>) returns (ok: bool)
      requires Valid()
      modifies this
      ensures Valid()
      ensures ok <==> |old(bytes)| + |Flatten(chunks)| <= limit
      ensures ok ==> bytes == old(bytes) + Flatten(chunks)
    {
      var i := 0;
      while i < |chunks|
        invariant 0 <= i <= |chunks|
        invariant Valid()
        invariant bytes == old(bytes) + Flatten(chunks[..i])
      {
        assert chunks[..i + 1][..i] == chunks[..i];
        PrefixIsShorter(chunks, i + 1);
        ok := Write(chunks[i]);
        if !ok {
          return;
        }
        i := i + 1;
      }
      assert chunks[..i] == chunks;
      ok := true;
    }
  }

  class CountingWriter {
    var count: nat

    constructor ()
      ensures count == 0
    {
      count := 0;
    }

    /** The counter is a machine word, and the addition is checked. */
    method Write(buffer: Bytes) returns (ok: bool)
      modifies this
      ensures ok <==> old(count) + |buffer| <= USIZE_MAX
      ensures count == if ok then old(count) + |buffer| else old(count)
    {
      if count + |buffer| > USIZE_MAX {
        return false;
      }
      count := count + |buffer|;
      ok := true;
    }

    method Serialize(chunks: seq<Bytes>) returns (ok: bool)
      requires count <= USIZE_MAX
      modifies this
      ensures ok <==> old(count) + |Flatten(chunks)| <= USIZE_MAX
      ensures ok ==> count == old(count) + |Flatten(chunks)|
    {
      var i := 0;
      while i < |chunks|
        invariant 0 <= i <= |chunks|
        invariant count == old(count) + |Flatten(chunks[..i])| && count <= USIZE_MAX
      {
        assert chunks[..i + 1][..i] == chunks[..i];
        PrefixIsShorter(chunks, i + 1);
        ok := Write(chunks[i]);
        if !ok {
          return;
        }
        i := i + 1;
      }
      assert chunks[..i] == chunks;
      ok := true;
    }
  }
}
