/** A reader that hands out the chunks of a stream up to a length limit.

    Each slice is the start of the chunk at the head of the stream; it is erased from the stream
    by the next call.  A limit of 0 stands for no limit, as the constructor stores -1 for it; the
    limit is compared with the unsigned count of bytes delivered, so that any other negative
    limit is larger than every stream and means no limit too. */
module LimitedReader {
  import opened Bytes
  import opened ChunkedStream

  function Normalised(maxLen: int): int { if maxLen == 0 then -1 else maxLen }

  /** How many of the bytes in the stream a reader delivers. */
  function Limit(maxLen: int, total: nat): (n: nat)
    ensures n <= total
  {
    if maxLen < 0 then total else Min(maxLen, total)
  }

  function Flatten(parts: seq<seq<byte>>): seq<byte> {
    if parts == [] then [] else parts[0] + Flatten(parts[1..])
  }

  lemma {:induction false} FlattenAdd(parts: seq<seq<byte>>, p: seq<byte>)
    ensures Flatten(parts + [p]) == Flatten(parts) + p
  {
    if parts == [] {
      assert Flatten([p]) == p + Flatten([]);
    } else {
      FlattenAdd(parts[1..], p);
      assert (parts + [p])[1..] == parts[1..] + [p];
    }
  }

  class Reader {
    const stream: Stream
    const bufsize: nat
    const maxLen: int
    var prevLen: nat
    var cumLen: nat
    ghost const source: seq<byte>   // the bytes in the stream when the reader was made

    ghost function Total(): nat { Limit(maxLen, |source|) }

    ghost predicate Valid()
      reads this, stream
    {
      && bufsize > 0 && stream.Valid()
      && prevLen <= cumLen <= Total() && stream.Bytes() == source[cumLen - prevLen..]
    }

    constructor (s: Stream, size: nat, limit: int)
      requires s.Valid() && size > 0
      ensures Valid() && stream == s && source == s.Bytes() && cumLen == 0 && maxLen == Normalised(limit) &&
            bufsize == size
    {
      stream, bufsize, maxLen, prevLen, cumLen := s, size, if limit == 0 then -1 else limit, 0, 0;
      source := s.Bytes();
    }

    /** One slice: the next bytes of the stream, none exactly at the limit, and then nothing delivered is left in
        the stream. */
    method LowRead(size: nat) returns (slice: seq<byte>)
      requires Valid() && size > 0
      modifies this, stream
      ensures Valid() && |slice| <= size && cumLen == old(cumLen) + |slice| && slice == source[old(cumLen)..cumLen]
      ensures slice == [] <==> old(cumLen) == Total()
      ensures slice == [] ==> stream.Bytes() == source[cumLen..]
    {
      EraseDelivered();
      slice := [];
      // Unsigned comparisons: a negative limit exceeds every count.
      if maxLen < 0 || cumLen < maxLen {
        var sz := size;
        if maxLen > 0 && cumLen + size > maxLen { sz := maxLen - cumLen; }
        if stream.nodes != [] {
          var head := Remaining(stream.nodes[0]);
          var len := |head|;
          if len > sz { len := sz; }
          slice := head[..len];
          HeadSlice(source, cumLen, stream.nodes, len);
        }
        cumLen := cumLen + |slice|;
      }
      prevLen := |slice|;
    }

    method EraseDelivered()
      requires Valid()
      modifies this`prevLen, stream
      ensures Valid() && prevLen == 0
    {
      var n := stream.Erase(prevLen);
      prevLen := 0;
    }

    /** All slices until none comes: together the first bytes of the stream, which are then gone from it. */
    method ReadAll() returns (slices: seq<seq<byte>>)
      requires Valid()
      modifies this, stream
      ensures Valid() && cumLen == Total() && Flatten(slices) == source[old(cumLen)..Total()]
      ensures forall s :: s in slices ==> 0 < |s| <= bufsize
      ensures stream.Bytes() == source[Total()..]
    {
      ghost var start := cumLen;
      slices := [];
      var more := true;
      while more
        invariant Valid() && start <= cumLen && Flatten(slices) == source[start..cumLen]
        invariant forall s :: s in slices ==> 0 < |s| <= bufsize
        invariant !more ==> cumLen == Total() && stream.Bytes() == source[cumLen..]
        decreases more, Total() - cumLen
      {
        ghost var at := cumLen;
        var slice := LowRead(bufsize);
        more := slice != [];
        if more {
          FlattenAdd(slices, slice);
          Join(source, start, at, cumLen);
          slices := slices + [slice];
        }
      }
    }

    /** The destructor: asked to, it consumes what is left up to a positive limit, and it always ends. */
    method Destroy(consumeAll: bool)
      requires Valid()
      modifies this, stream
      ensures stream.Valid()
      ensures consumeAll && maxLen > 0 ==> stream.Bytes() == source[Total()..]
      ensures !(consumeAll && maxLen > 0) ==> stream.Bytes() == old(stream.Bytes())
    {
      if consumeAll && maxLen > 0 {
        var slice := LowRead(bufsize);
        while slice != []
          invariant Valid()
          invariant slice == [] ==> cumLen == Total() && stream.Bytes() == source[cumLen..]
          decreases Total() - cumLen + |slice|
        {
          slice := LowRead(bufsize);
        }
      }
    }
  }

  lemma HeadSlice(source: seq<byte>, at: nat, nodes: seq<Node>, len: nat)
    requires at <= |source| && source[at..] == Flat(nodes, 0) && nodes != [] && len <= |Remaining(nodes[0])|
    ensures at + len <= |source| && Remaining(nodes[0])[..len] == source[at..at + len]
  {
    HeadFits(nodes, len);
    assert Remaining(nodes[0])[..len] == Flat(nodes, 0)[..len];
  }

  /** The parts that readers with these limits take, one after the other. */
  function Parts(bytes: seq<byte>, limits: seq<int>): seq<seq<byte>> {
    if limits == [] then [] else
      var n := Limit(Normalised(limits[0]), |bytes|);
      [bytes[..n]] + Parts(bytes[n..], limits[1..])
  }

  function After(bytes: seq<byte>, limits: seq<int>): seq<byte> {
    if limits == [] then bytes else After(bytes[Limit(Normalised(limits[0]), |bytes|)..], limits[1..])
  }

  /** Nothing is lost or read twice between successive readers. */
  lemma {:induction false} PartsPartition(bytes: seq<byte>, limits: seq<int>)
    ensures Flatten(Parts(bytes, limits)) + After(bytes, limits) == bytes
  {
    if limits != [] {
      var n := Limit(Normalised(limits[0]), |bytes|);
      PartsPartition(bytes[n..], limits[1..]);
      assert Parts(bytes, limits)[1..] == Parts(bytes[n..], limits[1..]);
      assert bytes[..n] + bytes[n..] == bytes;
    }
  }

  /** Successive readers partition the stream. */
  method ReadInParts(stream: Stream, bufsize: nat, limits: seq<int>) returns (parts: seq<seq<byte>>)
    requires stream.Valid() && bufsize > 0
    modifies stream
    ensures stream.Valid() && parts == Parts(old(stream.Bytes()), limits) &&
          stream.Bytes() == After(old(stream.Bytes()), limits)
  {
    parts := [];
    assert limits[0..] == limits;
    for k := 0 to |limits|
      invariant stream.Valid()
      invariant parts + Parts(stream.Bytes(), limits[k..]) == Parts(old(stream.Bytes()), limits)
      invariant After(stream.Bytes(), limits[k..]) == After(old(stream.Bytes()), limits)
    {
      PartsStep(stream.Bytes(), limits, k, parts);
      AfterStep(stream.Bytes(), limits, k);
      var part := OnePart(stream, bufsize, limits[k]);
      parts := parts + [part];
    }
  }

  lemma PartsStep(bytes: seq<byte>, limits: seq<int>, k: nat, parts: seq<seq<byte>>)
    requires k < |limits|
    ensures var n := Limit(Normalised(limits[k]), |bytes|);
            parts + Parts(bytes, limits[k..]) == parts + [bytes[..n]] + Parts(bytes[n..], limits[k + 1..])
  {
    var n := Limit(Normalised(limits[k]), |bytes|);
    assert limits[k..][1..] == limits[k + 1..];
    assert Parts(bytes, limits[k..]) == [bytes[..n]] + Parts(bytes[n..], limits[k + 1..]);
    Regrouped(parts, [bytes[..n]], Parts(bytes[n..], limits[k + 1..]));
  }

  lemma Regrouped(a: seq<seq<byte>>, b: seq<seq<byte>>, c: seq<seq<byte>>)
    ensures a + (b + c) == a + b + c
  {
  }

  lemma AfterStep(bytes: seq<byte>, limits: seq<int>, k: nat)
    requires k < |limits|
    ensures After(bytes, limits[k..]) == After(bytes[Limit(Normalised(limits[k]), |bytes|)..], limits[k + 1..])
  {
    assert limits[k..][1..] == limits[k + 1..];
  }

  method OnePart(stream: Stream, bufsize: nat, limit: int) returns (part: seq<byte>)
    requires stream.Valid() && bufsize > 0
    modifies stream
    ensures stream.Valid()
    ensures var n := Limit(Normalised(limit), |old(stream.Bytes())|);
            part == old(stream.Bytes())[..n] && stream.Bytes() == old(stream.Bytes())[n..]
  {
    var reader := new Reader(stream, bufsize, limit);
    var slices := reader.ReadAll();
    part := Flatten(slices);
  }
}
