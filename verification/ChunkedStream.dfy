/** A byte stream kept as a list of chunks, refined to the flat sequence of its bytes.

    The list behaves as the chunk list of module BufferList promises: chunks are added at its
    end and removed at its head.  A chunk keeps its buffer and the position up to which it has
    been consumed. */
module ChunkedStream {
  import opened Bytes

  datatype Node = Node(buffer: seq<byte>, position: nat)

  predicate NodeOk(n: Node) { n.position < |n.buffer| }

  function Len(n: Node): nat { if n.position <= |n.buffer| then |n.buffer| - n.position else 0 }

  function Remaining(n: Node): (r: seq<byte>)
    ensures |r| == Len(n)
  {
    if n.position <= |n.buffer| then n.buffer[n.position..] else []
  }

  /** The bytes of the chunks from number i on, in order. */
  function Flat(nodes: seq<Node>, i: nat): seq<byte>
    requires i <= |nodes|
    decreases |nodes| - i
  {
    if i == |nodes| then [] else Remaining(nodes[i]) + Flat(nodes, i + 1)
  }

  lemma {:induction false} FlatAdd(nodes: seq<Node>, n: Node, i: nat)
    requires i <= |nodes|
    ensures Flat(nodes + [n], i) == Flat(nodes, i) + Remaining(n)
    decreases |nodes| - i
  {
    if i == |nodes| {
      assert Flat(nodes + [n], i + 1) == [];
    } else {
      FlatAdd(nodes, n, i + 1);
    }
  }

  // The same chunks at other positions.
  lemma {:induction false} FlatMove(a: seq<Node>, i: nat, b: seq<Node>, j: nat)
    requires i <= |a| && j <= |b| && a[i..] == b[j..]
    ensures Flat(a, i) == Flat(b, j)
    decreases |a| - i
  {
    if i < |a| {
      assert a[i] == a[i..][0] == b[j..][0] == b[j];
      assert a[i + 1..] == a[i..][1..] == b[j..][1..] == b[j + 1..];
      FlatMove(a, i + 1, b, j + 1);
    }
  }

  // Shifting the position of the first chunk drops its first bytes.
  lemma ShiftFlat(nodes: seq<Node>, shifted: Node, bytes: nat)
    requires nodes != [] && shifted == Node(nodes[0].buffer, nodes[0].position + bytes) && bytes < Len(nodes[0])
    ensures bytes <= |Flat(nodes, 0)| && Flat([shifted] + nodes[1..], 0) == Flat(nodes, 0)[bytes..]
  {
    var moved := [shifted] + nodes[1..];
    FlatMove(nodes, 1, moved, 1);
    DropHead(Remaining(nodes[0]), Flat(nodes, 1), bytes);
    assert Remaining(shifted) == Remaining(nodes[0])[bytes..];
  }

  lemma DropHead(a: seq<byte>, b: seq<byte>, n: nat)
    requires n <= |a|
    ensures a[n..] + b == (a + b)[n..]
  {
  }

  // What is ahead of a position inside node i.
  function Ahead(nodes: seq<Node>, i: nat, from: nat): seq<byte>
    requires i <= |nodes|
  {
    if i < |nodes| && from <= Len(nodes[i]) then Remaining(nodes[i])[from..] + Flat(nodes, i + 1) else []
  }

  function Clip(s: seq<byte>, n: nat): seq<byte> { s[..Min(n, |s|)] }

  /** At most `left` bytes from a position inside node i on, node by node. */
  function Take(nodes: seq<Node>, i: nat, from: nat, left: nat): seq<byte>
    requires i <= |nodes| && (i < |nodes| ==> from <= Len(nodes[i]))
    decreases |nodes| - i
  {
    if i == |nodes| || left == 0 then [] else
      var n := Remaining(nodes[i]);
      if |n| - from >= left then n[from..from + left]
      else n[from..] + Take(nodes, i + 1, 0, left - (|n| - from))
  }

  lemma TakeStep(nodes: seq<Node>, i: nat, from: nat, left: nat, m: nat)
    requires i < |nodes| && from <= Len(nodes[i]) && m == Min(left, Len(nodes[i]) - from)
    ensures Take(nodes, i, from, left) == Remaining(nodes[i])[from..from + m] + Take(nodes, i + 1, 0, left - m)
  {
    var n := Remaining(nodes[i]);
    assert Take(nodes, i + 1, 0, 0) == [];
    if m == |n| - from { assert n[from..from + m] == n[from..]; }
  }

  // The second loop of copy: the first chunk from a position, the others whole.
  method CopyFrom(nodes: seq<Node>, first: nat, position: nat, bytes: nat) returns (out: seq<byte>)
    requires (forall i :: 0 <= i < |nodes| ==> NodeOk(nodes[i])) && first < |nodes| && position < Len(nodes[first])
    ensures out == Clip(Remaining(nodes[first])[position..] + Flat(nodes, first + 1), bytes)
  {
    var i, from := first, position;
    ghost var goal := Take(nodes, first, position, bytes);
    ghost var rest := goal;
    out := [];
    while i < |nodes| && |out| < bytes
      invariant 0 <= i <= |nodes| && |out| <= bytes && from >= 0
      invariant i < |nodes| ==> from < Len(nodes[i])
      invariant rest == Take(nodes, i, from, bytes - |out|) && out + rest == goal
      decreases |nodes| - i
    {
      var n := Remaining(nodes[i]);
      var m := if bytes - |out| >= |n| - from then |n| - from else bytes - |out|;
      TakeStep(nodes, i, from, bytes - |out|, m);
      rest := Take(nodes, i + 1, 0, bytes - |out| - m);
      Regroup(out, n[from..from + m], rest);
      out := out + n[from..from + m];
      i, from := i + 1, 0;
    }
    assert rest == [] && out == goal;
    TakeIsClip(nodes, first, position, bytes);
  }

  lemma {:induction false} TakeIsClip(nodes: seq<Node>, i: nat, from: nat, left: nat)
    requires i <= |nodes| && (i < |nodes| ==> from <= Len(nodes[i]))
    ensures Take(nodes, i, from, left) == Clip(Ahead(nodes, i, from), left)
    decreases |nodes| - i
  {
    if i < |nodes| {
      var m := Min(left, Len(nodes[i]) - from);
      TakeStep(nodes, i, from, left, m);
      AheadNext(nodes, i);
      TakeIsClip(nodes, i + 1, 0, left - m);
      ClipJoin(Remaining(nodes[i]), from, Flat(nodes, i + 1), left, m);
    }
  }

  lemma ClipJoin(n: seq<byte>, from: nat, tail: seq<byte>, left: nat, m: nat)
    requires from <= |n| && m == Min(left, |n| - from)
    ensures n[from..from + m] + Clip(tail, left - m) == Clip(n[from..] + tail, left)
  {
  }

  lemma AheadNext(nodes: seq<Node>, i: nat)
    requires i < |nodes|
    ensures Ahead(nodes, i + 1, 0) == Flat(nodes, i + 1)
  {
  }

  /** What copy promises: at most n bytes from a position, clipped to the stream. */
  function Slice(s: seq<byte>, start: nat, n: nat): seq<byte> {
    s[Min(start, |s|)..Min(start + n, |s|)]
  }

  function Drop(s: seq<byte>, n: nat): seq<byte> { s[Min(n, |s|)..] }

  // The bytes before chunk i.
  function Before(nodes: seq<Node>, i: nat): seq<byte>
    requires i <= |nodes|
  {
    if i == 0 then [] else Before(nodes, i - 1) + Remaining(nodes[i - 1])
  }

  // ... and how many they are.
  function Skipped(nodes: seq<Node>, i: nat): nat
    requires i <= |nodes|
  {
    if i == 0 then 0 else Skipped(nodes, i - 1) + Len(nodes[i - 1])
  }

  lemma {:induction false} BeforeLength(nodes: seq<Node>, i: nat)
    requires i <= |nodes|
    ensures |Before(nodes, i)| == Skipped(nodes, i)
  {
    if i > 0 { BeforeLength(nodes, i - 1); }
  }

  lemma {:induction false} FlatAt(nodes: seq<Node>, i: nat)
    requires i <= |nodes|
    ensures Before(nodes, i) + Flat(nodes, i) == Flat(nodes, 0)
  {
    if i > 0 {
      FlatAt(nodes, i - 1);
      Regroup(Before(nodes, i - 1), Remaining(nodes[i - 1]), Flat(nodes, i));
    }
  }

  lemma FlatAround(nodes: seq<Node>, i: nat)
    requires i < |nodes|
    ensures Flat(nodes, 0) == Before(nodes, i) + (Remaining(nodes[i]) + Flat(nodes, i + 1))
  {
    FlatAt(nodes, i);
  }

  // Copying from a position inside a chunk is taking a slice of the flat bytes.
  lemma Locate(all: seq<byte>, before: seq<byte>, head: seq<byte>, tail: seq<byte>, from: nat, start: nat, bytes: nat)
    requires all == before + (head + tail) && from <= |head| && start == |before| + from
    ensures Clip(head[from..] + tail, bytes) == Slice(all, start, bytes)
  {
    Behind(before, head, tail, from);
    SliceFrom(all, start, bytes);
  }

  lemma Behind(before: seq<byte>, head: seq<byte>, tail: seq<byte>, from: nat)
    requires from <= |head|
    ensures head[from..] + tail == (before + (head + tail))[|before| + from..]
  {
  }

  lemma SliceFrom(s: seq<byte>, start: nat, n: nat)
    requires start <= |s|
    ensures Clip(s[start..], n) == Slice(s, start, n)
  {
  }

  class Stream {
    var nodes: seq<Node>

    /** Every chunk in the list still has bytes. */
    predicate Valid() reads this { forall i :: 0 <= i < |nodes| ==> NodeOk(nodes[i]) }

    function Bytes(): seq<byte> reads this { Flat(nodes, 0) }

    constructor ()
      ensures Valid() && Bytes() == []
    {
      nodes := [];
    }

    method Push(buffer: seq<byte>) returns (n: nat)
      requires Valid()
      modifies this
      ensures Valid() && n == |buffer| && Bytes() == old(Bytes()) + buffer
    {
      if |buffer| != 0 {
        FlatAdd(nodes, Node(buffer, 0), 0);
        nodes := nodes + [Node(buffer, 0)];
      }
      return |buffer|;
    }

    method PopHead() returns (n: Node)
      requires Valid() && nodes != []
      modifies this
      ensures Valid() && NodeOk(n) && n == old(nodes)[0] && nodes == old(nodes)[1..]
      ensures old(Bytes()) == Remaining(n) + Bytes() && Bytes() == old(Bytes())[Len(n)..]
    {
      FlatMove(nodes, 1, nodes[1..], 0);
      n, nodes := nodes[0], nodes[1..];
    }

    // The assertion of the source holds: the position stays inside the buffer.
    method ShiftHead(bytes: nat)
      requires Valid() && nodes != [] && bytes < Len(nodes[0])
      modifies this
      ensures Valid() && Bytes() == old(Bytes())[bytes..] && |nodes| == |old(nodes)|
    {
      var n := nodes[0];
      assert n.position + bytes <= |n.buffer|;
      if n.position + bytes < |n.buffer| {
        var shifted := Node(n.buffer, n.position + bytes);
        ShiftFlat(nodes, shifted, bytes);
        nodes := [shifted] + nodes[1..];
      } else {
        assert false;          // only a whole chunk could be emptied, and those are popped
      }
    }

    /** Copies without changing the stream. */
    method Copy(start: nat, bytes: nat) returns (out: seq<byte>)
      requires Valid()
      ensures out == Slice(Bytes(), start, bytes)
    {
      var i, traversed := Find(start);
      if i == |nodes| {
        FlatAt(nodes, i);
        BeforeLength(nodes, i);
        return [];
      }
      FlatAround(nodes, i);
      BeforeLength(nodes, i);
      Locate(Bytes(), Before(nodes, i), Remaining(nodes[i]), Flat(nodes, i + 1), start - traversed, start, bytes);
      out := CopyFrom(nodes, i, start - traversed, bytes);
    }

    // The first loop of copy: the chunk that holds a position, if any does.
    method Find(start: nat) returns (i: nat, traversed: nat)
      requires Valid()
      ensures i <= |nodes| && traversed == Skipped(nodes, i) <= start
      ensures i < |nodes| ==> start - traversed < Len(nodes[i])
    {
      traversed, i := 0, 0;
      while i < |nodes| && start - traversed >= Len(nodes[i])
        invariant i <= |nodes| && traversed == Skipped(nodes, i) <= start
      {
        traversed := traversed + Len(nodes[i]);
        i := i + 1;
      }
    }

    /** Removes and returns the first bytes. */
    method Read(bytes: nat) returns (out: seq<byte>)
      requires Valid()
      modifies this
      ensures Valid() && out == Slice(old(Bytes()), 0, bytes) && Bytes() == Drop(old(Bytes()), bytes)
    {
      ghost var all := Bytes();
      var copied := 0;
      out := [];
      while nodes != [] && copied < bytes
        invariant Valid() && copied <= bytes && copied <= |all|
        invariant out == all[..copied] && Bytes() == all[copied..]
        decreases bytes - copied
      {
        var len := Len(nodes[0]);
        var m := if bytes - copied >= len then len else bytes - copied;
        HeadFits(nodes, m);
        Skip(all, copied, m);
        var head := TakeHead(m);
        out, copied := out + head, copied + m;
      }
      assert nodes == [] ==> Bytes() == [];
    }

    // The first m bytes of the head chunk; an emptied chunk is popped.
    method TakeHead(m: nat) returns (out: seq<byte>)
      requires Valid() && nodes != [] && 0 < m <= Len(nodes[0]) && m <= |Bytes()|
      modifies this
      ensures Valid() && |out| == m && out == old(Bytes())[..m] && Bytes() == old(Bytes())[m..]
    {
      out := Remaining(nodes[0])[..m];
      if m == Len(nodes[0]) {
        var n := PopHead();
      } else {
        ShiftHead(m);
      }
    }

    /** Removes the first bytes and says how many there were. */
    method Erase(bytes: nat) returns (erased: nat)
      requires Valid()
      modifies this
      ensures Valid() && erased == Min(bytes, |old(Bytes())|) && Bytes() == Drop(old(Bytes()), bytes)
    {
      ghost var all := Bytes();
      var toErase: nat := bytes;
      erased := 0;
      while toErase != 0 && nodes != []
        invariant Valid() && toErase + erased == bytes && erased <= |all| && Bytes() == all[erased..]
        decreases toErase
      {
        // A whole chunk is popped; the last one is shifted by what is left to erase.
        var m := if toErase >= Len(nodes[0]) then Len(nodes[0]) else toErase;
        HeadFits(nodes, m);
        Skip(all, erased, m);
        var head := TakeHead(m);
        toErase, erased := toErase - m, erased + m;
      }
      Erased(all, erased, bytes);
    }

    /** Moves every chunk of another stream to the end of this one. */
    method Transfer(from: Stream)
      requires Valid() && from.Valid() && from != this
      modifies this, from
      ensures Valid() && from.Valid() && from.Bytes() == [] && Bytes() == old(Bytes()) + old(from.Bytes())
    {
      while from.nodes != []
        invariant Valid() && from.Valid() && Bytes() + from.Bytes() == old(Bytes()) + old(from.Bytes())
        decreases |from.nodes|
      {
        ghost var mine := Bytes();
        var n := from.PopHead();
        Regroup(mine, Remaining(n), from.Bytes());
        var k := Push(Remaining(n));
      }
    }
  }

  lemma Regroup(a: seq<byte>, b: seq<byte>, c: seq<byte>)
    ensures a + (b + c) == a + b + c
  {
  }

  lemma Erased(all: seq<byte>, erased: nat, bytes: nat)
    requires erased <= |all| && erased <= bytes
    ensures erased == bytes || all[erased..] == [] ==> erased == Min(bytes, |all|) && all[erased..] == Drop(all, bytes)
  {
  }

  lemma HeadFits(nodes: seq<Node>, m: nat)
    requires nodes != [] && m <= Len(nodes[0])
    ensures m <= |Flat(nodes, 0)|
  {
  }

  lemma Skip(s: seq<byte>, a: nat, b: nat)
    requires a <= |s|
    ensures a + b <= |s| ==> s[a..][b..] == s[a + b..] && s[..a] + s[a..][..b] == s[..a + b]
  {
  }

  /** Reading is copying from position 0 and then erasing. */
  method ReadIsCopyThenErase(a: Stream, b: Stream, bytes: nat) returns (x: seq<byte>, y: seq<byte>, n: nat)
    requires a != b && a.Valid() && b.Valid() && a.Bytes() == b.Bytes()
    modifies a, b
    ensures a.Valid() && b.Valid() && x == y && n == |x| && a.Bytes() == b.Bytes()
  {
    x := a.Read(bytes);
    y := b.Copy(0, bytes);
    n := b.Erase(bytes);
  }
}
