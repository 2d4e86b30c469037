/** What the buffered file layer is for: the flat file a caller believes it is writing. */
module FlatFile {
  import opened Bytes

  /** What the kernel holds, and what the file is once the dirty page is counted in. */
  datatype Stored = Stored(disk: seq<byte>, view: seq<byte>)

  /** One append: the view grows by the data; the disk holds some prefix of the view. */
  predicate Appended(f: Stored, data: seq<byte>, f': Stored) {
    f'.view == f.view + data && f'.disk <= f'.view
  }

  /** One fsync: the view is unchanged and the disk catches up with it. */
  predicate Synced(f: Stored, f': Stored) {
    f'.view == f.view && f'.disk == f.view
  }

  /** A request in the write queue. */
  datatype Request = Write(data: seq<byte>) | Sync

  function BytesOf(r: Request): seq<byte> { if r.Write? then r.data else [] }

  /** The bytes of the first k requests, in order. */
  function DataUpTo(rs: seq<Request>, k: nat): seq<byte>
    requires k <= |rs|
  {
    if k == 0 then [] else DataUpTo(rs, k - 1) + BytesOf(rs[k - 1])
  }

  function DataOf(rs: seq<Request>): seq<byte> { DataUpTo(rs, |rs|) }

  lemma {:induction false} DataStays(rs: seq<Request>, r: Request, k: nat)
    requires k <= |rs|
    ensures DataUpTo(rs + [r], k) == DataUpTo(rs, k)
  {
    if k > 0 { DataStays(rs, r, k - 1); }
  }

  /** The flat file after writing data, byte by byte, at an offset inside it or at its end. */
  function Overwrite(file: seq<byte>, at: nat, data: seq<byte>): (r: seq<byte>)
    requires at <= |file|
    ensures |r| == if at + |data| > |file| then at + |data| else |file|
  {
    if data == [] then file else
      var k := |data| - 1;
      var r := Overwrite(file, at, data[..k]);
      if at + k < |r| then r[at + k := data[k]] else r + [data[k]]
  }

  /** Inside the written range the data, outside it the old file. */
  lemma {:induction false} OverwriteBytes(file: seq<byte>, at: nat, data: seq<byte>)
    requires at <= |file|
    ensures Overwrite(file, at, data) == file[..at] + data + (if at + |data| <= |file| then file[at + |data|..] else [])
  {
    if data != [] { OverwriteBytes(file, at, data[..|data| - 1]); }
  }

  /** Two consecutive writes are one write of the concatenation. */
  lemma {:induction false} OverwriteTwice(file: seq<byte>, at: nat, a: seq<byte>, b: seq<byte>)
    requires at <= |file|
    ensures Overwrite(Overwrite(file, at, a), at + |a|, b) == Overwrite(file, at, a + b)
  {
    if b == [] {
      assert a + b == a;
    } else {
      var c := b[..|b| - 1];
      OverwriteTwice(file, at, a, c);
      assert (a + b)[..|a + b| - 1] == a + c;
    }
  }

  // The same, for the next m bytes of one piece of data.
  lemma OverwriteNext(file: seq<byte>, at: nat, data: seq<byte>, n: nat, m: nat)
    requires at <= |file| && n + m <= |data|
    ensures Overwrite(Overwrite(file, at, data[..n]), at + n, data[n..n + m]) == Overwrite(file, at, data[..n + m])
  {
    assert data[..n] + data[n..n + m] == data[..n + m];
    OverwriteTwice(file, at, data[..n], data[n..n + m]);
  }

  /** A write at the end is an append. */
  lemma OverwriteAtEnd(file: seq<byte>, data: seq<byte>)
    ensures Overwrite(file, |file|, data) == file + data
  {
    OverwriteBytes(file, |file|, data);
  }

  // A page agrees with the disk, as far as the disk goes.
  predicate PageMirrors(page: seq<byte>, disk: seq<byte>, start: nat)
    requires start <= |disk|
  {
    forall i :: 0 <= i < |page| && start + i < |disk| ==> page[i] == disk[start + i]
  }
}
