/** The page layer of the file writer: one write request, one fsync and the batch loop over them.

    Bytes are collected in one page-sized buffer that is written out when it is full or when
    an fsync comes; after an fsync in append mode the file may end inside a page, and the next
    write then goes directly to the disk until the page is complete.  System calls succeed;
    `Pwrite` on a file opened for appending adds at the end of the file whatever offset it is
    given, as Linux does. */
module PageFile {
  import opened Bytes
  import opened FlatFile

  datatype Mode = AppendWriteOnly | AppendReadWrite | ReadWrite

  // One pwrite: the offset asked for and the length of the file at that time.
  datatype Call = Call(at: nat, end: nat)

  /** The disk with the valid part of a dirty page laid over it. */
  function Merge(disk: seq<byte>, page: seq<byte>, start: nat, running: nat): (r: seq<byte>)
    requires start <= |disk| && start <= running && |disk| <= running <= Max(|disk|, start + |page|)
    ensures |r| == running
  {
    Overwrite(disk, start, page)[..running]
  }

  lemma MergeByte(disk: seq<byte>, page: seq<byte>, start: nat, running: nat, i: nat)
    requires start <= |disk| && start <= running && |disk| <= running <= Max(|disk|, start + |page|) && i < running
    ensures Merge(disk, page, start, running)[i] == if start <= i < start + |page| then page[i - start] else disk[i]
  {
    OverwriteBytes(disk, start, page);
  }

  // Copying a chunk into the page is writing it into the merged file.
  lemma MergeChunk(disk: seq<byte>, page: seq<byte>, page': seq<byte>, start: nat, running: nat, at: nat,
      chunk: seq<byte>)
    requires start <= |disk| && start <= at <= running && |disk| <= running <= Max(|disk|, start + |page|)
    requires at + |chunk| <= start + |page|
    requires page' == page[..at - start] + chunk + page[at - start + |chunk|..]
    ensures Merge(disk, page', start, Max(running, at + |chunk|)) ==
            Overwrite(Merge(disk, page, start, running), at, chunk)
  {
    var file, end := Merge(disk, page, start, running), Max(running, at + |chunk|);
    OverwriteBytes(file, at, chunk);
    forall i | 0 <= i < end ensures Merge(disk, page', start, end)[i] == Overwrite(file, at, chunk)[i] {
      MergeByte(disk, page', start, end, i);
      if i < running { MergeByte(disk, page, start, running, i); }
    }
  }

  // A clean page that agrees with the disk adds nothing.
  lemma MergeClean(disk: seq<byte>, page: seq<byte>, start: nat)
    requires start <= |disk|
    requires PageMirrors(page, disk, start)
    ensures Merge(disk, page, start, |disk|) == disk
  {
    OverwriteBytes(disk, start, page);
  }

  // Once flushed, the page agrees with the disk.
  lemma MergeMirrors(disk: seq<byte>, page: seq<byte>, start: nat, running: nat)
    requires start <= |disk| && start <= running && |disk| <= running <= Max(|disk|, start + |page|)
    ensures PageMirrors(page, Merge(disk, page, start, running), start)
  {
    OverwriteBytes(disk, start, page);
  }

  lemma InPage(p: nat, x: nat)
    requires p > 0
    ensures x / p * p <= x < x / p * p + p && (x % p == 0 ==> x == x / p * p)
  {
    assert x == x / p * p + x % p;
  }

  lemma MulMono(a: int, b: int, p: nat)
    requires a <= b
    ensures a * p <= b * p
  {
    assert (b - a) * p >= 0;
  }

  // A page number is determined by the bytes it covers.
  lemma PageOf(p: nat, index: nat, x: nat)
    requires p > 0 && index * p <= x
    ensures x < index * p + p <==> x / p == index
    ensures x / p >= index
  {
    var q := x / p;
    assert x == q * p + x % p;
    if q < index { MulMono(q + 1, index, p); }
    if q > index { MulMono(index + 1, q, p); }
  }

  lemma OverwriteRequest(file: seq<byte>, at: nat, batch: seq<Request>, k: nat)
    requires at <= |file| && k < |batch|
    ensures |DataUpTo(batch, k + 1)| == |DataUpTo(batch, k)| + |BytesOf(batch[k])|
    ensures Overwrite(Overwrite(file, at, DataUpTo(batch, k)), at + |DataUpTo(batch, k)|, BytesOf(batch[k])) ==
            Overwrite(file, at, DataUpTo(batch, k + 1))
  {
    OverwriteTwice(file, at, DataUpTo(batch, k), BytesOf(batch[k]));
  }

  method Memcpy(b: array<byte>, at: nat, chunk: seq<byte>)
    requires at + |chunk| <= b.Length
    modifies b
    ensures b[..] == old(b[..])[..at] + chunk + old(b[..])[at + |chunk|..]
  {
    forall i | 0 <= i < |chunk| { b[at + i] := chunk[i]; }
  }

  class File {
    const P: nat
    const mode: Mode
    var disk: seq<byte>
    var buffer: array?<byte>
    var index: nat          // page number of the buffer
    var dirty: bool
    var offset: nat
    var size: nat           // _curr_file_size_on_disk
    var running: nat
    var unaligned: bool     // _block_write_unaligned
    ghost var view: seq<byte>    // what the file is, as its caller sees it
    ghost var log: seq<Call>
    ghost var directs: nat       // writes that bypassed the buffer

    predicate Appends() { !mode.ReadWrite? }

    function Start(): nat reads this { index * P }

    ghost predicate Shape()
      reads this, buffer
    {
      && P > 0 && size == |disk|
      && (buffer != null ==> buffer.Length == P)
      && (dirty ==>
            && buffer != null && !unaligned
            && Start() <= |disk| <= running && Start() <= running <= Max(|disk|, Start() + P))
      && (dirty ==> view == Merge(disk, buffer[..], Start(), running))
      && (!dirty ==> running == |disk| && view == disk)
      && (unaligned ==> Appends())
    }

    // In append mode every pwrite so far was issued at the end of the file.
    ghost predicate AtEnds()
      reads this
    {
      Appends() ==> forall c :: c in log ==> c.at == c.end
    }

    ghost function Value(): Stored
      reads this
    {
      Stored(disk, view)
    }

    // The write position lies inside the current page, and a clean page mirrors the disk.
    ghost predicate Ready()
      reads this, buffer
    {
      && Shape() && AtEnds()
      && Start() <= offset < Start() + P && offset <= running && Start() <= |disk|
      && (!dirty && !unaligned && buffer != null ==>
            PageMirrors(buffer[..], disk, Start()))
      && (Appends() ==> offset == running && (!unaligned ==> |disk| == Start()))
    }

    // An append-mode file opened for reading too starts with its offset at 0.
    ghost predicate Opened()
      reads this, buffer
    {
      && Shape() && AtEnds() && Appends() && offset == index == 0 && !dirty && buffer == null
      && (!unaligned ==> |disk| % P == 0)
    }

    ghost predicate Valid()
      reads this, buffer
    {
      Ready() || Opened()
    }

    constructor (p: nat, m: Mode, content: seq<byte>)
      requires p > 0
      ensures P == p && mode == m && Valid() && Value() == Stored(content, content)
      ensures buffer == null && log == [] && directs == 0
      ensures !Appends() ==> offset == 0
    {
      P, mode, disk, buffer, dirty, size, running := p, m, content, null, false, |content|, |content|;
      view, log, directs := content, [], 0;
      var at: nat := if m.AppendWriteOnly? then |content| else 0;
      offset, index := at, at / p;
      unaligned := !m.ReadWrite? && |content| % p != 0;
      new;
      InPage(p, at);
    }

    method Pwrite(bytes: seq<byte>, at: nat)
      requires at <= |disk|
      modifies this`disk, this`log
      ensures disk == if Appends() then old(disk) + bytes else Overwrite(old(disk), at, bytes)
      ensures log == old(log) + [Call(at, |old(disk)|)]
    {
      log := log + [Call(at, |disk|)];
      disk := if Appends() then disk + bytes else Overwrite(disk, at, bytes);
    }

    method SyncBufFromFile()
      requires P > 0 && (buffer != null ==> buffer.Length == P)
      modifies this`buffer, this`dirty, buffer
      ensures buffer != null && buffer.Length == P && !dirty
      ensures buffer == old(buffer) || fresh(buffer)
      ensures !mode.AppendWriteOnly? && Start() < size <= |disk| ==>
                PageMirrors(buffer[..], disk, Start())
    {
      if buffer == null { buffer := new byte[P]; }
      dirty := false;
      if index * P < size && !mode.AppendWriteOnly? {
        var b, start := buffer, index * P;
        forall i | 0 <= i < P && start + i < |disk| { b[i] := disk[start + i]; }
      }
    }

    // The dirty page as the disk takes it: the whole page, then the file cut to its size.
    method SyncBufToFile()
      requires Shape() && (Appends() && dirty ==> Start() == |disk|)
      modifies this`disk, this`log, this`dirty
      ensures disk == view && !dirty && |disk| == running
      ensures old(AtEnds()) ==> AtEnds()
      ensures old(dirty) ==> Start() <= |disk| && PageMirrors(buffer[..], disk, Start())
    {
      if dirty {
        MergeMirrors(disk, buffer[..], Start(), running);
        OverwriteAtEnd(disk, buffer[..]);
        Pwrite(buffer[..], index * P);
        disk := disk[..running];
        dirty := false;
      }
    }

    /** After an fsync the disk is the file. */
    method Fsync()
      requires Valid()
      modifies this`disk, this`log, this`dirty, this`size, this`unaligned
      ensures Valid() && Synced(old(Value()), Value())
      ensures offset == old(offset) && running == old(running) && directs == old(directs)
    {
      SyncBufToFile();
      size := running;
      var pageOffset := offset - index * P;
      if pageOffset == P {
        assert false;           // the buffer never holds a finished page between requests
      } else if Appends() {
        unaligned := true;
      }
    }

    // One turn of the write loop that bypasses the buffer: it takes the start of the data, whatever n is.
    method WriteDirect(data: seq<byte>, n: nat) returns (m: nat)
      requires Ready() && unaligned && n < |data|
      modifies this, buffer
      ensures Ready() && 0 < m <= |data| - n
      ensures view == Overwrite(old(view), old(offset), data[..m])
      ensures offset == old(offset) + m == running
      ensures n + m < |data| ==> !unaligned
      ensures buffer == old(buffer) || fresh(buffer)
      ensures directs == old(directs) + 1
    {
      var pageOffset := offset - index * P;
      var remaining := |data| - n;
      m := if remaining <= P - pageOffset then remaining else P - pageOffset;
      OverwriteAtEnd(disk, data[..m]);
      Pwrite(data[..m], size);
      view, directs := disk, directs + 1;
      pageOffset, offset := pageOffset + m, offset + m;
      size, running := size + m, running + m;
      if pageOffset == P { NextPageAfterDirect(); }
    }

    // The page is complete on the disk: buffering can resume with the next page.
    method NextPageAfterDirect()
      requires Shape() && AtEnds() && Appends() && !dirty && offset == Start() + P == |disk|
      modifies this, buffer
      ensures Ready() && !unaligned && view == old(view) && offset == old(offset) == running && directs == old(directs)
      ensures buffer == old(buffer) || fresh(buffer)
    {
      unaligned := false;
      dirty := false;
      index := index + 1;
      assert index * P == old(index * P) + P;
      SyncBufFromFile();
    }

    // One turn of the write loop through the page buffer.
    method WriteBuffered(data: seq<byte>, n: nat) returns (m: nat)
      requires Ready() && !unaligned && n < |data| && buffer != null
      modifies this, buffer
      ensures Ready() && 0 < m <= |data| - n && !unaligned && buffer != null
      ensures view == Overwrite(old(view), old(offset), data[n..n + m])
      ensures offset == old(offset) + m
      ensures running == Max(old(running), offset)
      ensures buffer == old(buffer) || fresh(buffer)
      ensures directs == old(directs)
    {
      var pageOffset := offset - index * P;
      var remaining := |data| - n;
      m := if remaining <= P - pageOffset then remaining else P - pageOffset;
      CleanPageMerges();
      CopyToPage(data[n..n + m]);
      pageOffset := pageOffset + m;
      if pageOffset == P { FinishPage(); }
    }

    lemma CleanPageMerges()
      requires Ready() && !unaligned && buffer != null
      ensures running <= Max(|disk|, Start() + P) && Merge(disk, buffer[..], Start(), running) == view
    {
      if !dirty { MergeClean(disk, buffer[..], Start()); }
    }

    // The chunk is copied into the page, which becomes dirty; size and offset follow.
    method CopyToPage(chunk: seq<byte>)
      requires Shape() && !unaligned && buffer != null
      requires Start() <= |disk| && Start() <= offset <= running && offset + |chunk| <= Start() + P && chunk != []
      requires |disk| <= running <= Max(|disk|, Start() + P) && Merge(disk, buffer[..], Start(), running) == view
      modifies this`dirty, this`offset, this`running, this`view, buffer
      ensures Shape() && dirty
      ensures view == Overwrite(old(view), old(offset), chunk)
      ensures offset == old(offset) + |chunk| && running == Max(old(running), offset)
    {
      ghost var page := buffer[..];
      dirty := true;
      Memcpy(buffer, offset - index * P, chunk);
      MergeChunk(disk, page, buffer[..], Start(), running, offset, chunk);
      GrowRunning(|chunk|);
      view := Overwrite(view, offset, chunk);
      offset := offset + |chunk|;
    }

    // The size grows by what is written past the end; only the last page can do that.
    method GrowRunning(n: nat)
      requires P > 0 && Start() <= offset <= running && offset < Start() + P && offset + n <= Start() + P
      modifies this`running
      ensures running == Max(old(running), offset + n)
    {
      PageOf(P, index, offset);
      PageOf(P, index, running);
      if offset / P == running / P {
        var sizeIncrease := 0;
        if offset + n > running { sizeIncrease := offset + n - running; }
        running := running + sizeIncrease;
      }
    }

    // The page is full: it goes to the disk and the buffer moves to the next page.
    method FinishPage()
      requires Shape() && AtEnds() && dirty && offset == Start() + P && offset <= running
      requires Appends() ==> Start() == |disk| && offset == running
      modifies this, buffer
      ensures Ready() && !unaligned && buffer != null
      ensures view == old(view) && offset == old(offset) && running == old(running)
      ensures buffer == old(buffer) || fresh(buffer)
      ensures directs == old(directs)
    {
      SyncBufToFile();
      index := index + 1;
      assert index * P == old(index * P) + P;
      if index * P > size { size := index * P; }
      dirty := false;
      SyncBufFromFile();
    }

    // A file opened for appending is written at its end.
    method Position()
      requires Valid()
      modifies this`index, this`offset, this`buffer
      ensures Ready() && Value() == old(Value()) && log == old(log)
      ensures offset == if Appends() then |view| else old(offset)
      ensures buffer == null || buffer == old(buffer)
    {
      if Appends() {
        if !dirty {
          var oldIndex := index;
          offset := |disk|;
          index := offset / P;
          assert offset == index * P + offset % P;
          if oldIndex != index { buffer := null; }
          if !unaligned { WholePages(); }
        } else {
          PageOf(P, index, size);
          if index != size / P {
            assert false;       // the abort of the source
          }
        }
      }
    }

    lemma WholePages()
      requires P > 0 && index == |disk| / P && (|disk| % P == 0 || exists k: nat :: |disk| == k * P)
      ensures |disk| == index * P
    {
      assert |disk| == |disk| / P * P + |disk| % P;
      if |disk| % P != 0 {
        var k: nat :| |disk| == k * P;
        PageOf(P, k, |disk|);
      }
    }

    // In append mode the disk holds a prefix of the file.
    lemma DiskIsPrefix()
      requires Valid() && Appends()
      ensures disk <= view
    {
      if dirty { OverwriteAtEnd(disk, buffer[..]); }
    }

    method LoadPage()
      requires Ready()
      modifies this`buffer, this`dirty
      ensures Ready() && buffer != null && dirty == old(dirty)
      ensures buffer == old(buffer) || fresh(buffer)
    {
      if buffer == null && !dirty { SyncBufFromFile(); }
    }

    /** One write request.  In append mode the file grows by the data, with at most one write past the buffer;
        otherwise the data overwrites the file at the current offset. */
    method OneSingleWrite(data: seq<byte>) returns (n: nat)
      requires Valid()
      modifies this, buffer
      ensures Ready() && n == |data|
      ensures Appends() ==> Appended(old(Value()), data, Value())
      ensures !Appends() ==> offset == old(offset) + |data| && running == Max(old(running), offset)
      ensures !Appends() ==> view == Overwrite(old(view), old(offset), data)
      ensures directs <= old(directs) + 1
      ensures buffer == null || buffer == old(buffer) || fresh(buffer)
    {
      Position();
      ghost var was, at := view, offset;
      n := 0;
      while n < |data|
        invariant n <= |data| && Ready()
        invariant offset == at + n && running == Max(|was|, offset) && view == Overwrite(was, at, data[..n])
        invariant unaligned ==> n == 0 || n == |data|
        invariant directs <= old(directs) + (if n == 0 || (unaligned && n < |data|) then 0 else 1)
        invariant buffer == null || buffer == old(buffer) || fresh(buffer)
      {
        var m := WriteTurn(data, n);
        OverwriteNext(was, at, data, n, m);
        n := n + m;
      }
      assert data[..n] == data;
      if Appends() { DiskIsPrefix(); OverwriteAtEnd(was, data); }
    }

    // One turn of the write loop.
    method WriteTurn(data: seq<byte>, n: nat) returns (m: nat)
      requires Ready() && n < |data| && (unaligned ==> n == 0)
      modifies this, buffer
      ensures Ready() && 0 < m <= |data| - n
      ensures view == Overwrite(old(view), old(offset), data[n..n + m])
      ensures offset == old(offset) + m && running == Max(old(running), offset)
      ensures unaligned ==> n + m == |data|
      ensures directs == old(directs) + if old(unaligned) then 1 else 0
      ensures buffer == old(buffer) || fresh(buffer)
    {
      LoadPage();
      if unaligned {
        m := WriteDirect(data, n);
        assert data[n..n + m] == data[..m];
      } else {
        m := WriteBuffered(data, n);
      }
    }

    // Where the next write goes.
    ghost function At(): nat
      reads this
    {
      if Appends() then |view| else offset
    }

    method Perform(r: Request) returns (n: nat)
      requires Valid()
      modifies this, buffer
      ensures Valid() && n == |BytesOf(r)|
      ensures old(At()) <= |old(view)| && At() == old(At()) + n
      ensures view == Overwrite(old(view), old(At()), BytesOf(r))
      ensures r.Sync? ==> disk == view
      ensures buffer == null || buffer == old(buffer) || fresh(buffer)
    {
      match r
      case Write(data) =>
        if Appends() { OverwriteAtEnd(view, data); }
        n := OneSingleWrite(data);
      case Sync =>
        n := 0;
        Fsync();
    }

    /** A batch of requests, in order: the file takes all their bytes, and a final fsync brings the disk up to date. */
    method WriteBatch(batch: seq<Request>) returns (transferred: nat)
      requires Valid()
      modifies this, buffer
      ensures Valid() && transferred == |DataOf(batch)|
      ensures old(At()) <= |old(view)| && At() == old(At()) + transferred
      ensures view == Overwrite(old(view), old(At()), DataOf(batch))
      ensures Appends() ==> view == old(view) + DataOf(batch) && disk <= view
      ensures batch != [] && batch[|batch| - 1].Sync? ==> disk == view
    {
      transferred := 0;
      var k := 0;
      while k < |batch|
        invariant k <= |batch| && Valid() && transferred == |DataUpTo(batch, k)|
        invariant old(At()) <= |old(view)| && At() == old(At()) + transferred
        invariant view == Overwrite(old(view), old(At()), DataUpTo(batch, k))
        invariant k > 0 && batch[k - 1].Sync? ==> disk == view
        invariant buffer == null || buffer == old(buffer) || fresh(buffer)
      {
        OverwriteRequest(old(view), old(At()), batch, k);
        var n := Perform(batch[k]);
        transferred, k := transferred + n, k + 1;
      }
      if Appends() { DiskIsPrefix(); OverwriteAtEnd(old(view), DataOf(batch)); }
    }
  }
}
