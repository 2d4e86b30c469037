/** Reading a file that does not change, page by page, with the disk read done in the background.

    A call to `Read` never waits: without a page it fires a background read and asks the caller
    to come back; the background task allocates the page, fills it, stores its return value and
    then marks the action complete, and these steps may fall anywhere between the calls.  Reads
    from the disk succeed; read-ahead is never fired. */
module PageReader {
  import opened Bytes
  import opened FlatFile

  datatype Status = Initiated | InProgress | Complete

  // The read action; `got` is -100 until the background task stores its result.
  datatype Action = NoAction | ReadAction(status: Status, got: int)

  datatype Result = Data(bytes: seq<byte>) | EndOfFile | Again | Invalid

  // The background task's next step.
  datatype Task = Idle | Allocate | Fill | Store | Finish

  // What a caller and the background task may do, in any order.
  datatype Turn = Poll(nbyte: nat) | Background

  lemma PageSlice(page: seq<byte>, content: seq<byte>, start: nat, from: nat, n: nat)
    requires start <= |content| && PageMirrors(page, content, start) && from + n <= |page| &&
          start + from + n <= |content|
    ensures page[from..from + n] == content[start + from..start + from + n]
  {
  }

  class Reader {
    const P: nat
    const content: seq<byte>
    var buffer: array?<byte>
    var index: nat           // page number of the buffer
    var offset: nat
    var size: nat
    var action: Action
    var task: Task

    // The buffer holds the current page.
    ghost predicate Loaded()
      requires index * P <= |content|
      reads this, buffer
    {
      buffer != null && PageMirrors(buffer[..], content, index * P)
    }

    ghost predicate Valid()
      reads this, buffer
    {
      && P > 0 && size == |content|
      && (buffer != null ==> buffer.Length == P)
      && index * P <= offset < index * P + P && offset <= size
      && match action
         case NoAction => task.Idle? && (buffer == null ==> offset == index * P) && (buffer != null ==> Loaded())
         case ReadAction(status, got) =>
           && offset == index * P < size
           && (task.Idle? <==> status.Complete?)
           && (task.Allocate? <==> buffer == null)
           && (!task.Allocate? && !task.Fill? ==> Loaded())
           && (task.Finish? || task.Idle? ==> got > 0)
    }

    constructor (p: nat, file: seq<byte>)
      requires p > 0
      ensures P == p && content == file && Valid() && offset == 0 && buffer == null && action.NoAction?
    {
      P, content, buffer, index, offset, size := p, file, null, 0, 0, |file|;
      action, task := NoAction, Idle;
    }

    // Fire the background read of the current page.
    method FireRead()
      requires Valid() && buffer == null && action.NoAction? && offset < size
      modifies this`action, this`task
      ensures Valid() && action.ReadAction?
    {
      if index * P != offset {
        assert false;          // the abort of the source
      }
      if !action.NoAction? {
        assert false;          // and the next one
      }
      action, task := ReadAction(Initiated, -100), Allocate;
    }

    /** One step of the background task.  Whenever it falls, the position of the caller does not move. */
    method BackgroundStep()
      requires Valid()
      modifies this`buffer, this`action, this`task, buffer
      ensures Valid() && offset == old(offset)
      ensures action.ReadAction? == old(action.ReadAction?)
      ensures old(task) != Idle ==> Rank() < old(Rank())
      ensures buffer == old(buffer) || fresh(buffer)
    {
      match task
      case Idle =>
      case Allocate =>
        buffer, action, task := new byte[P], ReadAction(InProgress, action.got), Fill;
      case Fill =>
        FillPage();
      case Store =>
        action, task := ReadAction(action.status, Min(P, |content| - index * P)), Finish;
      case Finish =>
        action, task := ReadAction(Complete, action.got), Idle;
    }

    method FillPage()
      requires Valid() && task.Fill?
      modifies this`task, buffer
      ensures Valid() && task.Store?
    {
      var b, start := buffer, index * P;
      forall i | 0 <= i < P && start + i < |content| { b[i] := content[start + i]; }
      task := Store;
    }

    // A read of the current page is under way, or none has been fired yet.
    predicate Waiting() reads this { if action.ReadAction? then !action.status.Complete? else buffer == null }

    /** One call of ef_read.  The bytes it returns are the next ones of the file; 0 is returned exactly at the end. */
    method Read(nbyte: nat) returns (r: Result)
      requires Valid()
      modifies this
      ensures Valid() && (buffer == old(buffer) || buffer == null)
      ensures r.Invalid? <==> nbyte == 0 || nbyte > P
      ensures r.EndOfFile? <==> 0 < nbyte <= P && old(offset) == |content|
      ensures r.Again? <==> 0 < nbyte <= P && old(offset) < |content| && old(Waiting())
      ensures r.Again? ==> action.ReadAction? && task == (if old(action.ReadAction?) then old(task) else Allocate)
      ensures offset == old(offset) + (if r.Data? then |r.bytes| else 0) && offset <= |content|
      ensures r.Data? ==> r.bytes == content[old(offset)..offset]
      ensures r.Data? ==> |r.bytes| == Min(Min(nbyte, P - (old(offset) - old(index) * P)), |content| - old(offset)) > 0
    {
      if nbyte == 0 || P < nbyte { return Invalid; }
      if offset >= size { return EndOfFile; }
      if action.ReadAction? {
        if !action.status.Complete? { return Again; }
        if action.got <= 0 {
          assert false;        // the page starts before the end of the file
        }
        action := NoAction;
      }
      if buffer == null {
        FireRead();
        return Again;
      }
      var bytes := Deliver(nbyte);
      return Data(bytes);
    }

    // Copy from the page; a used-up page is freed.
    method Deliver(nbyte: nat) returns (bytes: seq<byte>)
      requires Valid() && action.NoAction? && buffer != null && 0 < nbyte && offset < size
      modifies this`buffer, this`offset, this`index
      ensures Valid() && (buffer == old(buffer) || buffer == null)
      ensures offset == old(offset) + |bytes| <= |content| && bytes == content[old(offset)..offset]
      ensures |bytes| == Min(Min(nbyte, P - (old(offset) - old(index) * P)), |content| - old(offset)) > 0
    {
      var pageOffset := offset - index * P;
      if P - pageOffset <= 0 {
        assert false;          // the page always has something left
      }
      var transfer := if nbyte <= P - pageOffset then nbyte else P - pageOffset;
      if offset + transfer > size { transfer := transfer - (offset + transfer - size); }
      bytes := buffer[pageOffset..pageOffset + transfer];
      PageSlice(buffer[..], content, index * P, pageOffset, transfer);
      pageOffset, offset := pageOffset + transfer, offset + transfer;
      if pageOffset == P {
        assert (index + 1) * P == index * P + P;
        index, buffer := index + 1, null;
      } else if pageOffset > P {
        assert false;          // the abort of the source
      }
    }

    /** Any polling pattern and any background timing: the bytes received are the next bytes of the file, in order. */
    method RunSchedule(turns: seq<Turn>) returns (got: seq<byte>)
      requires Valid()
      modifies this, buffer
      ensures Valid() && old(offset) <= offset <= |content| && got == content[old(offset)..offset]
    {
      got := [];
      for k := 0 to |turns|
        invariant Valid() && old(offset) <= offset <= |content| && got == content[old(offset)..offset]
        invariant buffer == null || buffer == old(buffer) || fresh(buffer)
      {
        match turns[k]
        case Poll(nbyte) =>
          ghost var at := offset;
          var r := Read(nbyte);
          Join(content, old(offset), at, offset);
          if r.Data? { got := got + r.bytes; }
        case Background =>
          BackgroundStep();
      }
    }

    // How many background steps a waiting caller may still need.
    function Rank(): nat
      reads this
    {
      if action.NoAction? then (if buffer == null then 5 else 0)
      else match task { case Idle => 0 case Allocate => 4 case Fill => 3 case Store => 2 case Finish => 1 }
    }

    /** A caller that polls until the end of the file gets all of it: no state is left in which polling makes no
        progress. */
    method ReadToEnd(nbyte: nat) returns (got: seq<byte>)
      requires Valid() && 0 < nbyte <= P
      modifies this, buffer
      ensures Valid() && got == content[old(offset)..]
    {
      got := [];
      while offset < |content|
        invariant Valid() && old(offset) <= offset <= |content| && got == content[old(offset)..offset]
        invariant buffer == null || buffer == old(buffer) || fresh(buffer)
        decreases |content| - offset, Rank()
      {
        ghost var at := offset;
        var r := Read(nbyte);
        Join(content, old(offset), at, offset);
        if r.Data? { got := got + r.bytes; } else { BackgroundStep(); }
      }
    }
  }
}
