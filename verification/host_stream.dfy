/** Reading an upstream stream of arbitrary chunks through a byte reader. */
module HostStream {
  import opened Basics

  type Bytes = seq<bv8>

  datatype End = Eof | Failure(error: string)

  /** One answer of the live upstream: some bytes, possibly none, possibly together with the end. */
  datatype Event = Event(data: Bytes, end: Option<End>)

  /** All the bytes an upstream will give. */
  function Remaining(events: seq<Event>): Bytes {
    if events == [] then [] else events[0].data + (if events[0].end.Some? then [] else Remaining(events[1..]))
  }

  /** How it ends; an upstream that has nothing more to say ends cleanly. */
  function Ending(events: seq<Event>): End {
    if events == [] then Eof else if events[0].end.Some? then events[0].end.value else Ending(events[1..])
  }

  /** A live upstream body read directly: an error that comes with bytes is kept for the next read. */
  class DirectStream {
    var upstream: seq<Event>
    var kept: Option<string>

    ghost function Left(): Bytes
      reads this
    {
      if kept.Some? then [] else Remaining(upstream)
    }

    ghost function LeftEnd(): End
      reads this
    {
      if kept.Some? then Failure(kept.value) else Ending(upstream)
    }

    constructor (upstream: seq<Event>)
      ensures this.upstream == upstream && kept == None
    {
      this.upstream, kept := upstream, None;
    }

    method Read() returns (chunk: Bytes, done: bool, err: Option<string>)
      modifies this
      ensures err.Some? ==> chunk == [] && done && old(Left()) == [] && old(LeftEnd()) == Failure(err.value)
      ensures err.None? && done ==> old(Left()) == chunk && old(LeftEnd()) == Eof
      ensures err.None? && !done ==> old(Left()) == chunk + Left() && old(LeftEnd()) == LeftEnd()
      ensures err.None? && !done && chunk == [] ==> |upstream| < |old(upstream)|
    {
      if kept.Some? {
        chunk, done, err := [], true, kept;
        kept := None;
        return;
      }
      if upstream == [] { return [], true, None; }
      var e := upstream[0];
      upstream := upstream[1..];
      if e.data != [] {
        if e.end == Some(Eof) { return e.data, true, None; }
        if e.end.Some? { kept := Some(e.end.value.error); }
        return e.data, false, None;
      }
      if e.end == Some(Eof) { return [], true, None; }
      if e.end.Some? { return [], true, Some(e.end.value.error); }
      return [], false, None;
    }
  }

  datatype Count = Count(n: nat) | Ended(end: End)

  /** The byte reader over it, which buffers what a read has no room for. */
  class StreamReader {
    const stream: DirectStream
    var buf: Bytes
    var done: bool
    var err: Option<string>

    /** The bytes still to be returned. */
    ghost function Pending(): Bytes
      reads this, stream
    {
      buf + if done then [] else stream.Left()
    }

    /** The end reported after them. */
    ghost function PendingEnd(): End
      reads this, stream
    {
      if !done then stream.LeftEnd() else if err.Some? then Failure(err.value) else Eof
    }

    /** A failure is kept only once reading is over. */
    ghost predicate Sound()
      reads this
    {
      err.Some? ==> done && buf == []
    }

    constructor (stream: DirectStream)
      ensures this.stream == stream && Pending() == stream.Left() && PendingEnd() == stream.LeftEnd() && Sound()
    {
      this.stream := stream;
      buf, done, err := [], false, None;
    }

    /** Copies as much of `data` as fits and buffers what is left. */
    method Give(p: array<bv8>, data: Bytes) returns (n: nat)
      modifies p, this`buf
      ensures n <= p.Length && data == p[..n] + buf && p[n..] == old(p[n..])
      ensures data != [] && p.Length > 0 ==> n > 0
    {
      n := if |data| < p.Length then |data| else p.Length;
      forall k | 0 <= k < n { p[k] := data[k]; }
      buf := data[n..];
      assert p[..n] == data[..n];
    }

    /** Gives the bytes just read, with nothing buffered before them. */
    method GiveNew(p: array<bv8>, chunk: Bytes, ended: bool) returns (n: nat)
      requires chunk != [] && buf == [] && !done && err.None?
      modifies p, this`buf, this`done
      ensures n <= p.Length && (p.Length > 0 ==> n > 0) && p[n..] == old(p[n..])
      ensures done == ended && chunk + (if ended then [] else stream.Left()) == p[..n] + Pending()
    {
      n := Give(p, chunk);
      done := ended;
    }

    /** Returns the next pending bytes, as many as fit, or the end once nothing is pending. A read with room
        for a byte returns one or the end. */
    method Read(p: array<bv8>) returns (r: Count)
      modifies this, stream, p
      requires Sound()
      ensures Sound() && PendingEnd() == old(PendingEnd())
      ensures r.Count? ==> r.n <= p.Length && old(Pending()) == p[..r.n] + Pending() && p[r.n..] == old(p[r.n..])
      ensures r.Count? && p.Length > 0 ==> r.n > 0
      ensures r.Ended? ==> old(Pending()) == [] == Pending() && r.end == PendingEnd() && p[..] == old(p[..])
      decreases |stream.upstream|
    {
      if buf != [] {
        var n := Give(p, buf);
        return Count(n);
      }
      if done { return Ended(if err.Some? then Failure(err.value) else Eof); }
      var chunk, ended, failed := stream.Read();
      if failed.Some? {
        done, err := true, failed;
        return Ended(Failure(failed.value));
      }
      if chunk != [] {
        var n := GiveNew(p, chunk, ended);
        return Count(n);
      }
      if ended {
        done := true;
        return Ended(Eof);
      }
      r := Read(p);
    }
  }

  lemma Returned(all: Bytes, next: Bytes, after: Bytes, before: Bytes)
    requires before == next + after
    ensures (all + next) + after == all + before && |after| == |before| - |next|
  {}

  /** Reading to the end with any nonempty buffers returns exactly the concatenated chunks, then the end. */
  method ReadAll(reader: StreamReader, size: nat -> nat) returns (all: Bytes, end: End)
    requires reader.Sound() && forall k :: size(k) > 0
    modifies reader, reader.stream
    ensures all == old(reader.Pending()) && end == old(reader.PendingEnd())
  {
    all := [];
    var k := 0;
    while true
      invariant reader.Sound() && reader.PendingEnd() == old(reader.PendingEnd())
      invariant all + reader.Pending() == old(reader.Pending())
      decreases |reader.Pending()|
    {
      ghost var before := reader.Pending();
      var p := new bv8[size(k)];
      var r := reader.Read(p);
      if r.Ended? { return all, r.end; }
      Returned(all, p[..r.n], reader.Pending(), before);
      all := all + p[..r.n];
      k := k + 1;
    }
  }
}
