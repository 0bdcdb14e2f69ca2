/** The hard limit on the bytes of a request body, around whatever the multipart parser asks for. */
module LimitedReader {
  import opened Common
  import opened Streaming

  /** `None` for an absent size; the parser may also pass a negative one. */
  datatype Call = Read(size: Option<int>) | ReadLine(size: Option<int>)

  /** What was handed out by the calls that did not raise, in order. */
  function Joined(replies: seq<Option<Bytes>>): Bytes {
    if replies == [] then []
    else
      var last := replies[|replies| - 1];
      Joined(replies[..|replies| - 1]) + if last.Some? then last.value else []
  }

  lemma JoinedMore(replies: seq<Option<Bytes>>, reply: Option<Bytes>)
    ensures Joined(replies + [reply]) == Joined(replies) + if reply.Some? then reply.value else []
  {
    assert (replies + [reply])[..|replies|] == replies;
  }

  class LimitedReader {
    const raw: Stream
    const maxBytes: nat
    const start: nat
    var bytesRead: nat

    /** Nobody else reads the raw stream, and never more than one byte beyond the limit is pulled from it. */
    ghost predicate Valid()
      reads this, raw
    {
      && raw.Valid() && start <= raw.pos
      && bytesRead == raw.pos - start && bytesRead <= maxBytes + 1
    }

    predicate Overrun()
      reads this
    {
      bytesRead > maxBytes
    }

    constructor (raw: Stream, maxBytes: nat)
      requires raw.Valid()
      ensures Valid() && this.raw == raw && this.maxBytes == maxBytes && start == raw.pos && bytesRead == 0
    {
      this.raw := raw;
      this.maxBytes := maxBytes;
      start := raw.pos;
      bytesRead := 0;
    }

    /** How much to ask of the raw stream: what the call asks for, but at most one byte more than is left, to notice an
        overrun; without a size, just that. */
    function Want(size: Option<int>): (n: nat)
      requires bytesRead <= maxBytes + 1
      reads this
      ensures bytesRead + n <= maxBytes + 1
      ensures size == None || size.value < 0 ==> bytesRead + n == maxBytes + 1
      ensures size.Some? && size.value >= 0 ==> n <= size.value && (n == size.value || bytesRead + n == maxBytes + 1)
    {
      var remaining := maxBytes - bytesRead;
      if size == None || size.value < 0 || size.value > remaining + 1 then remaining + 1 else size.value
    }

    /** Count what was pulled, and withhold it if it goes beyond the limit. */
    method Check(data: Bytes) returns (reply: Option<Bytes>)
      modifies this
      ensures bytesRead == old(bytesRead) + |data|
      ensures reply == if bytesRead > maxBytes then None else Some(data)
    {
      bytesRead := bytesRead + |data|;
      reply := if bytesRead > maxBytes then None else Some(data);
    }

    /** One call. It raises exactly when the limit has been passed, now or before, and then hands out nothing. Nothing
        is handed out otherwise only if nothing was asked for or the stream is at its end; and a line is cut short only
        by the size of the call or the end of the stream. */
    method Serve(call: Call) returns (reply: Option<Bytes>)
      requires Valid()
      modifies this, raw
      ensures Valid() && old(bytesRead) <= bytesRead
      ensures reply == None <==> Overrun()
      ensures reply.Some? ==> reply.value == raw.content[old(raw.pos)..raw.pos]
      ensures reply.Some? && call.size.Some? && call.size.value >= 0 ==> |reply.value| <= call.size.value
      ensures old(Overrun()) ==> raw.pos == old(raw.pos)
      ensures reply == Some([]) ==> call.size == Some(0) || raw.pos == |raw.content|
      ensures reply.Some? && call.ReadLine? ==>
        var line := reply.value;
        && (forall i :: 0 <= i < |line| - 1 ==> line[i] != NEWLINE)
        && (call.size == Some(|line|) || raw.pos == |raw.content| || (line != [] && line[|line| - 1] == NEWLINE))
    {
      var data;
      match call {
        case Read(size) => data := raw.Read(Want(size));
        case ReadLine(size) => data := raw.ReadLine(Want(size));
      }
      reply := Check(data);
    }

    /** Any sequence of calls, including calls after an overrun. What is handed out is the beginning of the raw stream
        and no longer than the limit; at most one byte more is ever pulled; once a call has raised every later one
        raises; and a body within the limit is never refused. */
    method Session(calls: seq<Call>) returns (replies: seq<Option<Bytes>>)
      requires Valid() && bytesRead == 0
      modifies this, raw
      ensures Valid() && |replies| == |calls|
      ensures Joined(replies) <= raw.content[start..] && |Joined(replies)| <= maxBytes
      ensures start <= raw.pos <= start + maxBytes + 1
      ensures forall i, j :: 0 <= i < j < |calls| && replies[i] == None ==> replies[j] == None
      ensures (exists i :: 0 <= i < |calls| && replies[i] == None) <==> raw.pos == start + maxBytes + 1
      ensures |raw.content| - start <= maxBytes ==> Joined(replies) == raw.content[start..raw.pos]
    {
      replies := [];
      for n := 0 to |calls|
        invariant Valid() && |replies| == n
        invariant if Overrun() then Joined(replies) <= raw.content[start..] && |Joined(replies)| <= maxBytes
                  else Joined(replies) == raw.content[start..raw.pos]
        invariant forall i, j :: 0 <= i < j < n && replies[i] == None ==> replies[j] == None
        invariant (exists i :: 0 <= i < n && replies[i] == None) <==> Overrun()
        invariant !Overrun() ==> forall i :: 0 <= i < n ==> replies[i].Some?
      {
        var reply := Serve(calls[n]);
        JoinedMore(replies, reply);
        ghost var before := replies;
        replies := replies + [reply];
        assert replies[n] == reply && replies[..n] == before;
      }
    }
  }

  /** A negative limit is refused. */
  method Limited(raw: Stream, maxBytes: int) returns (r: Option<LimitedReader>)
    requires raw.Valid()
    ensures r == None <==> maxBytes < 0
    ensures r.Some? ==> fresh(r.value) && r.value.Valid() && r.value.raw == raw && r.value.maxBytes == maxBytes
                        && r.value.bytesRead == 0
  {
    if maxBytes < 0 {
      return None;
    }
    var reader := new LimitedReader(raw, maxBytes);
    r := Some(reader);
  }
}
