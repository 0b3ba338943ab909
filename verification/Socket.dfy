/** common/socket.cpp: a stream of bytes each way, which the network hands over in pieces of its own
    choosing. */
module Sockets {
  import opened Bytes

  /** `Torn` is the exception of a stream that ends too early, `Failed` that of an error of the system. */
  datatype Received = All(data: seq<byte>) | EndOfStream | Torn | Failed

  datatype Sent = AllSent | PeerGone | Broken | Failed

  class Socket {
    /** All the bytes that are still to be received, and whether they are followed by an error or by the peer's
        closing. */
    var incoming: seq<byte>
    var breaks: bool
    var outgoing: seq<byte>
    var recvClosed: bool
    var sendClosed: bool

    /** Sending has raised an error. */
    var sendFailed: bool

    /** At least one byte and at most `sz` of them; when there are none left, the error or the end. */
    method RecvSome(sz: nat) returns (r: Received)
      requires sz > 0
      modifies `incoming, `recvClosed
      ensures old(incoming) != [] ==> r.All? && 1 <= |r.data| <= sz && old(incoming) == r.data + incoming
      ensures old(incoming) == [] ==> r == (if breaks then Received.Failed else EndOfStream) && incoming == []
      ensures recvClosed == (old(recvClosed) || r == EndOfStream)
    {
      if incoming == [] {
        if breaks {
          return Received.Failed;
        }
        recvClosed := true;
        return EndOfStream;
      }
      var n: nat :| 1 <= n <= sz && n <= |incoming|;
      r := All(incoming[..n]);
      incoming := incoming[n..];
    }

    /** Either exactly `sz` bytes, however they arrive, or what ends the stream; its closing after some of
        them is an error. */
    method RecvAll(sz: nat) returns (r: Received)
      modifies `incoming, `recvClosed
      ensures sz <= |old(incoming)| ==> Take(sz, old(incoming)) == Got(old(incoming)[..sz], incoming)
      ensures sz <= |old(incoming)| ==> r == All(old(incoming)[..sz]) && recvClosed == old(recvClosed)
      ensures sz > |old(incoming)| ==> incoming == [] && recvClosed == (old(recvClosed) || !breaks)
      ensures sz > |old(incoming)| ==>
                r == if breaks then Received.Failed else if old(incoming) == [] then EndOfStream else Torn
    {
      var data := [];
      while |data| < sz
        invariant |data| <= sz && old(incoming) == data + incoming
        invariant recvClosed == old(recvClosed)
        decreases sz - |data|
      {
        var some := RecvSome(sz - |data|);
        if some == EndOfStream {
          return if |data| > 0 then Torn else EndOfStream;
        }
        if some == Received.Failed {
          return Received.Failed;
        }
        data := data + some.data;
      }
      return All(data);
    }

    /** Some of the bytes; none when the peer is gone, or when there is an error. */
    method SendSome(data: seq<byte>) returns (n: nat, failed: bool)
      requires data != []
      modifies `outgoing, `sendClosed, `sendFailed
      ensures n <= |data| && outgoing == old(outgoing) + data[..n] && (failed ==> n == 0)
      ensures sendClosed == (old(sendClosed) || (n == 0 && !failed))
      ensures sendFailed == (old(sendFailed) || failed)
    {
      n :| n <= |data|;
      failed := false;
      if n == 0 {
        failed := *;
        if failed {
          sendFailed := true;
        } else {
          sendClosed := true;
        }
      }
      outgoing := outgoing + data[..n];
    }

    /** Everything in order and nothing twice, unless the peer goes away or an error comes up. */
    method SendAll(data: seq<byte>) returns (r: Sent, n: nat)
      modifies `outgoing, `sendClosed, `sendFailed
      ensures n <= |data| && outgoing == old(outgoing) + data[..n]
      ensures r.AllSent? <==> n == |data|
      ensures !r.AllSent? && !r.Failed? ==> r == if n == 0 then PeerGone else Broken
      ensures sendClosed == (old(sendClosed) || r.PeerGone? || r.Broken?)
      ensures sendFailed == (old(sendFailed) || r.Failed?)
    {
      n := 0;
      while n < |data|
        invariant n <= |data| && outgoing == old(outgoing) + data[..n]
        invariant sendClosed == old(sendClosed) && sendFailed == old(sendFailed)
      {
        var s, failed := SendSome(data[n..]);
        assert data[..n] + data[n..][..s] == data[..n + s];
        if failed {
          return Sent.Failed, n;
        }
        if s == 0 {
          return if n > 0 then Broken else PeerGone, n;
        }
        n := n + s;
      }
      return AllSent, n;
    }

    // ---------------------------------------------------------------- one field at a time

    method Recv8() returns (v: byte)
      requires Take8(incoming).Got?
      modifies `incoming, `recvClosed
      ensures Take8(old(incoming)) == Got(v, incoming) && recvClosed == old(recvClosed)
    {
      var r := RecvAll(1);
      v := r.data[0];
    }

    method Recv16() returns (v: u16)
      requires Take16(incoming).Got?
      modifies `incoming, `recvClosed
      ensures Take16(old(incoming)) == Got(v, incoming) && recvClosed == old(recvClosed)
    {
      var r := RecvAll(2);
      v := From16(r.data);
    }

    method Recv32() returns (v: u32)
      requires Take32(incoming).Got?
      modifies `incoming, `recvClosed
      ensures Take32(old(incoming)) == Got(v, incoming) && recvClosed == old(recvClosed)
    {
      var r := RecvAll(4);
      v := From32(r.data);
    }

    method RecvName() returns (name: seq<byte>)
      requires TakeName(incoming).Got?
      modifies `incoming, `recvClosed
      ensures TakeName(old(incoming)) == Got(name, incoming) && recvClosed == old(recvClosed)
    {
      var len := Recv16();
      name := [];
      if len > 0 {
        var r := RecvAll(len);
        name := r.data;
      }
    }
  }

  /** Grows a buffer that is to become `all`. */
  method Append(buf: seq<byte>, x: seq<byte>, ghost all: seq<byte>) returns (grown: seq<byte>)
    requires buf <= all && x <= all[|buf|..]
    ensures grown == buf + x && grown <= all && all[|grown|..] == all[|buf|..][|x|..]
  {
    grown := buf + x;
    assert all == buf + all[|buf|..];
    assert all[|buf|..] == x + all[|buf|..][|x|..];
  }

  /** The buffer is a beginning of `all`, and `left` is still missing. */
  ghost predicate Needs(buf: seq<byte>, left: seq<byte>, all: seq<byte>) {
    buf <= all && all[|buf|..] == left
  }

  lemma AllWritten(buf: seq<byte>, all: seq<byte>)
    requires Needs(buf, [], all)
    ensures buf == all
  {
  }

  method AppendField(buf: seq<byte>, x: seq<byte>, ghost rest: seq<byte>, ghost all: seq<byte>) returns (grown: seq<byte>)
    requires Needs(buf, x + rest, all)
    ensures Needs(grown, rest, all) && (rest == [] ==> grown == all)
  {
    grown := Append(buf, x, all);
  }

  method AppendName(buf: seq<byte>, name: seq<byte>, ghost rest: seq<byte>, ghost all: seq<byte>) returns (grown: seq<byte>)
    requires Needs(buf, PutName(name, rest), all)
    ensures Needs(grown, rest, all)
  {
    var len := |name| % 65536;
    grown := Append(buf, U16(len), all);
    if len > 0 {
      grown := Append(grown, name, all);
    }
  }

  lemma OneMorePut<T>(xs: seq<T>, put: (T, seq<byte>) -> seq<byte>, rest: seq<byte>, k: nat)
    requires k < |xs|
    ensures PutAll(xs[k..], put, rest) == put(xs[k], PutAll(xs[k + 1..], put, rest))
  {
    assert xs[k..][1..] == xs[k + 1..];
  }

  lemma NothingMorePut<T>(xs: seq<T>, put: (T, seq<byte>) -> seq<byte>, rest: seq<byte>)
    ensures PutAll(xs[|xs|..], put, rest) == rest && xs[0..] == xs
  {
  }
}
