/** LocalForwarder.pump of scripts/wp5-demo-forward.py: one direction of a forwarded
    connection, against any behaviour of the stop flag and the two sockets. */
module Pump {

  type Byte = x: int | 0 <= x < 256

  /** What recv and sendall do in one turn of the loop; an empty recv is the end of the stream,
      and a failing sendall may have handed over any part of its data. */
  datatype Recv = Data(bytes: seq<Byte>) | RecvFails
  datatype SendAll = Sent | SendFails(part: nat)
  datatype Turn = Turn(stopping: bool, recv: Recv, send: SendAll)

  /** What happens at the destination: bytes handed over, then its write side shut down. */
  datatype Event = Delivered(bytes: seq<Byte>) | WriteShut

  /** Blocked: the turns ran out with the pump still in its loop. */
  datatype Ending = Blocked | Stopped | EndOfStream | Failed

  function Payload(log: seq<Event>): seq<Byte> {
    if log == [] then []
    else Payload(log[..|log| - 1]) + if log[|log| - 1].Delivered? then log[|log| - 1].bytes else []
  }

  /** The bytes the source yields in the first n turns. */
  function Yielded(turns: seq<Turn>, n: nat): seq<Byte>
    requires n <= |turns|
  {
    if n == 0 then []
    else Yielded(turns, n - 1) + if turns[n - 1].recv.Data? then turns[n - 1].recv.bytes else []
  }

  predicate IsPrefix(a: seq<Byte>, b: seq<Byte>) {
    |a| <= |b| && a == b[..|a|]
  }

  lemma {:induction false} PayloadGrows(log: seq<Event>, e: Event)
    ensures Payload(log + [e]) == Payload(log) + if e.Delivered? then e.bytes else []
  {
    assert (log + [e])[..|log|] == log;
  }

  lemma {:induction false} PartIsPrefix(done: seq<Byte>, data: seq<Byte>, part: nat)
    requires part <= |data|
    ensures IsPrefix(done + data[..part], done + data)
    ensures part == |data| ==> done + data[..part] == done + data
  {
  }

  /** One turn of the loop: receive, then send everything received. */
  method OneTurn(log: seq<Event>, received: seq<Byte>, turn: Turn)
    returns (log': seq<Event>, received': seq<Byte>, ending: Ending)
    requires Payload(log) == received && WriteShut !in log && !turn.stopping
    ensures received' == received + if turn.recv.Data? then turn.recv.bytes else []
    ensures IsPrefix(Payload(log'), received') && WriteShut !in log'
    ensures ending != Failed ==> Payload(log') == received'
    ensures ending != Stopped && (ending == EndOfStream <==> turn.recv == Data([]))
  {
    if turn.recv.RecvFails? {
      assert received + [] == received;
      return log, received, Failed;
    }
    var data := turn.recv.bytes;
    if data == [] {
      assert received + data == received;
      return log, received, EndOfStream;
    }
    var part := if turn.send.Sent? || turn.send.part >= |data| then |data| else turn.send.part;
    PartIsPrefix(received, data, part);
    PayloadGrows(log, Delivered(data[..part]));
    return log + [Delivered(data[..part])], received + data, if turn.send.Sent? then Blocked else Failed;
  }

  /** The bytes delivered are always an in-order prefix of those received, and all of them
      unless a recv or send failed; the write side is shut down exactly once, after the last
      byte, exactly when the pump ends. */
  method Run(turns: seq<Turn>) returns (log: seq<Event>, received: seq<Byte>, ending: Ending, n: nat)
    ensures n <= |turns| && received == Yielded(turns, n)
    ensures IsPrefix(Payload(log), received)
    ensures ending != Failed ==> Payload(log) == received
    ensures ending == EndOfStream <==> n > 0 && !turns[n - 1].stopping && turns[n - 1].recv == Data([])
    ensures ending == Blocked ==> n == |turns| && WriteShut !in log
    ensures ending != Blocked ==> log != [] && log[|log| - 1] == WriteShut && WriteShut !in log[..|log| - 1]
  {
    log, received, ending, n := [], [], Blocked, 0;
    while n < |turns| && !turns[n].stopping && ending == Blocked
      invariant n <= |turns| && received == Yielded(turns, n)
      invariant WriteShut !in log && IsPrefix(Payload(log), received) && ending != Stopped
      invariant ending != Failed ==> Payload(log) == received
      invariant ending == EndOfStream <==> n > 0 && !turns[n - 1].stopping && turns[n - 1].recv == Data([])
    {
      log, received, ending := OneTurn(log, received, turns[n]);
      n := n + 1;
    }
    if ending == Blocked && n < |turns| {
      ending := Stopped;
    }
    if ending != Blocked {
      PayloadGrows(log, WriteShut);
      assert (log + [WriteShut])[..|log|] == log;
      log := log + [WriteShut];
    }
  }
}
