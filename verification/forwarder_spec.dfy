/** The TCP forwarder as a machine over values: two byte pipes between two endpoints, or one
    pipe from an endpoint to itself when both sides are the same socket. */
module ForwarderSpec {
  import opened Common

  datatype Side = Inc | Out

  function Other(side: Side): Side {
    if side == Inc then Out else Inc
  }

  // An endpoint: no socket yet, an open one, one whose close has begun, one that is gone.
  datatype End = Unset | Open(writable: bool) | Closing | Gone

  // One direction. `writing` says that a write of `outb` is outstanding; `delivered` are the
  // bytes whose write has completed.
  datatype Pipe = Pipe(received: seq<Byte>, delivered: seq<Byte>, outb: seq<Byte>, inb: seq<Byte>, writing: bool)

  const IDLE := Pipe([], [], [], [], false)

  // `io` carries what the incoming socket sends, `oi` what the outgoing one sends.
  datatype State = State(inc: End, out: End, aliased: bool, io: Pipe, oi: Pipe, fired: nat) {
    function EndOf(side: Side): End {
      if side == Inc then inc else out
    }

    function SetEnd(side: Side, e: End): State {
      if aliased then this.(inc := e, out := e)
      else if side == Inc then this.(inc := e) else this.(out := e)
    }

    // The pipe fed by `side`, and the pipe that writes to `side`.
    function From(side: Side): Pipe {
      if aliased || side == Inc then io else oi
    }

    function SetFrom(side: Side, p: Pipe): State {
      if aliased || side == Inc then this.(io := p) else this.(oi := p)
    }

    function To(side: Side): Pipe {
      From(Other(side))
    }

    function SetTo(side: Side, p: Pipe): State {
      SetFrom(Other(side), p)
    }

    predicate Destroyed() {
      inc == Gone && (out == Gone || out == Unset)
    }
  }

  function Initial(writable: bool): State {
    State(Open(writable), Unset, false, IDLE, IDLE, 0)
  }

  // ---------------------------------------------------------------- what the handlers do

  function Close(s: State, side: Side): State {
    if s.EndOf(side).Open? then s.SetEnd(side, Closing) else s
  }

  // The error handler of `side`: it closes its own socket and its peer's.
  function Fail(s: State, side: Side): State {
    Close(Close(s, side), Other(side))
  }

  // Swap the buffers of the pipe to `side` and write what has piled up; ok says whether the
  // write is accepted, which it never is on a closing socket.
  function Flush(s: State, side: Side, ok: bool): State {
    var p := s.To(side);
    var s1 := s.SetTo(side, p.(outb := p.inb, inb := p.outb));
    if ok && s.EndOf(side).Open? then s1.SetTo(side, s1.To(side).(writing := true))
    else Fail(s1, side)
  }

  datatype Event =
    | Data(side: Side, bytes: seq<Byte>, ok: bool)
    | Sent(side: Side, ok: bool)
    | WriteFailed(side: Side)
    | ReadFailed(side: Side)
    | CloseCalled(side: Side)
    | LosesWritable(side: Side)
    | CloseDone(side: Side)
    | OutgoingSet(alias: bool, writable: bool, ok: bool)

  // What the sockets can report: no reads once a close has begun, outcomes only of writes
  // that are outstanding, and a finished close only after those. In the aliased mode there is
  // one socket, known by the incoming side.
  predicate Enabled(s: State, e: Event) {
    match e
    case Data(side, _, _) => Handles(s, side) && s.EndOf(side).Open?
    case Sent(side, _) => Handles(s, side) && s.To(side).writing
    case WriteFailed(side) => Handles(s, side) && s.To(side).writing
    case ReadFailed(side) => Handles(s, side) && s.EndOf(side).Open?
    case CloseCalled(side) => Handles(s, side)
    case LosesWritable(side) => Handles(s, side) && s.EndOf(side).Open?
    case CloseDone(side) => Handles(s, side) && s.EndOf(side) == Closing && !s.To(side).writing
    case OutgoingSet(_, _, _) => s.out == Unset && s.inc != Gone
  }

  predicate Handles(s: State, side: Side) {
    (s.EndOf(side).Open? || s.EndOf(side) == Closing) && (s.aliased ==> side == Inc)
  }

  function Received(s: State, side: Side, bytes: seq<Byte>, ok: bool): State {
    if bytes == [] then s
    else
      var p := s.From(side);
      var s1 := s.SetFrom(side, p.(received := p.received + bytes, inb := p.inb + bytes));
      var sink := s.EndOf(Other(side));
      if sink.Open? && sink.writable && p.outb == [] then Flush(s1, Other(side), ok) else s1
  }

  function Completed(s: State, side: Side, ok: bool): State {
    var p := s.To(side);
    var s1 := s.SetTo(side, p.(delivered := p.delivered + p.outb, outb := [], writing := false));
    if p.inb != [] then Flush(s1, side, ok) else s1
  }

  function Closed(s: State, side: Side): State {
    var s1 := s.SetEnd(side, Gone);
    if s1.Destroyed() then s1.(fired := s1.fired + 1)
    else Close(s1, Other(side))
  }

  function SetOutgoing(s: State, alias: bool, writable: bool, ok: bool): State {
    var s1 := if alias then s.(aliased := true, out := s.inc) else s.(out := Open(writable));
    if s1.io.inb != [] && s1.io.outb == [] then Flush(s1, Out, ok) else s1
  }

  function Step(s: State, e: Event): State {
    match e
    case Data(side, bytes, ok) => Received(s, side, bytes, ok)
    case Sent(side, ok) => Completed(s, side, ok)
    case WriteFailed(side) => Fail(s.SetTo(side, s.To(side).(writing := false)), side)
    case ReadFailed(side) => Fail(s, side)
    case CloseCalled(side) => Close(s, side)
    case LosesWritable(side) => s.SetEnd(side, Open(false))
    case CloseDone(side) => Closed(s, side)
    case OutgoingSet(alias, writable, ok) => SetOutgoing(s, alias, writable, ok)
  }
}
