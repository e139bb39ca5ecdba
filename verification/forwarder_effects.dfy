/** What each report of a socket does to both sockets and to the bytes on their way, and what
    follows over whole runs: which bytes came in and went out, and what an error brings down. */
module ForwarderEffects {
  import opened Common
  import opened ForwarderSpec
  import opened ForwarderRuns

  predicate IsOpen(e: End) {
    e.Open?
  }

  // ---------------------------------------------------------------- sockets

  // An error, of reading or of writing, leaves neither socket open.
  lemma {:induction false} ErrorClosesBoth(s: State, e: Event)
    requires Sound(s) && Enabled(s, e) && (e.ReadFailed? || e.WriteFailed?)
    ensures var r := Step(s, e);
      && !IsOpen(r.inc) && !IsOpen(r.out) && Doomed(r)
      && r.io.inb == s.io.inb && r.oi.inb == s.oi.inb
      && (s.inc == Closing || s.inc == Gone ==> r.inc == s.inc) && (s.out == Unset || s.out == Gone ==> r.out == s.out)
  {
  }

  // The end of a socket's stream, or anyone who closes it, closes that socket only; when its
  // close is over the other is closed as well.
  lemma {:induction false} CloseTakesPeer(s: State, e: Event)
    requires Sound(s) && Enabled(s, e) && (e.CloseCalled? || e.CloseDone?)
    ensures var r := Step(s, e);
      && !IsOpen(r.EndOf(e.side)) && Doomed(r)
      && r.io == s.io && r.oi == s.oi
      && (e.CloseCalled? && !s.aliased ==> r.EndOf(Other(e.side)) == s.EndOf(Other(e.side)))
      && (e.CloseDone? ==> r.EndOf(e.side) == Gone && !IsOpen(r.EndOf(Other(e.side))))
  {
  }

  // Nothing else closes a socket, but a write that is refused.
  lemma {:induction false} OtherwiseOpen(s: State, e: Event, side: Side)
    requires Sound(s) && Enabled(s, e) && IsOpen(s.EndOf(side))
    requires e.LosesWritable? || ((e.Data? || e.Sent? || e.OutgoingSet?) && e.ok && (e.Sent? ==> IsOpen(s.EndOf(e.side))))
    ensures IsOpen(Step(s, e).EndOf(side))
    ensures Step(s, e).EndOf(side) == if e.LosesWritable? && (e.side == side || s.aliased) then Open(false) else s.EndOf(side)
  {
  }

  // ---------------------------------------------------------------- bytes

  // The bytes that come from the client, and those that come from the upstream.
  function Bytes(s: State, from: Side): Pipe {
    if from == Inc then s.io else s.oi
  }

  // What is read from a socket is taken down whole.
  lemma {:induction false} DataIsReceived(s: State, e: Event, from: Side)
    requires Sound(s) && Enabled(s, e)
    ensures var before, now := Bytes(s, from).received, Bytes(Step(s, e), from).received;
      if e.Data? && e.side == from then now == before + e.bytes else now == before
  {
  }

  // A write that completes delivers exactly what it was given, and nothing else does.
  lemma {:induction false} SentIsDelivered(s: State, e: Event, from: Side)
    requires Sound(s) && Enabled(s, e)
    ensures var before, now := Bytes(s, from).delivered, Bytes(Step(s, e), from).delivered;
      if e.Sent? && (if s.aliased then from == Inc else e.side == Other(from)) then now == before + Bytes(s, from).outb
      else now == before
  {
  }

  // Bytes that are read are written at once if and only if the other socket is open and
  // writable and no write to it is outstanding; then all that had piled up goes with them.
  lemma {:induction false} DataIsWritten(s: State, side: Side, bytes: seq<Byte>, ok: bool)
    requires Sound(s) && Enabled(s, Data(side, bytes, ok)) && !s.From(side).writing
    ensures var r, sink := Step(s, Data(side, bytes, ok)), s.EndOf(Other(side));
      && (r.From(side).writing <==> ok && bytes != [] && sink.Open? && sink.writable)
      && (r.From(side).writing ==> r.From(side).outb == s.From(side).inb + bytes && r.From(side).inb == [])
      && (bytes != [] && sink.Open? && sink.writable && !ok ==> !IsOpen(r.inc) && !IsOpen(r.out))
  {
  }

  // When a write completes, the next begins if and only if something has piled up meanwhile.
  lemma {:induction false} SentIsFollowed(s: State, side: Side, ok: bool)
    requires Sound(s) && Enabled(s, Sent(side, ok))
    ensures var r := Step(s, Sent(side, ok));
      && (r.To(side).writing <==> ok && s.To(side).inb != [] && IsOpen(s.EndOf(side)))
      && (r.To(side).writing ==> r.To(side).outb == s.To(side).inb && r.To(side).inb == [])
      && (s.To(side).inb != [] && !r.To(side).writing ==> !IsOpen(r.inc) && !IsOpen(r.out))
  {
  }

  // When the outgoing socket is set, what was read before is written to it, and only then.
  lemma {:induction false} JoinWrites(s: State, alias: bool, writable: bool, ok: bool)
    requires Sound(s) && Enabled(s, OutgoingSet(alias, writable, ok))
    ensures var r := Step(s, OutgoingSet(alias, writable, ok));
      && (r.io.writing <==> ok && s.io.inb != [] && (alias ==> IsOpen(s.inc)))
      && (r.io.writing ==> r.io.outb == s.io.inb && r.io.inb == [])
      && (s.io.inb != [] && !r.io.writing ==> !IsOpen(r.inc) && !IsOpen(r.out))
      && (s.io.inb == [] ==> r.inc == s.inc && r.out == if alias then s.inc else Open(writable))
  {
  }

  // ---------------------------------------------------------------- every run

  // All that was read from a socket, in order.
  function Read(es: seq<Event>, side: Side): seq<Byte> {
    if es == [] then []
    else if es[0].Data? && es[0].side == side then es[0].bytes + Read(es[1..], side)
    else Read(es[1..], side)
  }

  // What was read from the client is what has been written whole to the upstream, followed by
  // what is being written and what has piled up; and the other way round.
  lemma {:induction false} ReadIsSent(writable: bool, es: seq<Event>, side: Side)
    requires Run(Initial(writable), es).Some?
    ensures var p := Bytes(Run(Initial(writable), es).value, side);
      Read(es, side) == p.delivered + p.outb + p.inb
  {
    RunSound(Initial(writable), es);
    ReadIsReceived(Initial(writable), es, side);
  }

  lemma {:induction false} ReadIsReceived(s: State, es: seq<Event>, side: Side)
    requires Sound(s) && Run(s, es).Some?
    ensures Bytes(Run(s, es).value, side).received == Bytes(s, side).received + Read(es, side)
    decreases |es|
  {
    if es != [] {
      StepSound(s, es[0]);
      DataIsReceived(s, es[0], side);
      ReadIsReceived(Step(s, es[0]), es[1..], side);
      if es[0].Data? && es[0].side == side {
        AppendTwice(Bytes(s, side).received, es[0].bytes, Read(es[1..], side));
      }
    }
  }

  lemma {:induction false} AppendTwice(x: seq<Byte>, y: seq<Byte>, z: seq<Byte>)
    ensures x + y + z == x + (y + z)
  {
  }

  // As long as a socket is open and writable, the writes to it that are due can take all that was
  // read for it there: two at most, whatever has piled up.
  lemma {:induction false} CanDeliver(s: State, side: Side) returns (fs: seq<Event>)
    requires Sound(s) && s.EndOf(side).Open? && s.EndOf(side).writable && (s.aliased ==> side == Inc)
    ensures |fs| == Due(s.To(side)) <= 2 && Run(s, fs).Some?
    ensures var r := Run(s, fs).value; r.To(side).received == r.To(side).delivered == s.To(side).received
    decreases Due(s.To(side))
  {
    if s.To(side).writing {
      var e := Sent(side, true);
      StepSound(s, e);
      SentGoesOn(s, side);
      fs := CanDeliver(Step(s, e), side);
      fs := [e] + fs;
    } else {
      fs := [];
    }
  }

  function Due(p: Pipe): nat {
    if !p.writing then 0 else if p.inb == [] then 1 else 2
  }

  lemma {:induction false} SentGoesOn(s: State, side: Side)
    requires Sound(s) && Enabled(s, Sent(side, true)) && s.EndOf(side).Open?
    ensures var m := Step(s, Sent(side, true));
      && m.EndOf(side) == s.EndOf(side) && m.aliased == s.aliased
      && m.To(side).received == s.To(side).received && Due(m.To(side)) < Due(s.To(side))
      && Due(s.To(side)) == Due(m.To(side)) + 1
  {
  }

  // After an error, or once a socket is closed by anyone, both sockets go, whatever else
  // happens: at most five reports are owed, and when none is owed any more both sockets are gone
  // and the listener has been told, once.
  lemma {:induction false} ErrorTearsDown(writable: bool, es: seq<Event>, e: Event, fs: seq<Event>)
    requires Run(Initial(writable), es).Some? && Enabled(Run(Initial(writable), es).value, e)
    requires e.ReadFailed? || e.WriteFailed? || e.CloseCalled? || e.CloseDone?
    requires Run(Step(Run(Initial(writable), es).value, e), fs).Some?
    ensures var s := Step(Run(Initial(writable), es).value, e); var r := Run(s, fs).value;
      && OwedCount(s, fs) <= 5
      && (r.Destroyed() <==> forall t :: Enabled(r, t) ==> !Owed(r, t))
      && r.fired == if r.Destroyed() then 1 else 0
  {
    var s := Run(Initial(writable), es).value;
    RunSound(Initial(writable), es);
    if e.ReadFailed? || e.WriteFailed? { ErrorClosesBoth(s, e); } else { CloseTakesPeer(s, e); }
    StepSound(s, e);
    TeardownCompletes(Step(s, e), fs);
  }
}
