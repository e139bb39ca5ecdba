/** What the forwarder promises over every run: no byte is lost, reordered or invented, no
    stall while both ends work, and a teardown that always completes, once. */
module ForwarderRuns {
  import opened Common
  import opened ForwarderSpec

  // ---------------------------------------------------------------- the invariant

  ghost predicate PipeOk(p: Pipe, sink: End) {
    && p.received == p.delivered + p.outb + p.inb
    && (p.writing ==> p.outb != [] && (sink.Open? || sink == Closing))
    && (p.outb != [] && !p.writing ==> !sink.Open?)
    && (p.inb != [] && sink.Open? && sink.writable ==> p.writing)
  }

  ghost predicate Sound(s: State) {
    && PipeOk(s.io, s.out)
    && PipeOk(s.oi, s.inc)
    && s.inc != Unset
    && (s.aliased ==> s.out == s.inc && s.oi == IDLE)
    && (s.out == Unset ==> s.oi == IDLE && s.io.outb == [])
    && (s.inc == Gone ==> !s.out.Open?)
    && (s.out == Gone ==> !s.inc.Open?)
    && s.fired == if s.Destroyed() then 1 else 0
  }

  lemma {:induction false} FlushSound(s: State, side: Side, ok: bool)
    requires s.inc != Unset && s.EndOf(side) != Unset && s.fired == 0 && !s.Destroyed()
    requires s.aliased ==> s.out == s.inc && s.oi == IDLE
    requires s.out == Unset ==> s.oi == IDLE && s.io.outb == []
    requires s.inc == Gone ==> !s.out.Open?
    requires s.out == Gone ==> !s.inc.Open?
    requires s.To(side).received == s.To(side).delivered + s.To(side).inb
    requires s.To(side).outb == [] && s.To(side).inb != [] && !s.To(side).writing
    requires !s.aliased ==> PipeOk(s.From(side), s.EndOf(Other(side)))
    ensures Sound(Flush(s, side, ok)) && Flush(s, side, ok).fired == 0
  {
  }

  lemma {:induction false} ReceivedSound(s: State, side: Side, bytes: seq<Byte>, ok: bool)
    requires Sound(s) && Enabled(s, Data(side, bytes, ok))
    ensures Sound(Received(s, side, bytes, ok))
  {
    if bytes != [] {
      var p := s.From(side);
      var s1 := s.SetFrom(side, p.(received := p.received + bytes, inb := p.inb + bytes));
      assert p.delivered + p.outb + (p.inb + bytes) == (p.delivered + p.outb + p.inb) + bytes;
      if s.EndOf(Other(side)).Open? && s.EndOf(Other(side)).writable && p.outb == [] {
        FlushSound(s1, Other(side), ok);
      }
    }
  }

  lemma {:induction false} CompletedSound(s: State, side: Side, ok: bool)
    requires Sound(s) && Enabled(s, Sent(side, ok))
    ensures Sound(Completed(s, side, ok))
  {
    var p := s.To(side);
    var s1 := s.SetTo(side, p.(delivered := p.delivered + p.outb, outb := [], writing := false));
    if p.inb != [] { FlushSound(s1, side, ok); }
  }

  lemma {:induction false} SetOutgoingSound(s: State, alias: bool, writable: bool, ok: bool)
    requires Sound(s) && Enabled(s, OutgoingSet(alias, writable, ok))
    ensures Sound(SetOutgoing(s, alias, writable, ok))
  {
    var s1 := if alias then s.(aliased := true, out := s.inc) else s.(out := Open(writable));
    if s1.io.inb != [] && s1.io.outb == [] { FlushSound(s1, Out, ok); }
  }

  lemma {:induction false} StepSound(s: State, e: Event)
    requires Sound(s) && Enabled(s, e)
    ensures Sound(Step(s, e))
  {
    match e
    case Data(side, bytes, ok) => ReceivedSound(s, side, bytes, ok);
    case Sent(side, ok) => CompletedSound(s, side, ok);
    case OutgoingSet(alias, writable, ok) => SetOutgoingSound(s, alias, writable, ok);
    case _ =>
  }

  // ---------------------------------------------------------------- runs

  // The state after the events es, if each of them was possible when it came.
  function Run(s: State, es: seq<Event>): Option<State>
    decreases |es|
  {
    if es == [] then Some(s)
    else if Enabled(s, es[0]) then Run(Step(s, es[0]), es[1..])
    else None
  }

  lemma {:induction false} RunSound(s: State, es: seq<Event>)
    requires Sound(s) && Run(s, es).Some?
    ensures Sound(Run(s, es).value)
    decreases |es|
  {
    if es != [] {
      StepSound(s, es[0]);
      RunSound(Step(s, es[0]), es[1..]);
    }
  }

  // What was received from a side is what was delivered to the other, followed by what is
  // being written and by what has piled up; a write is outstanding only with bytes to write.
  lemma {:induction false} StreamIntegrity(writable: bool, es: seq<Event>, side: Side)
    requires Run(Initial(writable), es).Some?
    ensures var p := Run(Initial(writable), es).value.From(side);
      p.received == p.delivered + p.outb + p.inb && (p.writing ==> p.outb != [])
  {
    RunSound(Initial(writable), es);
  }

  // Until the outcome of a write comes in, neither its bytes nor the fact that it is
  // outstanding change, whatever happens on either side.
  lemma {:induction false} OutstandingUntouched(s: State, e: Event, side: Side)
    requires Sound(s) && Enabled(s, e) && s.To(side).writing
    requires (e.Sent? || e.WriteFailed?) ==> e.side != side && !s.aliased
    ensures var p := Step(s, e).To(side);
      p.writing && p.outb == s.To(side).outb && p.delivered == s.To(side).delivered
  {
  }

  // While both ends are open and writable, bytes that have piled up always wait for a write
  // that is outstanding; once no write is, everything received has been delivered.
  lemma {:induction false} NoStall(writable: bool, es: seq<Event>, side: Side)
    requires Run(Initial(writable), es).Some?
    ensures var s := Run(Initial(writable), es).value;
      var p, sink := s.From(side), s.EndOf(Other(side));
      sink.Open? && sink.writable ==>
        && (p.inb != [] ==> p.writing && p.outb != [])
        && (!p.writing ==> p.received == p.delivered)
  {
    RunSound(Initial(writable), es);
  }

  // ---------------------------------------------------------------- teardown

  // The close listener has fired exactly when both sockets are gone, and then just once; no
  // socket of the forwarder reports anything after that.
  lemma {:induction false} ClosedOnce(writable: bool, es: seq<Event>, e: Event)
    requires Run(Initial(writable), es).Some?
    ensures var s := Run(Initial(writable), es).value;
      && s.fired == (if s.Destroyed() then 1 else 0)
      && (s.Destroyed() ==> !Enabled(s, e))
  {
    RunSound(Initial(writable), es);
  }

  // Neither end outlives the other's close.
  lemma {:induction false} CloseTakesBoth(writable: bool, es: seq<Event>, side: Side)
    requires Run(Initial(writable), es).Some?
    ensures var s := Run(Initial(writable), es).value;
      s.EndOf(side) == Gone ==> s.Destroyed() || s.EndOf(Other(side)) == Closing
  {
    RunSound(Initial(writable), es);
  }

  predicate Doomed(s: State) {
    s.inc == Closing || s.inc == Gone || s.out == Closing || s.out == Gone
  }

  // What the event loop owes a socket that is closing: the outcome of its write, then the
  // end of its close.
  predicate Owed(s: State, e: Event) {
    (e.Sent? || e.WriteFailed? || e.CloseDone?) && s.EndOf(e.side) == Closing
  }

  function Weight(e: End, writing: bool): nat {
    match e
    case Unset => 4
    case Open(_) => 3
    case Closing => if writing then 2 else 1
    case Gone => 0
  }

  function Left(s: State): nat {
    if s.Destroyed() then 0
    else if s.aliased then Weight(s.inc, s.io.writing)
    else Weight(s.inc, s.oi.writing) + Weight(s.out, s.io.writing)
  }

  // Once an end starts closing, nothing that happens puts the teardown off, and everything
  // that is owed brings it closer.
  lemma {:induction false} TeardownAdvances(s: State, e: Event)
    requires Sound(s) && Enabled(s, e) && Doomed(s)
    ensures Doomed(Step(s, e)) && Left(Step(s, e)) <= Left(s)
    ensures Owed(s, e) ==> Left(Step(s, e)) < Left(s)
  {
    match e
    case Data(side, bytes, ok) => ReceivedAdvances(s, side, bytes, ok);
    case Sent(side, ok) => CompletedAdvances(s, side, ok);
    case OutgoingSet(alias, writable, ok) => JoinAdvances(s, alias, writable, ok);
    case _ =>
  }

  lemma {:induction false} ReceivedAdvances(s: State, side: Side, bytes: seq<Byte>, ok: bool)
    requires Sound(s) && Enabled(s, Data(side, bytes, ok)) && Doomed(s)
    ensures Doomed(Received(s, side, bytes, ok)) && Left(Received(s, side, bytes, ok)) <= Left(s)
  {
  }

  lemma {:induction false} CompletedAdvances(s: State, side: Side, ok: bool)
    requires Sound(s) && Enabled(s, Sent(side, ok)) && Doomed(s)
    ensures Doomed(Completed(s, side, ok)) && Left(Completed(s, side, ok)) <= Left(s)
    ensures s.EndOf(side) == Closing ==> Left(Completed(s, side, ok)) < Left(s)
  {
  }

  lemma {:induction false} JoinAdvances(s: State, alias: bool, writable: bool, ok: bool)
    requires Sound(s) && Enabled(s, OutgoingSet(alias, writable, ok)) && Doomed(s)
    ensures Doomed(SetOutgoing(s, alias, writable, ok)) && Left(SetOutgoing(s, alias, writable, ok)) <= Left(s)
  {
  }

  // As long as the teardown is not complete, something is owed.
  lemma {:induction false} TeardownOwes(s: State) returns (e: Event)
    requires Sound(s) && Doomed(s) && !s.Destroyed()
    ensures Enabled(s, e) && Owed(s, e)
  {
    var side := if s.inc == Closing then Inc else Out;
    e := if s.To(side).writing then WriteFailed(side) else CloseDone(side);
  }

  function OwedCount(s: State, es: seq<Event>): nat
    decreases |es|
  {
    if es == [] then 0
    else (if Owed(s, es[0]) then 1 else 0) + OwedCount(Step(s, es[0]), es[1..])
  }

  // So at most five reports are owed in all, whatever else happens in between, and a run that
  // is owed nothing more has taken both sockets down and told the listener, once.
  lemma {:induction false} TeardownCompletes(s: State, es: seq<Event>)
    requires Sound(s) && Doomed(s) && Run(s, es).Some?
    ensures var r := Run(s, es).value;
      && Doomed(r) && OwedCount(s, es) + Left(r) <= Left(s) <= 5
      && (Left(r) == 0 <==> r.Destroyed())
      && ((forall e :: Enabled(r, e) ==> !Owed(r, e)) <==> r.Destroyed())
      && r.fired == if r.Destroyed() then 1 else 0
    decreases |es|
  {
    if es != [] {
      TeardownAdvances(s, es[0]);
      StepSound(s, es[0]);
      TeardownCompletes(Step(s, es[0]), es[1..]);
    } else if !s.Destroyed() {
      var e := TeardownOwes(s);
    }
  }
}
