/** The forwarder on the heap: sockets, clients with two buffers each, and handlers that swap
    buffer pointers. Every handler has the effect ForwarderSpec gives it. */
module Forwarding {
  import opened Common
  import opened ForwarderSpec
  import opened ForwarderRuns

  class Buffer {
    var bytes: seq<Byte>

    constructor ()
      ensures bytes == []
    {
      bytes := [];
    }
  }

  // A socket. `pending` is the buffer handed to an outstanding write and `given` what it held
  // when it was handed over; the bytes are not copied.
  class Socket {
    var writable: bool
    var closing: bool
    var pending: Buffer?
    ghost var given: seq<Byte>

    constructor (writable: bool)
      ensures this.writable == writable && !closing && pending == null
    {
      this.writable, closing, pending, given := writable, false, null, [];
    }

    ghost function AsEnd(): End
      reads this
    {
      if closing then Closing else Open(writable)
    }

    method Write(buffer: Buffer, ok: bool) returns (accepted: bool)
      requires pending == null
      modifies this`pending, this`given
      ensures accepted == (ok && !closing)
      ensures pending == if accepted then buffer else null
      ensures accepted ==> given == buffer.bytes
    {
      accepted := ok && !closing;
      if accepted {
        pending, given := buffer, buffer.bytes;
      }
    }

    // Closing twice is closing once.
    method Close()
      modifies this`closing
      ensures closing
    {
      if !closing {
        closing := true;
      }
    }
  }

  class Client {
    var tcp: Socket?
    var dataIn: Buffer
    var dataOut: Buffer

    constructor (tcp: Socket?)
      ensures this.tcp == tcp
      ensures fresh(dataIn) && fresh(dataOut) && dataIn != dataOut && dataIn.bytes == dataOut.bytes == []
    {
      this.tcp := tcp;
      dataIn := new Buffer();
      dataOut := new Buffer();
    }
  }

  class TcpForwarder {
    const incoming: Client
    const outgoing: Client
    var fired: nat
    ghost var connected: bool
    ghost var aliased: bool
    ghost var receivedIo: seq<Byte>
    ghost var deliveredIo: seq<Byte>
    ghost var receivedOi: seq<Byte>
    ghost var deliveredOi: seq<Byte>

    ghost function Objects(): set<object?>
      reads this, incoming, outgoing
    {
      {this, incoming, outgoing, incoming.dataIn, incoming.dataOut, outgoing.dataIn, outgoing.dataOut,
       incoming.tcp, outgoing.tcp}
    }

    // How the clients, their sockets and their buffers hang together.
    ghost predicate Shape()
      reads this, incoming, outgoing
    {
      && incoming != outgoing
      && incoming.dataIn != incoming.dataOut
      && (aliased ==>
        && connected && outgoing.tcp == incoming.tcp
        && outgoing.dataIn == incoming.dataIn && outgoing.dataOut == incoming.dataOut)
      && (!aliased ==>
        && outgoing.dataIn != outgoing.dataOut
        && {outgoing.dataIn, outgoing.dataOut} !! {incoming.dataIn, incoming.dataOut}
        && (outgoing.tcp != null ==> outgoing.tcp != incoming.tcp))
      && (!connected ==> outgoing.tcp == null)
    }

    // The buffer of an outstanding write is the one its pipe writes from, and is as it was
    // when the write began.
    ghost predicate Intact()
      reads Objects()
    {
      && (outgoing.tcp != null && outgoing.tcp.pending != null ==>
        outgoing.tcp.pending == incoming.dataOut && outgoing.tcp.given == incoming.dataOut.bytes)
      && (!aliased && incoming.tcp != null && incoming.tcp.pending != null ==>
        incoming.tcp.pending == outgoing.dataOut && incoming.tcp.given == outgoing.dataOut.bytes)
    }

    ghost predicate Valid()
      reads Objects()
    {
      Shape() && Intact() && Sound(St())
    }

    ghost function St(): State
      reads Objects()
    {
      State(
        if incoming.tcp == null then Gone else incoming.tcp.AsEnd(),
        if !connected then Unset else if outgoing.tcp == null then Gone else outgoing.tcp.AsEnd(),
        aliased,
        Pipe(receivedIo, deliveredIo, incoming.dataOut.bytes, incoming.dataIn.bytes,
             outgoing.tcp != null && outgoing.tcp.pending != null),
        if aliased then IDLE else
        Pipe(receivedOi, deliveredOi, outgoing.dataOut.bytes, outgoing.dataIn.bytes,
             incoming.tcp != null && incoming.tcp.pending != null),
        fired)
    }

    ghost function SideOf(client: Client): Side {
      if client == incoming then Inc else Out
    }

    function Peer(client: Client): Client {
      if client == incoming then outgoing else incoming
    }

    constructor (tcp: Socket)
      requires !tcp.closing && tcp.pending == null
      ensures Valid() && St() == Initial(tcp.writable) && incoming.tcp == tcp
    {
      incoming := new Client(tcp);
      outgoing := new Client(null);
      fired, connected, aliased := 0, false, false;
      receivedIo, deliveredIo, receivedOi, deliveredOi := [], [], [], [];
    }

    method Swap(client: Client)
      requires Shape() && (client == incoming || client == outgoing)
      requires incoming.tcp != null || outgoing.tcp != null
      modifies incoming`dataIn, incoming`dataOut, outgoing`dataIn, outgoing`dataOut
      ensures Shape()
      ensures aliased || client == incoming ==>
        incoming.dataIn == old(incoming.dataOut) && incoming.dataOut == old(incoming.dataIn)
      ensures !aliased && client == incoming ==>
        outgoing.dataIn == old(outgoing.dataIn) && outgoing.dataOut == old(outgoing.dataOut)
      ensures !aliased && client == outgoing ==>
        && outgoing.dataIn == old(outgoing.dataOut) && outgoing.dataOut == old(outgoing.dataIn)
        && incoming.dataIn == old(incoming.dataIn) && incoming.dataOut == old(incoming.dataOut)
    {
      client.dataIn, client.dataOut := client.dataOut, client.dataIn;
      if incoming.tcp == outgoing.tcp {
        var peer := Peer(client);
        peer.dataIn, peer.dataOut := peer.dataOut, peer.dataIn;
      }
    }

    // The error handler registered by `client`.
    method OnError(client: Client)
      requires Shape() && Intact() && (client == incoming || client == outgoing) && client.tcp != null
      modifies incoming.tcp, outgoing.tcp
      ensures Shape() && Intact() && St() == Fail(old(St()), SideOf(client))
    {
      client.tcp.Close();
      var peer := Peer(client);
      if peer.tcp != null && !peer.tcp.closing {
        peer.tcp.Close();
      }
    }

    // Swap the buffers of the pipe that ends at `sink` and hand what has piled up to its
    // socket. A write that is refused is reported to the handlers of that socket.
    method Flush(sink: Client, ok: bool)
      requires Shape() && Intact() && (sink == incoming || sink == outgoing)
      requires sink.tcp != null && sink.tcp.pending == null
      modifies incoming, outgoing, incoming.tcp, outgoing.tcp
      ensures Shape() && Intact() && incoming.tcp == old(incoming.tcp) && outgoing.tcp == old(outgoing.tcp)
      ensures St() == ForwarderSpec.Flush(old(St()), SideOf(sink), ok)
    {
      var source := Peer(sink);
      Swap(source);
      var accepted := sink.tcp.Write(source.dataOut, ok);
      if !accepted {
        OnError(if sink.tcp == incoming.tcp then incoming else outgoing);
      }
    }

    // ---------------------------------------------------------------- the handlers

    // A handler runs for a client whose socket is there; when both sides are one socket, the
    // handlers are those of the incoming client.
    ghost predicate Handler(client: Client)
      reads this, incoming, outgoing
    {
      && (client == incoming || client == outgoing)
      && client.tcp != null
      && (aliased ==> client == incoming)
      && (client == outgoing ==> connected)
    }

    method OnData(client: Client, s: seq<Byte>, ok: bool)
      requires Valid() && Handler(client) && !client.tcp.closing
      modifies Objects()
      ensures Valid() && St() == Step(old(St()), Data(SideOf(client), s, ok))
      ensures incoming.tcp == old(incoming.tcp) && outgoing.tcp == old(outgoing.tcp)
    {
      ghost var s0, side := St(), SideOf(client);
      assert Sound(Step(s0, Data(side, s, ok))) by { StepSound(s0, Data(side, s, ok)); }
      if |s| > 0 {
        client.dataIn.bytes := client.dataIn.bytes + s;
        if aliased || client == incoming { receivedIo := receivedIo + s; } else { receivedOi := receivedOi + s; }
        ghost var p := s0.From(side);
        assert St() == s0.SetFrom(side, p.(received := p.received + s, inb := p.inb + s));
        assert Shape() && Intact();
        var peer := Peer(client);
        if peer.tcp != null && peer.tcp.writable && !peer.tcp.closing && |client.dataOut.bytes| == 0 {
          Flush(peer, ok);
        }
      }
    }

    // The write outstanding on the socket of `client` completes: what its buffer holds has
    // been delivered.
    method OnSend(client: Client, ok: bool)
      requires Valid() && Handler(client) && client.tcp.pending != null
      modifies Objects()
      ensures Valid() && St() == Step(old(St()), Sent(SideOf(client), ok))
      ensures incoming.tcp == old(incoming.tcp) && outgoing.tcp == old(outgoing.tcp)
    {
      ghost var s0, side := St(), SideOf(client);
      ghost var p := s0.To(side);
      StepSound(s0, Sent(side, ok));
      assert client.tcp.pending.bytes == client.tcp.given == p.outb;
      if aliased || client == outgoing {
        deliveredIo := deliveredIo + client.tcp.pending.bytes;
      } else {
        deliveredOi := deliveredOi + client.tcp.pending.bytes;
      }
      client.tcp.pending := null;
      var peer := Peer(client);
      peer.dataOut.bytes := [];
      assert St() == s0.SetTo(side, p.(delivered := p.delivered + p.outb, outb := [], writing := false));
      assert Shape() && Intact();
      if |peer.dataIn.bytes| > 0 {
        Flush(client, ok);
      }
    }

    // The write outstanding on the socket of `client` fails or is cancelled.
    method OnWriteFailed(client: Client)
      requires Valid() && Handler(client) && client.tcp.pending != null
      modifies Objects()
      ensures Valid() && St() == Step(old(St()), WriteFailed(SideOf(client)))
      ensures incoming.tcp == old(incoming.tcp) && outgoing.tcp == old(outgoing.tcp)
    {
      StepSound(St(), WriteFailed(SideOf(client)));
      client.tcp.pending := null;
      OnError(client);
    }

    method OnReadFailed(client: Client)
      requires Valid() && Handler(client) && !client.tcp.closing
      modifies Objects()
      ensures Valid() && St() == Step(old(St()), ReadFailed(SideOf(client)))
      ensures incoming.tcp == old(incoming.tcp) && outgoing.tcp == old(outgoing.tcp)
    {
      StepSound(St(), ReadFailed(SideOf(client)));
      OnError(client);
    }

    // Anyone may close a socket: the end of its stream, the proxy, a caller.
    method CloseSocket(client: Client)
      requires Valid() && Handler(client)
      modifies client.tcp
      ensures Valid() && St() == Step(old(St()), CloseCalled(SideOf(client)))
    {
      StepSound(St(), CloseCalled(SideOf(client)));
      client.tcp.Close();
    }

    // The close of the socket of `client` has finished.
    method OnClose(client: Client)
      requires Valid() && Handler(client) && client.tcp.closing && client.tcp.pending == null
      modifies Objects()
      ensures Valid() && St() == Step(old(St()), CloseDone(SideOf(client)))
      ensures client.tcp == null && (old(aliased) ==> Peer(client).tcp == null)
      ensures !old(aliased) ==> Peer(client).tcp == old(Peer(client).tcp)
    {
      StepSound(St(), CloseDone(SideOf(client)));
      var peer := Peer(client);
      if peer.tcp == client.tcp {
        peer.tcp := null;
      }
      client.tcp := null;
      if peer.tcp == null {
        fired := fired + 1;
      } else if !peer.tcp.closing {
        peer.tcp.Close();
      }
    }

    // The socket of the upstream has connected; it may be the incoming socket itself.
    method SetOutgoing(tcp: Socket, ok: bool)
      requires Valid() && !connected && incoming.tcp != null
      requires tcp != incoming.tcp ==> !tcp.closing && tcp.pending == null
      modifies Objects(), tcp
      ensures Valid() && outgoing.tcp == tcp && incoming.tcp == old(incoming.tcp)
      ensures St() == Step(old(St()), OutgoingSet(tcp == incoming.tcp, old(tcp.writable), ok))
    {
      StepSound(St(), OutgoingSet(tcp == incoming.tcp, tcp.writable, ok));
      connected := true;
      outgoing.tcp := tcp;
      if outgoing.tcp == incoming.tcp {
        aliased := true;
        outgoing.dataIn := incoming.dataIn;
        outgoing.dataOut := incoming.dataOut;
      }
      if |incoming.dataIn.bytes| > 0 && |incoming.dataOut.bytes| == 0 {
        Flush(outgoing, ok);
      }
    }
  }
}
