/** The retry loop on the heap: client handles with their lists of handlers, and the data
    through which the loop's handlers and its timer share the attempt under way. Every handler
    has the effect ConnectorSpec gives it. */
module Connecting {
  import opened Common
  import opened ConnectorSpec
  import opened FunctionLists

  class TcpClient {
    const id: nat
    var phase: Phase
    var closing: bool
    const onConnect: FunctionList
    const onError: FunctionList
    const onClose: FunctionList

    constructor (id: nat)
      ensures this.id == id && phase == Resolving && !closing
      ensures fresh(onConnect) && fresh(onError) && fresh(onClose)
      ensures onConnect != onError && onConnect != onClose && onError != onClose
      ensures onConnect.entries == onError.entries == onClose.entries == []
    {
      this.id, phase, closing := id, Resolving, false;
      onConnect := new FunctionList();
      onError := new FunctionList();
      onClose := new FunctionList();
    }

    // Closing twice is closing once.
    method Close()
      modifies this`closing
      ensures closing
    {
      if !closing {
        closing := true;
      }
    }
  }

  // What the loop's handlers and its timer share; the entries are how the handlers are taken
  // off the client's lists again.
  class TryConnectData {
    var client: TcpClient?
    var connectEntry: Entry?
    var errorEntry: Entry?
    var closeEntry: Entry?

    constructor ()
      ensures client == null
    {
      client, connectEntry, errorEntry, closeEntry := null, null, null, null;
    }

    // Put the loop's handlers on a client's lists.
    method Attach(c: TcpClient)
      requires c.onConnect != c.onError && c.onConnect != c.onClose && c.onError != c.onClose
      requires Distinct(c.onConnect.entries) && Distinct(c.onError.entries) && Distinct(c.onClose.entries)
      modifies this, c.onConnect, c.onError, c.onClose
      ensures client == c && connectEntry != null && errorEntry != null && closeEntry != null
      ensures c.onConnect.entries == old(c.onConnect.entries) + [connectEntry] && Distinct(c.onConnect.entries)
      ensures c.onError.entries == old(c.onError.entries) + [errorEntry] && Distinct(c.onError.entries)
      ensures c.onClose.entries == old(c.onClose.entries) + [closeEntry] && Distinct(c.onClose.entries)
    {
      connectEntry := c.onConnect.Add();
      errorEntry := c.onError.Add();
      closeEntry := c.onClose.Add();
      client := c;
    }

    // The destructor: take them off a client that is there.
    method Detach()
      requires client != null ==>
        && client.onConnect != client.onError && client.onConnect != client.onClose && client.onError != client.onClose
        && Distinct(client.onConnect.entries) && Distinct(client.onError.entries) && Distinct(client.onClose.entries)
        && connectEntry != null && connectEntry in client.onConnect.entries
        && errorEntry != null && errorEntry in client.onError.entries
        && closeEntry != null && closeEntry in client.onClose.entries
      modifies if client == null then {} else {client.onConnect, client.onError, client.onClose}
      ensures client != null ==>
        && Distinct(client.onConnect.entries) && client.onConnect.entries == Without(old(client.onConnect.entries), connectEntry)
        && Distinct(client.onError.entries) && client.onError.entries == Without(old(client.onError.entries), errorEntry)
        && Distinct(client.onClose.entries) && client.onClose.entries == Without(old(client.onClose.entries), closeEntry)
        && connectEntry !in client.onConnect.entries && errorEntry !in client.onError.entries && closeEntry !in client.onClose.entries
    {
      if client != null {
        client.onConnect.Remove(connectEntry);
        client.onError.Remove(errorEntry);
        client.onClose.Remove(closeEntry);
      }
    }
  }

  class Connector {
    const timeout: nat
    const data: TryConnectData
    var timer: Timer
    var nextId: nat
    var results: seq<Option<nat>>
    var lastTick: nat
    var attempts: nat

    // The client handle that has not been deleted.
    ghost var live: TcpClient?

    ghost function Objects(): set<object?>
      reads this, live
    {
      {this, data, live} + if live == null then {} else {live.onConnect, live.onError, live.onClose}
    }

    // The handlers of the loop are on the lists of the live client.
    ghost predicate Subscribed()
      reads Objects()
    {
      live != null && data.errorEntry != null && data.errorEntry in live.onError.entries
    }

    // They are on all lists or on none, and the data points to no client that is gone.
    ghost predicate Shape()
      reads Objects()
    {
      && (data.client != null ==> data.client == live)
      && (live != null ==>
        && live.onConnect != live.onError && live.onConnect != live.onClose && live.onError != live.onClose
        && Distinct(live.onConnect.entries) && Distinct(live.onError.entries) && Distinct(live.onClose.entries)
        && (Subscribed() <==> data.connectEntry != null && data.connectEntry in live.onConnect.entries)
        && (Subscribed() <==> data.closeEntry != null && data.closeEntry in live.onClose.entries))
    }

    ghost function St(): State
      reads Objects()
    {
      State(timer,
            if data.client == null then None else Some(data.client.id),
            if live == null then map[] else map[live.id := Handle(live.phase, live.closing, Subscribed())],
            nextId, results, lastTick, attempts)
    }

    ghost predicate Valid()
      reads Objects()
    {
      Shape() && Sound(St(), timeout)
    }

    constructor (timeout: nat)
      ensures this.timeout == timeout && fresh(data) && live == null && Valid() && St() == Initial()
    {
      this.timeout := timeout;
      data := new TryConnectData();
      timer, nextId, results, lastTick, attempts, live := Ticking, 0, [], 0, 0, null;
    }

    // ---------------------------------------------------------------- the loop's handlers

    // Call all functions on the error list of the client; the one of the loop closes the
    // client its data points to.
    method InvokeError(client: TcpClient)
      requires Shape() && live == client && (Subscribed() ==> data.client != null)
      modifies client`closing
      ensures Shape() && St() == Fail(old(St()), client.id)
    {
      var k := 0;
      while k < |client.onError.entries|
        invariant k <= |client.onError.entries| && Shape()
        invariant client.closing == (old(client.closing) || (data.errorEntry != null && data.errorEntry in client.onError.entries[..k]))
        modifies live`closing
      {
        assert client.onError.entries[..k + 1] == client.onError.entries[..k] + [client.onError.entries[k]];
        if client.onError.entries[k] == data.errorEntry {
          data.client.Close();
        }
        k := k + 1;
      }
      assert client.onError.entries[..k] == client.onError.entries;
    }

    // Call all functions on the connect list; the one of the loop stops the timer and hands
    // the client on.
    method InvokeConnect(client: TcpClient)
      requires Shape() && live == client && (Subscribed() ==> data.client != null)
      modifies this`timer, this`results
      ensures Shape()
      ensures St() == old(St()).(timer := if Subscribed() then Stopping else old(timer),
                                 results := old(results) + if Subscribed() then [Some(client.id)] else [])
    {
      var k := 0;
      while k < |client.onConnect.entries|
        invariant k <= |client.onConnect.entries| && Shape()
        invariant var called := data.connectEntry != null && data.connectEntry in client.onConnect.entries[..k];
          timer == (if called then Stopping else old(timer)) && results == old(results) + if called then [Some(client.id)] else []
        modifies this`timer, this`results
      {
        assert client.onConnect.entries[..k + 1] == client.onConnect.entries[..k] + [client.onConnect.entries[k]];
        if client.onConnect.entries[k] == data.connectEntry {
          timer := Stopping;
          results := results + [Some(data.client.id)];
        }
        k := k + 1;
      }
      assert client.onConnect.entries[..k] == client.onConnect.entries;
    }

    // Call all functions on the close list; the one of the loop forgets the client.
    method InvokeClose(client: TcpClient)
      requires Shape() && live == client && (Subscribed() <==> data.client != null)
      modifies data`client
      ensures Shape() && data.client == null
    {
      var k := 0;
      while k < |client.onClose.entries|
        invariant k <= |client.onClose.entries| && Shape()
        invariant (data.client == null <==>
          old(data.client) == null || (data.closeEntry != null && data.closeEntry in client.onClose.entries[..k]))
        modifies data`client
      {
        assert client.onClose.entries[..k + 1] == client.onClose.entries[..k] + [client.onClose.entries[k]];
        if client.onClose.entries[k] == data.closeEntry {
          data.client := null;
        }
        k := k + 1;
      }
      assert client.onClose.entries[..k] == client.onClose.entries;
    }

    method Connect()
      requires Shape() && live == null && data.client == null
      modifies this, data
      ensures Shape() && fresh(live) && fresh(Objects() - old(Objects())) && St() == Attempt(old(St()))
    {
      var client := new TcpClient(nextId);
      nextId := nextId + 1;
      attempts := attempts + 1;
      data.Attach(client);
      live := client;
    }

    // ---------------------------------------------------------------- events

    method OnTick(elapsed: nat)
      requires Valid() && Enabled(St(), Tick(elapsed))
      modifies Objects()
      ensures Valid() && fresh(Objects() - old(Objects())) && St() == Step(old(St()), timeout, Tick(elapsed))
    {
      assert Sound(Step(St(), timeout, Tick(elapsed)), timeout) by { StepSound(St(), timeout, Tick(elapsed)); }
      Attached();
      HandleTick(elapsed);
    }

    method HandleTick(elapsed: nat)
      requires Shape() && (data.client == null ==> live == null)
      modifies Objects()
      ensures Shape() && fresh(Objects() - old(Objects())) && St() == Ticked(old(St()), timeout, elapsed)
    {
      lastTick := elapsed;
      if elapsed >= timeout {
        if data.client != null {
          data.client.Close();
        }
        timer := Stopping;
        results := results + [None];
      } else {
        if data.client == null {
          Connect();
        }
      }
    }

    method OnAddrInfo(client: TcpClient, ok: bool)
      requires Valid() && live == client && Enabled(St(), Resolved(client.id, ok))
      modifies Objects()
      ensures Valid() && live == old(live) && St() == Step(old(St()), timeout, Resolved(client.id, ok))
    {
      assert Sound(Step(St(), timeout, Resolved(client.id, ok)), timeout) by { StepSound(St(), timeout, Resolved(client.id, ok)); }
      Attached();
      client.phase := if ok then Phase.Connecting else Phase.Failed;
      if !ok {
        InvokeError(client);
      }
    }

    method OnConnect(client: TcpClient, ok: bool, readable: bool)
      requires Valid() && live == client && Enabled(St(), ConnectDone(client.id, ok, readable))
      modifies Objects()
      ensures Valid() && live == old(live) && St() == Step(old(St()), timeout, ConnectDone(client.id, ok, readable))
    {
      assert Sound(Step(St(), timeout, ConnectDone(client.id, ok, readable)), timeout) by {
        StepSound(St(), timeout, ConnectDone(client.id, ok, readable));
      }
      Attached();
      if ok {
        HandleConnect(client, readable);
      } else {
        client.phase := Phase.Failed;
        InvokeError(client);
      }
    }

    method HandleConnect(client: TcpClient, readable: bool)
      requires Shape() && live == client && (Subscribed() <==> data.client != null)
      modifies this`timer, this`results, client`phase, client`closing
      ensures Shape() && live == old(live) && St() == Connects(old(St()), client.id, readable)
    {
      client.phase := Phase.Connected;
      InvokeConnect(client);
      if !readable {
        InvokeError(client);
      }
    }

    // A read or a write on the connected socket has failed.
    method OnBroken(client: TcpClient)
      requires Valid() && live == client && Enabled(St(), Broken(client.id))
      modifies Objects()
      ensures Valid() && live == old(live) && St() == Step(old(St()), timeout, Broken(client.id))
    {
      assert Sound(Step(St(), timeout, Broken(client.id)), timeout) by { StepSound(St(), timeout, Broken(client.id)); }
      Attached();
      InvokeError(client);
    }

    method OnCloseCalled(client: TcpClient)
      requires Valid() && live == client
      modifies Objects()
      ensures Valid() && live == old(live) && St() == Step(old(St()), timeout, CloseCalled(client.id))
    {
      assert Sound(Step(St(), timeout, CloseCalled(client.id)), timeout) by { StepSound(St(), timeout, CloseCalled(client.id)); }
      client.Close();
    }

    // The close of the client has finished: its functions are called, and it is deleted.
    method OnClose(client: TcpClient)
      requires Valid() && live == client && Enabled(St(), CloseDone(client.id))
      modifies Objects()
      ensures Valid() && live == null && St() == Step(old(St()), timeout, CloseDone(client.id))
    {
      assert Sound(Step(St(), timeout, CloseDone(client.id)), timeout) by { StepSound(St(), timeout, CloseDone(client.id)); }
      Attached();
      InvokeClose(client);
      live := null;
    }

    // The close of the timer has finished: its data goes, and takes its handlers off a client
    // that is there.
    method OnTimerClose()
      requires Valid() && Enabled(St(), TimerGone)
      modifies Objects()
      ensures Valid() && live == old(live) && St() == Step(old(St()), timeout, TimerGone)
    {
      assert Sound(Step(St(), timeout, TimerGone), timeout) by { StepSound(St(), timeout, TimerGone); }
      Attached();
      FreeData();
      timer := Freed;
    }

    method FreeData()
      requires Shape() && (live != null ==> (Subscribed() <==> data.client != null))
      modifies Objects() - {this, live}
      ensures Shape() && data.client == null && (live != null ==> !Subscribed())
    {
      data.Detach();
      data.client := null;
    }

    // The data points to the client as long as the handlers are on its lists.
    lemma {:induction false} Attached()
      requires Valid()
      ensures live != null ==> (Subscribed() <==> data.client != null) && (timer == Ticking ==> Subscribed())
    {
      if live != null {
        var s := St();
        assert live.id in s.handles && s.handles[live.id].subscribed == Subscribed();
      }
    }
  }
}
