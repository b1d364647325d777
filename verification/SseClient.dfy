/**
 The server-sent-events clients of the live visualizer, the backpressure on each, and the hub that
 publishes to all of them.

 The methods of a client are the pieces of code that run without interruption: a call to `enqueue` or
 `close`, a write callback, and the pump going on once its wait for a drained socket is settled. Any order
 of them is possible; each keeps `Valid()` and states what it does to the frames. `outstanding` holds the frames
 handed to the socket whose callback has not run, `written` all frames handed to it, and `taken` all
 frames that were not refused.
 */
module SseClient {
  import opened Bytes

  // ----- Frames -----

  datatype Frame = Frame(eventId: nat, revision: nat)

  /** All characters are ASCII, so the text has as many bytes as characters. */
  function Text(f: Frame): (s: string)
    ensures |s| > 0
  {
    "id: " + Decimal(f.eventId) + "\nevent: revision\ndata: " + Decimal(f.revision) + "\n\n"
  }

  function Size(f: Frame): nat { |Text(f)| }

  function Sum(fs: seq<Frame>): nat {
    if fs == [] then 0 else Size(fs[0]) + Sum(fs[1..])
  }

  lemma {:induction false} SumJoins(fs: seq<Frame>, gs: seq<Frame>)
    ensures Sum(fs + gs) == Sum(fs) + Sum(gs)
  {
    hide Size;
    if fs == [] {
      assert fs + gs == gs;
    } else {
      assert (fs + gs)[1..] == fs[1..] + gs;
      SumJoins(fs[1..], gs);
    }
  }

  lemma SumOne(f: Frame)
    ensures Sum([f]) == Size(f)
  {
    assert [f][1..] == [];
  }

  function Without(fs: seq<Frame>, i: nat): seq<Frame>
    requires i < |fs|
  {
    fs[..i] + fs[i + 1..]
  }

  lemma SumWithout(fs: seq<Frame>, i: nat)
    requires i < |fs|
    ensures Sum(Without(fs, i)) == Sum(fs) - Size(fs[i])
  {
    hide Sum, Size;
    assert fs == fs[..i] + ([fs[i]] + fs[i + 1..]);
    SumJoins(fs[..i], [fs[i]] + fs[i + 1..]);
    SumJoins([fs[i]], fs[i + 1..]);
    SumJoins(fs[..i], fs[i + 1..]);
    SumOne(fs[i]);
  }

  function Max(a: int, b: int): int { if a < b then b else a }

  // ----- The client -----

  class Client {
    const maxRevisions: nat
    const maxBytes: nat
    var closed: bool
    var inFlightBytes: int
    var inFlightRevisions: int
    var pendingBytes: int
    var pumping: bool
    var queue: seq<Frame>
    var awaitingDrain: bool       // the pump is suspended at its wait for a drained socket
    ghost var outstanding: seq<Frame>
    ghost var written: seq<Frame>
    ghost var taken: seq<Frame>

    /** The counters are the true sums and within both limits; frames leave in the order they came. */
    ghost predicate CountsOk()
      reads this
    {
      && pendingBytes == Sum(queue) && inFlightBytes == Sum(outstanding) && inFlightRevisions == |outstanding|
      && |queue| + |outstanding| <= maxRevisions && Sum(queue) + Sum(outstanding) <= maxBytes
      && taken == written + queue
    }

    ghost predicate ClosedOk()
      reads this
    {
      && queue == [] && pendingBytes == 0 && inFlightBytes == 0 && inFlightRevisions == 0 && written <= taken
    }

    /** Between two pieces of code a pump runs exactly when it waits; an open client with frames has one. */
    ghost predicate Valid()
      reads this
    {
      && (if closed then ClosedOk() else CountsOk())
      && pumping == awaitingDrain && (queue != [] ==> pumping)
    }

    constructor (maxRevisions: nat, maxBytes: nat)
      ensures Valid() && !closed && taken == [] && this.maxRevisions == maxRevisions && this.maxBytes == maxBytes
    {
      this.maxRevisions, this.maxBytes := maxRevisions, maxBytes;
      closed, inFlightBytes, inFlightRevisions, pendingBytes := false, 0, 0, 0;
      pumping, queue, awaitingDrain := false, [], false;
      outstanding, written, taken := [], [], [];
    }

    method Close()
      requires written <= taken && (closed ==> ClosedOk())
      modifies this
      ensures closed && ClosedOk()
      ensures pumping == old(pumping) && awaitingDrain == old(awaitingDrain)
      ensures written == old(written) && taken == old(taken) && outstanding == old(outstanding)
      ensures old(closed) ==> unchanged(this)
    {
      if closed {
        return;
      }
      closed := true;
      queue := [];
      pendingBytes, inFlightBytes, inFlightRevisions := 0, 0, 0;
    }

    /** The socket says whether it wants more, or throws. */
    method Write() returns (accepted: bool, thrown: bool)
    {
      accepted, thrown := *, *;
    }

    /** Moves the first frame from the queue to the socket's account. */
    method Shift() returns (frame: Frame)
      requires !closed && CountsOk() && queue != []
      modifies this`queue, this`pendingBytes, this`inFlightBytes, this`inFlightRevisions, this`outstanding, this`written
      ensures frame == old(queue)[0] && queue == old(queue)[1..] && written == old(written) + [frame]
      ensures outstanding == old(outstanding) + [frame] && CountsOk()
    {
      hide Size;
      frame := queue[0];
      SumOne(frame);
      SumJoins([frame], queue[1..]);
      SumJoins(outstanding, [frame]);
      assert queue == [frame] + queue[1..];
      queue := queue[1..];
      pendingBytes := pendingBytes - Size(frame);
      inFlightBytes := inFlightBytes + Size(frame);
      inFlightRevisions := inFlightRevisions + 1;
      outstanding, written := outstanding + [frame], written + [frame];
    }

    /** Runs until the queue is empty, the client closes, or the socket asks to wait. */
    method Pump()
      requires pumping && !awaitingDrain && (if closed then ClosedOk() else CountsOk())
      modifies this
      ensures Valid() && taken == old(taken) && old(written) <= written
      ensures old(closed) ==> closed && written == old(written) && !pumping
      ensures !closed && !pumping ==> queue == [] && written == taken
      ensures !old(closed) && old(queue) != [] ==> old(written) < written
    {
      hide Sum;
      while !closed
        invariant pumping && !awaitingDrain && (if closed then ClosedOk() else CountsOk())
        invariant taken == old(taken) && old(written) <= written
        invariant old(closed) ==> closed && written == old(written)
        invariant !old(closed) && old(queue) != [] ==> old(written) < written || queue == old(queue)
        invariant written == old(written) ==> closed == old(closed)
        decreases !closed, |queue|
      {
        if queue == [] {
          break;
        }
        var frame := Shift();
        var accepted, thrown := Write();
        if thrown {
          Close();
        } else if !accepted {
          awaitingDrain := true;
          return;
        }
      }
      pumping := false;
      // the pump never ends with frames left, so it is never started again from here
      assert closed || queue == [];
    }

    method Enqueue(eventId: nat, revision: nat)
      requires Valid()
      modifies this
      ensures Valid() && old(written) <= written
      ensures old(closed) ==> unchanged(this)
      ensures !old(closed) ==>
        var f := Frame(eventId, revision);
        if |old(queue)| + |old(outstanding)| < maxRevisions
           && Sum(old(queue)) + Sum(old(outstanding)) + Size(f) <= maxBytes
        then
          && taken == old(taken) + [f]
          && (if old(pumping) then written == old(written) else old(written) < written)
        else closed && taken == old(taken) && written == old(written)
    {
      hide Size;
      if closed {
        return;
      }
      var frame := Frame(eventId, revision);
      if |queue| + inFlightRevisions >= maxRevisions || pendingBytes + inFlightBytes + Size(frame) > maxBytes {
        Close();
        return;
      }
      SumOne(frame);
      SumJoins(queue, [frame]);
      queue := queue + [frame];
      pendingBytes := pendingBytes + Size(frame);
      taken := taken + [frame];
      if !pumping {
        pumping := true;
        Pump();
      }
    }

    /** The callback of one frame the socket was given. The clamps at zero never act. */
    method Written(frame: Frame, ghost i: nat, failed: bool)
      requires Valid() && i < |outstanding| && outstanding[i] == frame
      modifies this
      ensures Valid() && written == old(written) && taken == old(taken)
      ensures outstanding == Without(old(outstanding), i)
      ensures !old(closed) && !failed ==>
        && !closed && queue == old(queue)
        && inFlightBytes == old(inFlightBytes) - Size(frame) && inFlightRevisions == old(inFlightRevisions) - 1
      ensures failed ==> closed
    {
      hide Size;
      ghost var before := outstanding;
      outstanding := Without(outstanding, i);
      if closed {
        return;
      }
      SumWithout(before, i);
      inFlightBytes := Max(0, inFlightBytes - Size(frame));
      inFlightRevisions := Max(0, inFlightRevisions - 1);
      if failed {
        Close();
      }
    }

    /** The pump's wait ends: the socket drained, or it closed or ran out of time. */
    method DrainSettled(drained: bool)
      requires Valid() && awaitingDrain
      modifies this
      ensures Valid() && taken == old(taken) && old(written) <= written
      ensures !drained || old(closed) ==> closed && written == old(written) && !pumping
    {
      awaitingDrain := false;
      if !drained {
        Close();
        pumping := false;
        return;
      }
      Pump();
    }
  }

  // ----- The hub -----

  const MAX_SAFE_INTEGER: nat := 9_007_199_254_740_991

  /** Event ids never fall, and rise from frame to frame up to the counter's last value. */
  ghost predicate Rising(fs: seq<Frame>, next: nat) {
    && (forall i :: 0 <= i < |fs| ==> fs[i].eventId < next || fs[i].eventId == next == MAX_SAFE_INTEGER)
    && (forall i, j :: 0 <= i < j < |fs| ==>
          fs[i].eventId < fs[j].eventId || fs[i].eventId == fs[j].eventId == MAX_SAFE_INTEGER)
  }

  function After(next: nat): nat { if next < MAX_SAFE_INTEGER then next + 1 else next }

  lemma RisesOn(fs: seq<Frame>, next: nat, revision: nat)
    requires Rising(fs, next) && next <= MAX_SAFE_INTEGER
    ensures Rising(fs, After(next)) && Rising(fs + [Frame(next, revision)], After(next))
  {
  }

  lemma SentOn(greeting: Frame, sent: seq<Frame>, joined: nat, f: Frame)
    requires joined <= |sent|
    ensures [greeting] + sent[joined..] + [f] == [greeting] + (sent + [f])[joined..]
  {
  }

  /**
   The connected clients. `published` holds every frame sent to all of them; `joined` and `greeting` say
   how much had been published when a client came, and which frame it got first.
   */
  class RevisionHub {
    const maxRevisions: nat
    const maxBytes: nat
    var clients: set<Client>
    var closed: bool
    var nextEventId: nat
    ghost var published: seq<Frame>
    ghost var joined: map<Client, nat>
    ghost var greeting: map<Client, Frame>

    /** An open client has taken its greeting and then every frame published since, none twice. */
    ghost predicate UpToDate(c: Client, sent: seq<Frame>, next: nat)
      reads this`joined, this`greeting, c
    {
      && c.Valid() && !c.closed && c in joined && c in greeting && joined[c] <= |sent|
      && c.taken == [greeting[c]] + sent[joined[c]..] && Rising(c.taken, next)
    }

    ghost predicate Valid()
      reads this, clients
    {
      && nextEventId <= MAX_SAFE_INTEGER && (closed ==> clients == {})
      && forall c :: c in clients ==> UpToDate(c, published, nextEventId)
    }

    constructor (maxRevisions: nat, maxBytes: nat)
      ensures Valid() && clients == {} && !closed
    {
      this.maxRevisions, this.maxBytes := maxRevisions, maxBytes;
      clients, closed, nextEventId := {}, false, 1;
      published, joined, greeting := [], map[], map[];
    }

    method TakeEventId() returns (id: nat)
      requires nextEventId <= MAX_SAFE_INTEGER
      modifies this`nextEventId
      ensures id == old(nextEventId) && nextEventId == After(id) <= MAX_SAFE_INTEGER
    {
      id := nextEventId;
      if nextEventId < MAX_SAFE_INTEGER {
        nextEventId := nextEventId + 1;
      }
    }

    /** Greets a new client with the current revision; nobody else hears of it. */
    method Add(revision: nat)
      requires Valid()
      modifies this
      ensures Valid() && published == old(published)
      ensures forall c :: c in clients && c !in old(clients) ==>
        fresh(c) && c.taken == [Frame(old(nextEventId), revision)]
    {
      hide Sum, Size, Rising;
      if closed {
        return;
      }
      var id := TakeEventId();
      forall c | c in clients ensures UpToDate(c, published, nextEventId) {
        RisesOn(c.taken, id, revision);
      }
      var client := Greet(id, revision);
      if !client.closed {
        clients := clients + {client};
      }
    }

    method Greet(id: nat, revision: nat) returns (client: Client)
      requires id <= MAX_SAFE_INTEGER
      modifies this`joined, this`greeting
      ensures fresh(client) && joined == old(joined)[client := |published|]
      ensures greeting == old(greeting)[client := Frame(id, revision)]
      ensures client.closed || (client.taken == [Frame(id, revision)] && UpToDate(client, published, After(id)))
    {
      hide Sum, Size;
      client := new Client(maxRevisions, maxBytes);
      joined, greeting := joined[client := |published|], greeting[client := Frame(id, revision)];
      client.Enqueue(id, revision);
      RisesOn([], id, revision);
      assert [] + [Frame(id, revision)] == [Frame(id, revision)];
    }

    /** One client takes the frame or is closed. */
    method Send(client: Client, id: nat, revision: nat, ghost sent: seq<Frame>)
      requires UpToDate(client, sent, id) && id <= MAX_SAFE_INTEGER
      modifies client
      ensures client.closed ||
        (client.taken == old(client.taken) + [Frame(id, revision)]
         && UpToDate(client, sent + [Frame(id, revision)], After(id)))
    {
      hide Sum, Size;
      RisesOn(client.taken, id, revision);
      SentOn(greeting[client], sent, joined[client], Frame(id, revision));
      client.Enqueue(id, revision);
    }

    /** A client's own code runs; if it closes itself, its callback takes it off the hub. */
    method ClientWritten(client: Client, frame: Frame, ghost i: nat, failed: bool)
      requires Valid() && client in clients && i < |client.outstanding| && client.outstanding[i] == frame
      modifies this`clients, client
      ensures Valid() && clients <= old(clients) && clients >= old(clients) - {client}
    {
      hide Sum, Size, Rising;
      client.Written(frame, i, failed);
      if client.closed {
        clients := clients - {client};
      }
    }

    method ClientDrained(client: Client, drained: bool)
      requires Valid() && client in clients && client.awaitingDrain
      modifies this`clients, client
      ensures Valid() && clients <= old(clients) && clients >= old(clients) - {client}
    {
      hide Sum, Size, Rising;
      client.DrainSettled(drained);
      if client.closed {
        clients := clients - {client};
      }
    }

    method ClientGone(client: Client)
      requires Valid() && client in clients
      modifies this`clients, client
      ensures Valid() && clients == old(clients) - {client} && client.closed
    {
      hide Sum, Size, Rising;
      client.Close();
      clients := clients - {client};
    }

    method Drop(client: Client)
      requires UpToDate(client, published, nextEventId)
      modifies client
      ensures client.closed
    {
      hide Sum, Size, Rising;
      client.Close();
    }

    /** Every client that stays connected takes the frame; a client that cannot is dropped. */
    method Publish(revision: nat)
      requires Valid()
      modifies this, clients
      ensures Valid() && clients <= old(clients)
      ensures !old(closed) ==> published == old(published) + [Frame(old(nextEventId), revision)]
      ensures !old(closed) ==>
        forall c :: c in clients ==> c.taken == old(c.taken) + [Frame(old(nextEventId), revision)]
    {
      hide UpToDate;
      if closed {
        return;
      }
      ghost var before := published;
      var id := TakeEventId();
      published := published + [Frame(id, revision)];
      var rest := clients;
      while rest != {}
        invariant rest <= clients <= old(clients) && published == before + [Frame(id, revision)]
        invariant nextEventId == After(id) && id <= MAX_SAFE_INTEGER && !closed
        invariant forall c :: c in rest ==> UpToDate(c, before, id) && c.taken == old(c.taken)
        invariant forall c :: c in clients && c !in rest ==>
          UpToDate(c, published, nextEventId) && c.taken == old(c.taken) + [Frame(id, revision)]
        decreases rest
      {
        var client :| client in rest;
        rest := rest - {client};
        Send(client, id, revision, before);
        if client.closed {
          clients := clients - {client};
        }
      }
    }

    method Close()
      requires Valid()
      modifies this, clients
      ensures Valid() && clients == {} && closed
      ensures forall c :: c in old(clients) ==> c.closed
    {
      hide UpToDate;
      if closed {
        return;
      }
      closed := true;
      while clients != {}
        invariant clients <= old(clients) && nextEventId <= MAX_SAFE_INTEGER && closed
        invariant forall c :: c in clients ==> UpToDate(c, published, nextEventId)
        invariant forall c :: c in old(clients) && c !in clients ==> c.closed
        decreases clients
      {
        var client :| client in clients;
        clients := clients - {client};
        Drop(client);
      }
    }
  }
}
