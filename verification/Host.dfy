/**
 The shared state of the runtime host: the ring, the attached clients and their queues.

 Every section that the source runs under its mutex is one method here, proved against one function
 on `State`. A client is `dead` in the source exactly when it has been taken out of the map, so the
 flag itself is not kept.
 */
module Host {
  import opened Ring
  import Frames

  type ClientId = nat

  /** A frame on its way to a client: output tagged with its position in the log, or the exit status. */
  datatype Item = Output(at: nat, data: seq<byte>) | Exit(code: int)

  datatype Client = Client(controller: bool, queue: seq<Item>, inFlight: int)

  datatype State = State(
    log: seq<byte>,
    capacity: nat,
    exited: bool,
    exitCode: int,
    clients: map<ClientId, Client>,
    hasCtl: bool,
    controller: ClientId,
    seen: set<string>)

  const QUEUE_CAP := 262144
  const OBSERVER_CAP := 32
  const MAX_SEEN_CREDENTIALS := 4096
  const MAX_PAYLOAD := Frames.MAX_FRAME - 1 - 8

  /** The bytes of an item on the wire. */
  function Size(item: Item): nat {
    match item
    case Output(_, data) => 5 + 8 + |data|
    case Exit(_) => 5 + 4
  }

  /** `uint32(int32(code))`: the status of a child killed by a signal is -1. */
  function Unsigned(code: int): nat
    requires -0x8000_0000 <= code < 0x8000_0000
  {
    if code < 0 then code + 0x1_0000_0000 else code
  }

  /** The budget counts the very bytes of the frames that are written. */
  lemma SizeIsTheFrame(item: Item)
    requires item.Output? ==> item.at < 0x1_0000_0000_0000_0000 && |item.data| <= MAX_PAYLOAD
    requires item.Exit? ==> -0x8000_0000 <= item.code < 0x8000_0000
    ensures match item
            case Output(at, data) => Size(item) == |Frames.Frame(Frames.T_OUTPUT, Frames.Encode64(at) + data)|
            case Exit(code) => Size(item) == |Frames.Frame(Frames.T_EXIT, Frames.Encode32(Unsigned(code)))|
  {
  }

  function QueueSize(queue: seq<Item>): nat {
    if queue == [] then 0 else QueueSize(queue[..|queue| - 1]) + Size(queue[|queue| - 1])
  }

  predicate Fits(c: Client, item: Item) {
    QueueSize(c.queue) + c.inFlight + Size(item) <= QUEUE_CAP
  }

  function Offered(c: Client, item: Item): Client {
    if Fits(c, item) then c.(queue := c.queue + [item]) else c
  }

  // ---------------------------------------------------------------- what each section does

  /** Everyone with room gets the item; everyone else is dropped, and with the controller goes its slot. */
  function Enqueued(s: State, item: Item): State {
    s.(clients := map id | id in s.clients
        && Fits(s.clients[id], item) :: s.clients[id].(queue := s.clients[id].queue + [item]),
       hasCtl := s.hasCtl && !(s.controller in s.clients && !Fits(s.clients[s.controller], item)))
  }

  function EnqueuedAll(s: State, items: seq<Item>): State {
    if items == [] then s else Enqueued(EnqueuedAll(s, items[..|items| - 1]), items[|items| - 1])
  }

  /** A stretch of the log cut into output frames, each tagged with where it starts. */
  function Split(from: nat, data: seq<byte>): seq<Item>
    decreases |data|
  {
    if data == [] then []
    else
      var n := Min(|data|, MAX_PAYLOAD);
      [Output(from, data[..n])] + Split(from + n, data[n..])
  }

  /** The next frame of a stretch that is being cut up, and what is left of it. */
  lemma SplitNext(from: nat, data: seq<byte>, off: nat, n: nat) returns (left: seq<Item>)
    requires off < |data| && n == Min(|data| - off, MAX_PAYLOAD)
    ensures left == Split(from + off + n, data[off + n..])
    ensures Split(from + off, data[off..]) == [Output(from + off, data[off..off + n])] + left
  {
    left := Split(from + off + n, data[off + n..]);
    assert data[off..][..n] == data[off..off + n] && data[off..][n..] == data[off + n..];
  }

  lemma EnqueuedLast(s: State, items: seq<Item>, item: Item, all: seq<Item>)
    requires all == items + [item]
    ensures EnqueuedAll(s, all) == Enqueued(EnqueuedAll(s, items), item)
  {
    assert all[..|all| - 1] == items;
  }

  lemma {:induction false} EnqueuedFirst(s: State, item: Item, rest: seq<Item>, all: seq<Item>)
    requires all == [item] + rest
    ensures EnqueuedAll(s, all) == EnqueuedAll(Enqueued(s, item), rest)
    decreases |rest|
  {
    if rest == [] {
      EnqueuedLast(s, [], item, all);
    } else {
      var init, last := rest[..|rest| - 1], rest[|rest| - 1];
      EnqueuedFirst(s, item, init, [item] + init);
      EnqueuedLast(s, [item] + init, last, all);
      EnqueuedLast(Enqueued(s, item), init, last, rest);
    }
  }

  /** The state when the frames of a stretch have gone out from `off` on. */
  ghost function Sent(s: State, from: nat, data: seq<byte>, off: nat): State {
    EnqueuedAll(s, Split(from + off, if off <= |data| then data[off..] else []))
  }

  lemma SentFrame(s: State, s': State, from: nat, data: seq<byte>, off: nat, n: nat, item: Item)
    requires off < |data| && n == Min(|data| - off, MAX_PAYLOAD) && item == Output(from + off, data[off..off + n])
    requires s' == Enqueued(s, item)
    ensures Sent(s', from, data, off + n) == Sent(s, from, data, off)
  {
    var left := SplitNext(from, data, off, n);
    EnqueuedFirst(s, item, left, Split(from + off, data[off..]));
  }

  lemma SentAtOnce(s: State, from: nat, data: seq<byte>)
    ensures Sent(s, from, data, 0) == EnqueuedAll(s, Split(from, data))
    ensures Sent(s, from, data, |data|) == s
  {
    assert data[0..] == data;
  }

  function PtyRead(s: State, data: seq<byte>): State {
    EnqueuedAll(s.(log := s.log + data), Split(|s.log|, data))
  }

  function PtyExit(s: State, code: int): State {
    Enqueued(s.(exited := true, exitCode := code), Exit(code))
  }

  function Taken(s: State, id: ClientId): State {
    if id in s.clients && s.clients[id].queue != [] then
      var c := s.clients[id];
      s.(clients := s.clients[id := c.(queue := [], inFlight := c.inFlight + QueueSize(c.queue))])
    else s
  }

  function Dropped(s: State, id: ClientId): State {
    s.(clients := s.clients - {id}, hasCtl := s.hasCtl && s.controller != id)
  }

  /** The writer is back with `n` bytes; if the write failed its client is dropped. */
  function Written(s: State, id: ClientId, n: nat, ok: bool): State {
    if id !in s.clients then s
    else
      var c := s.clients[id];
      var s' := s.(clients := s.clients[id := c.(inFlight := c.inFlight - n)]);
      if ok then s' else Dropped(s', id)
  }

  function Closed(s: State): State {
    s.(clients := map[], hasCtl := false)
  }

  predicate MayClaim(s: State, credential: string) {
    credential != "" && credential !in s.seen && |s.seen| < MAX_SEEN_CREDENTIALS
  }

  function Observers(clients: map<ClientId, Client>): set<ClientId> {
    set id | id in clients && !clients[id].controller
  }

  predicate MayRegister(s: State, wantControl: bool) {
    if wantControl then !s.hasCtl else |Observers(s.clients)| < OBSERVER_CAP
  }

  function Registered(s: State, id: ClientId, wantControl: bool): State {
    s.(clients := s.clients[id := Client(wantControl, [], 0)],
       hasCtl := s.hasCtl || wantControl, controller := if wantControl then id else s.controller)
  }

  class Host {
    const ring: Ring
    var exited: bool
    var exitCode: int
    var clients: map<ClientId, Client>
    var hasCtl: bool
    var controller: ClientId
    var seen: set<string>

    constructor (capacity: nat)
      requires capacity > 0
      ensures Valid() && fresh(ring) && fresh(ring.store) && Now() == State([], capacity, false, 0, map[], false, 0, {})
    {
      ring := new Ring(capacity);
      exited, exitCode, clients, hasCtl, controller, seen := false, 0, map[], false, 0, {};
    }

    ghost predicate Valid()
      reads this, ring, ring.store
    {
      ring.Valid()
    }

    ghost function Now(): State
      reads this, ring
    {
      State(ring.log, ring.capacity, exited, exitCode, clients, hasCtl, controller, seen)
    }

    /** `enqueueAllLocked`: one pass over the clients, then one over those that lag behind. */
    method EnqueueAll(item: Item)
      requires Valid()
      modifies this
      ensures Valid() && Now() == Enqueued(old(Now()), item)
    {
      var lagged := Offer(item);
      DropAll(lagged);
      assert clients == Enqueued(old(Now()), item).clients;
      assert hasCtl == Enqueued(old(Now()), item).hasCtl;
    }

    /** Queues the item to everyone who has room for it, and says who has not. */
    method Offer(item: Item) returns (lagged: set<ClientId>)
      modifies this
      ensures clients == map id | id in old(clients) :: Offered(old(clients)[id], item)
      ensures lagged == set id | id in old(clients) && !Fits(old(clients)[id], item)
      ensures exited == old(exited) && exitCode == old(exitCode) && hasCtl == old(hasCtl)
      ensures controller == old(controller) && seen == old(seen)
    {
      ghost var before := clients;
      lagged := {};
      var pending := clients.Keys;
      while pending != {}
        invariant pending <= before.Keys
        invariant clients.Keys == before.Keys
        invariant forall id | id in before ::
                    clients[id] == if id in pending then before[id] else Offered(before[id], item)
        invariant forall id :: id in lagged <==> id in before && id !in pending && !Fits(before[id], item)
        invariant exited == old(exited) && exitCode == old(exitCode) && hasCtl == old(hasCtl)
        invariant controller == old(controller) && seen == old(seen)
        decreases |pending|
      {
        var id :| id in pending;
        pending := pending - {id};
        var c := clients[id];
        assert c == before[id];
        if QueueSize(c.queue) + c.inFlight + Size(item) > QUEUE_CAP {
          lagged := lagged + {id};
        } else {
          clients := clients[id := c.(queue := c.queue + [item])];
        }
      }
    }

    method DropAll(lagged: set<ClientId>)
      modifies this
      ensures clients == old(clients) - lagged && hasCtl == (old(hasCtl) && controller !in lagged)
      ensures exited == old(exited) && exitCode == old(exitCode) && controller == old(controller) && seen == old(seen)
    {
      var pending := lagged;
      while pending != {}
        invariant pending <= lagged && clients == old(clients) - (lagged - pending)
        invariant hasCtl == (old(hasCtl) && controller !in lagged - pending)
        invariant exited == old(exited) && exitCode == old(exitCode) && controller == old(controller)
        invariant seen == old(seen)
        decreases |pending|
      {
        var id :| id in pending;
        pending := pending - {id};
        if hasCtl && controller == id { hasCtl := false; }
        clients := clients - {id};
      }
    }

    /** `enqueueOutputLocked`: cuts the chunk into frames and enqueues them one by one. */
    method EnqueueOutput(from: nat, data: seq<byte>)
      requires Valid()
      modifies this
      ensures Valid() && Now() == EnqueuedAll(old(Now()), Split(from, data))
    {
      ghost var goal := Sent(Now(), from, data, 0);
      SentAtOnce(Now(), from, data);
      var off := 0;
      while off < |data|
        invariant off <= |data| && Valid()
        invariant Sent(Now(), from, data, off) == goal
      {
        var n := |data| - off;
        if n > MAX_PAYLOAD { n := MAX_PAYLOAD; }
        ghost var s := Now();
        var item := Output(from + off, data[off..off + n]);
        EnqueueAll(item);
        SentFrame(s, Now(), from, data, off, n, item);
        off := off + n;
      }
      SentAtOnce(Now(), from, data);
    }

    /** `ptyReader`, one read: the ring advances whatever the clients do. */
    method OnOutput(data: seq<byte>)
      requires Valid()
      modifies this, ring, ring.store
      ensures Valid() && Now() == PtyRead(old(Now()), data)
    {
      var from := ring.total;
      ring.Append(data);
      EnqueueOutput(from, data);
    }

    /** `ptyReader`, after the last read. */
    method OnExit(code: int)
      requires Valid()
      modifies this
      ensures Valid() && Now() == PtyExit(old(Now()), code)
    {
      exited := true;
      exitCode := code;
      EnqueueAll(Exit(code));
    }

    /** `clientWriter`, before the write: everything queued is taken at once. */
    method Take(id: ClientId) returns (chunk: seq<Item>)
      requires Valid()
      modifies this
      ensures Valid() && Now() == Taken(old(Now()), id)
      ensures chunk == if id in old(clients) then old(clients)[id].queue else []
    {
      if id !in clients || clients[id].queue == [] { return []; }
      var c := clients[id];
      chunk := c.queue;
      clients := clients[id := c.(queue := [], inFlight := c.inFlight + QueueSize(chunk))];
    }

    /** `clientWriter`, after the write. */
    method Done(id: ClientId, n: nat, ok: bool)
      requires Valid()
      modifies this
      ensures Valid() && Now() == Written(old(Now()), id, n, ok)
    {
      if id !in clients { return; }
      var c := clients[id];
      clients := clients[id := c.(inFlight := c.inFlight - n)];
      if !ok { End(id); }
    }

    /** The end of `serve`: whatever slot the connection had is free again. */
    method End(id: ClientId)
      requires Valid()
      modifies this
      ensures Valid() && Now() == Dropped(old(Now()), id)
    {
      if hasCtl && controller == id { hasCtl := false; }
      clients := clients - {id};
    }

    method CloseClients()
      requires Valid()
      modifies this
      ensures Valid() && Now() == Closed(old(Now()))
    {
      clients := map[];
      hasCtl := false;
    }

    /** HELLO: the second look at the credential, under the lock that also spends it. */
    method Claim(credential: string) returns (ok: bool)
      requires Valid()
      modifies this
      ensures Valid() && (ok <==> MayClaim(old(Now()), credential))
      ensures Now() == if ok then old(Now()).(seen := old(seen) + {credential}) else old(Now())
    {
      if credential == "" || credential in seen || |seen| >= MAX_SEEN_CREDENTIALS { return false; }
      seen := seen + {credential};
      ok := true;
    }

    method ObserverCount() returns (n: nat)
      ensures n == |Observers(clients)|
    {
      n := 0;
      var pending := clients.Keys;
      while pending != {}
        invariant pending <= clients.Keys
        invariant n == |set id | id in clients && id !in pending && !clients[id].controller|
        decreases |pending|
      {
        var id :| id in pending;
        ghost var counted := set i | i in clients && i !in pending && !clients[i].controller;
        pending := pending - {id};
        ghost var now := set i | i in clients && i !in pending && !clients[i].controller;
        assert now == if clients[id].controller then counted else counted + {id};
        if !clients[id].controller { n := n + 1; }
      }
      assert Observers(clients) == set id | id in clients && id !in pending && !clients[id].controller;
    }

    /** HELLO: claims the slot, snapshots the replay and registers, all in one section. */
    method Register(id: ClientId, wantControl: bool, cursor: nat)
        returns (ok: bool, replay: Replay, next: nat, exitedAlready: bool)
      requires Valid()
      modifies this
      ensures Valid() && (ok <==> MayRegister(old(Now()), wantControl))
      ensures Now() == if ok then Registered(old(Now()), id, wantControl) else old(Now())
      ensures ok ==>
                replay == ReplayOf(ring.log, ring.capacity, cursor) && next == |ring.log| && exitedAlready == exited
    {
      ok, replay, next, exitedAlready := false, Invalid, 0, false;
      if wantControl {
        if hasCtl { return; }
      } else {
        var observers := ObserverCount();
        if observers >= OBSERVER_CAP { return; }
      }
      replay := ring.ReplayFrom(cursor);
      next, exitedAlready := ring.total, exited;
      clients := clients[id := Client(wantControl, [], 0)];
      if wantControl {
        controller := id;
        hasCtl := true;
      }
      ok := true;
    }
  }

  /** The loop of HELLO that writes a replay to its connection. */
  method ReplayFrames(from: nat, bytes: seq<byte>) returns (items: seq<Item>)
    ensures items == Split(from, bytes)
  {
    items := [];
    ghost var left := Split(from, bytes);
    ghost var all := left;
    var off := 0;
    while off < |bytes|
      invariant off <= |bytes| && all == items + left && left == Split(from + off, bytes[off..])
    {
      var n := |bytes| - off;
      if n > MAX_PAYLOAD { n := MAX_PAYLOAD; }
      left := SplitNext(from, bytes, off, n);
      items := items + [Output(from + off, bytes[off..off + n])];
      off := off + n;
    }
  }
}
