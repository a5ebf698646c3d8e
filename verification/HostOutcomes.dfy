/**
 Who stays attached and who does not: the exact outcome of every step of the host, for every client,
 in bytes and counts. Nobody is dropped, refused or admitted for any other reason.
 */
module HostOutcomes {
  import opened Ring
  import opened Host
  import opened HostRuns

  /** The bytes of a frame on the wire: length, type, for output the position, and the payload. */
  function Length(item: Item): nat {
    match item
    case Output(_, data) => 4 + 1 + 8 + |data|
    case Exit(_) => 4 + 1 + 4
  }

  function TotalLength(items: seq<Item>): nat {
    if items == [] then 0 else Length(items[0]) + TotalLength(items[1..])
  }

  lemma {:induction false} TotalLengthNext(items: seq<Item>, item: Item)
    ensures TotalLength(items + [item]) == TotalLength(items) + Length(item)
  {
    if items == [] {
      assert ([] + [item])[1..] == [];
    } else {
      TotalLengthNext(items[1..], item);
      assert (items + [item])[1..] == items[1..] + [item];
    }
  }

  lemma {:induction false} QueueSizeIsTotal(items: seq<Item>)
    ensures QueueSize(items) == TotalLength(items)
  {
    if items != [] {
      var init, last := items[..|items| - 1], items[|items| - 1];
      QueueSizeIsTotal(init);
      TotalLengthNext(init, last);
      assert init + [last] == items;
    }
  }

  /** What the client's budget is charged with. */
  function Outstanding(c: Client): int {
    TotalLength(c.queue) + c.inFlight
  }

  // ---------------------------------------------------------------- what goes out, and to whom

  /** What became of a client that these items were offered to one by one. */
  predicate OfferedAll(clients: map<ClientId, Client>, after: map<ClientId, Client>, items: seq<Item>, id: ClientId)
    requires id in clients
  {
    var c := clients[id];
    && (id in after <==> Outstanding(c) + TotalLength(items) <= 262144)
    && (id in after ==> after[id] == c.(queue := c.queue + items))
  }

  lemma OneItem(s: State, item: Item, id: ClientId)
    requires id in s.clients
    ensures var c, after := s.clients[id], Enqueued(s, item).clients;
            && (id in after <==> Outstanding(c) + Length(item) <= 262144)
            && (id in after ==> after[id] == c.(queue := c.queue + [item]))
  {
    QueueSizeIsTotal(s.clients[id].queue);
  }

  lemma {:induction false} ManyItems(w: World, items: seq<Item>, id: ClientId)
    requires id in w.host.clients && Outstanding(w.host.clients[id]) <= 262144
    ensures OfferedAll(w.host.clients, EnqueueList(w, items).host.clients, items, id)
    decreases |items|
  {
    var c := w.host.clients[id];
    if items == [] {
      assert c.queue + [] == c.queue;
    } else {
      var init, last := items[..|items| - 1], items[|items| - 1];
      var before := EnqueueList(w, init).host;
      ManyItems(w, init, id);
      TotalLengthNext(init, last);
      assert init + [last] == items && c.queue + init + [last] == c.queue + items;
      if id in before.clients {
        OneItem(before, last, id);
        TotalOfJoin(c.queue, init);
      }
    }
  }

  lemma {:induction false} TotalOfJoin(left: seq<Item>, right: seq<Item>)
    ensures TotalLength(left + right) == TotalLength(left) + TotalLength(right)
    decreases |right|
  {
    if right == [] {
      assert left + right == left;
    } else {
      var init, last := right[..|right| - 1], right[|right| - 1];
      TotalOfJoin(left, init);
      TotalLengthNext(left + init, last);
      TotalLengthNext(init, last);
      assert left + right == left + init + [last] && right == init + [last];
    }
  }

  /** What a step sends to everyone. */
  function Sends(w: World, step: Step): seq<Item> {
    match step
    case Output(data) => if w.host.exited then [] else Split(|w.host.log|, data)
    case Exit(code) => if w.host.exited then [] else [Item.Exit(code)]
    case _ => []
  }

  /** The reasons for which a step ends the attachment of `id`. */
  predicate Ends(w: World, step: Step, id: ClientId)
    requires id in w.host.clients
  {
    match step
    case ConnectionEnds(i) => i == id
    case CloseAll => true
    case WriterReturns(i, ok) => i == id && i in w.writing && !ok
    case _ => Outstanding(w.host.clients[id]) + TotalLength(Sends(w, step)) > 262144
  }

  lemma WithinBudget(capacity: nat, steps: seq<Step>, id: ClientId)
    requires id in Run(capacity, steps).host.clients
    ensures Outstanding(Run(capacity, steps).host.clients[id]) <= 262144
    ensures id in Run(capacity, steps).sessions
  {
    var w := Run(capacity, steps);
    SlotsAreKept(capacity, steps);
    RunOk(capacity, steps);
    assert ClientOk(w, id, |w.host.log|);
    QueueSizeIsTotal(w.host.clients[id].queue);
  }

  lemma SendsToAll(w: World, step: Step, id: ClientId)
    requires id in w.host.clients && Outstanding(w.host.clients[id]) <= 262144 && (step.Output? || step.Exit?)
    ensures OfferedAll(w.host.clients, Next(w, step).host.clients, Sends(w, step), id)
  {
    var c := w.host.clients[id];
    if w.host.exited {
      assert c.queue + [] == c.queue;
    } else if step.Output? {
      ManyItems(w.(host := w.host.(log := w.host.log + step.data)), Sends(w, step), id);
    } else {
      var item := Item.Exit(step.code);
      assert [item][1..] == [] && TotalLength([item]) == Length(item);
      OneItem(w.host.(exited := true, exitCode := step.code), item, id);
    }
  }

  /**
   A client leaves for its own reasons only. In every interleaving, a step ends the attachment of a client
   if and only if its connection ends, everyone is closed, its own write fails, or what the step sends
   brings the bytes that are queued or in flight for it above 262144. Everyone who stays has all that was
   sent at the end of its queue, unless its writer has just taken the queue.
   */
  lemma LeavesIff(capacity: nat, steps: seq<Step>, step: Step, id: ClientId)
    requires id in Run(capacity, steps).host.clients
    ensures var w, w' := Run(capacity, steps), Next(Run(capacity, steps), step);
            && (id !in w'.host.clients <==> Ends(w, step, id))
            && (id in w'.host.clients ==>
                  && w'.host.clients[id].controller == w.host.clients[id].controller
                  && if step == WriterTakes(id) && id !in w.writing then w'.host.clients[id].queue == []
                     else w'.host.clients[id].queue == w.host.clients[id].queue + Sends(w, step))
  {
    var w := Run(capacity, steps);
    WithinBudget(capacity, steps, id);
    if step.Output? || step.Exit? { SendsToAll(w, step, id); } else { OthersLeave(w, step, id); }
  }

  lemma OthersLeave(w: World, step: Step, id: ClientId)
    requires id in w.host.clients && id in w.sessions && Outstanding(w.host.clients[id]) <= 262144
    requires !step.Output? && !step.Exit?
    ensures var w' := Next(w, step);
            && (id !in w'.host.clients <==> Ends(w, step, id))
            && (id in w'.host.clients ==>
                  && w'.host.clients[id].controller == w.host.clients[id].controller
                  && if step == WriterTakes(id) && id !in w.writing then w'.host.clients[id].queue == []
                     else w'.host.clients[id].queue == w.host.clients[id].queue + Sends(w, step))
  {
    assert w.host.clients[id].queue + [] == w.host.clients[id].queue;
  }

  /** The bytes in flight are those of the queue that was taken last, until its write is over. */
  lemma InFlightIsTaken(capacity: nat, steps: seq<Step>, step: Step, id: ClientId)
    requires id in Run(capacity, steps).host.clients && id in Next(Run(capacity, steps), step).host.clients
    ensures var w, w' := Run(capacity, steps), Next(Run(capacity, steps), step);
            var c, c' := w.host.clients[id], w'.host.clients[id];
            && (id !in w.writing ==> c.inFlight == 0)
            && (step == WriterTakes(id) && id !in w.writing ==> c'.inFlight == TotalLength(c.queue))
            && (step.WriterReturns? && step.id == id ==> c'.inFlight == 0)
            && (step != WriterTakes(id) && !(step.WriterReturns? && step.id == id) ==> c'.inFlight == c.inFlight)
  {
    var w := Run(capacity, steps);
    var c := w.host.clients[id];
    RunOk(capacity, steps);
    WithinBudget(capacity, steps, id);
    assert ClientOk(w, id, |w.host.log|);
    QueueSizeIsTotal(c.queue);
    if step.Output? || step.Exit? { SendsToAll(w, step, id); } else { OthersInFlight(w, step, id); }
  }

  lemma OthersInFlight(w: World, step: Step, id: ClientId)
    requires id in w.host.clients && id in Next(w, step).host.clients && !step.Output? && !step.Exit?
    requires w.host.clients[id].inFlight == Writing(w, id)
    requires step.Attach? ==> step.id != id || id in w.sessions
    ensures var c, c' := w.host.clients[id], Next(w, step).host.clients[id];
            && (step == WriterTakes(id) && id !in w.writing ==> c'.inFlight == QueueSize(c.queue))
            && (step.WriterReturns? && step.id == id ==> c'.inFlight == 0)
            && (step != WriterTakes(id) && !(step.WriterReturns? && step.id == id) ==> c'.inFlight == c.inFlight)
  {
  }

  // ---------------------------------------------------------------- who is let in

  lemma NobodyControls(w: World)
    requires SlotsOk(w.host)
    ensures !w.host.hasCtl <==> forall i | i in w.host.clients :: !w.host.clients[i].controller
  {
  }

  /**
   Admission is exact. In every interleaving a new connection that has passed its HELLO is attached if and
   only if it asks for control while no attached client has it, or asks to observe while fewer than 32
   attached clients do; it starts with nothing queued.
   */
  lemma AttachedIff(capacity: nat, steps: seq<Step>, id: ClientId, wantControl: bool, cursor: nat)
    requires id !in Run(capacity, steps).sessions
    ensures var w, w' := Run(capacity, steps), Next(Run(capacity, steps), Attach(id, wantControl, cursor));
            && id !in w.host.clients
            && (id in w'.host.clients <==>
                  if wantControl then forall i | i in w.host.clients :: !w.host.clients[i].controller
                  else |set i | i in w.host.clients && !w.host.clients[i].controller| < 32)
            && (id in w'.host.clients ==> w'.host.clients == w.host.clients[id := Client(wantControl, [], 0)])
            && (id !in w'.host.clients ==> w' == w)
  {
    var w := Run(capacity, steps);
    RunOk(capacity, steps);
    NobodyControls(w);
    assert Observers(w.host.clients) == set i | i in w.host.clients && !w.host.clients[i].controller;
  }

  /**
   A HELLO passes the replay check if and only if its credential has an id that none before it had, of at most
   4096.
   */
  lemma PassesIff(capacity: nat, steps: seq<Step>, credential: string)
    ensures var w, w' := Run(capacity, steps), Next(Run(capacity, steps), Hello(credential));
            w'.passed == if credential != "" && credential !in w.passed && |w.passed| < 4096
                         then w.passed + [credential] else w.passed
  {
    var w := Run(capacity, steps);
    RunOk(capacity, steps);
    DistinctSize(w.passed, w.host.seen);
  }

  // ---------------------------------------------------------------- how output is cut

  predicate Bounded(item: Item) {
    item.Output? && 0 < |item.data| <= 1_048_567
  }

  predicate Full(item: Item) {
    item.Output? && |item.data| == 1_048_567
  }

  /** Output is cut into as few frames as the frame bound allows: all but the last carry 1048567 bytes. */
  lemma {:induction false} SplitIsTight(from: nat, data: seq<byte>)
    ensures var items := Split(from, data);
            && (forall i | 0 <= i < |items| :: Bounded(items[i]))
            && (forall i | 0 <= i < |items| - 1 :: Full(items[i]))
            && (items == [] <==> data == [])
    decreases |data|
  {
    if data != [] {
      var n := Min(|data|, MAX_PAYLOAD);
      var first, rest := Item.Output(from, data[..n]), Split(from + n, data[n..]);
      SplitIsTight(from + n, data[n..]);
      TightNext(first, rest, [first] + rest);
    }
  }

  lemma TightNext(first: Item, rest: seq<Item>, all: seq<Item>)
    requires all == [first] + rest && Bounded(first) && (rest != [] ==> Full(first))
    requires forall i | 0 <= i < |rest| :: Bounded(rest[i])
    requires forall i | 0 <= i < |rest| - 1 :: Full(rest[i])
    ensures forall i | 0 <= i < |all| :: Bounded(all[i])
    ensures forall i | 0 <= i < |all| - 1 :: Full(all[i])
  {
    assert forall i | 0 < i < |all| :: all[i] == rest[i - 1];
  }
}
