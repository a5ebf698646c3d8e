/**
 Every interleaving of the host's goroutines: the reader of the terminal, one writer per client, and
 the connections that attach and leave. Replay and live output together tile the log.
 */
module HostRuns {
  import opened Ring
  import opened Host

  /** What a connection was told when it registered. */
  datatype Session = Session(cursor: nat, replay: Replay, next: nat, exitedAlready: bool)

  /** The host, and the history of each connection: what it was told and everything ever queued to it. */
  datatype World = World(
    host: State,
    sessions: map<ClientId, Session>,
    sent: map<ClientId, seq<Item>>,
    writing: map<ClientId, nat>,
    passed: seq<string>)

  datatype Step =
    | Output(data: seq<byte>)
    | Exit(code: int)
    | WriterTakes(id: ClientId)
    | WriterReturns(id: ClientId, ok: bool)
    | ConnectionEnds(id: ClientId)
    | CloseAll
    | Hello(credential: string)
    /** A connection registers at most once: dropped, it handles no further frames. */
    | Attach(id: ClientId, wantControl: bool, cursor: nat)

  // ---------------------------------------------------------------- steps

  function Enqueue(w: World, item: Item): World {
    w.(host := Enqueued(w.host, item),
       sent := map id | id in w.sent ::
           if id in w.host.clients && Fits(w.host.clients[id], item) then w.sent[id] + [item] else w.sent[id])
  }

  function EnqueueList(w: World, items: seq<Item>): World {
    if items == [] then w else Enqueue(EnqueueList(w, items[..|items| - 1]), items[|items| - 1])
  }

  function OutputStep(w: World, data: seq<byte>): World {
    EnqueueList(w.(host := w.host.(log := w.host.log + data)), Split(|w.host.log|, data))
  }

  function ExitStep(w: World, code: int): World {
    Enqueue(w.(host := w.host.(exited := true, exitCode := code)), Item.Exit(code))
  }

  function TakeStep(w: World, id: ClientId): World {
    if id in w.host.clients && w.host.clients[id].queue != [] && id !in w.writing then
      w.(host := Taken(w.host, id), writing := w.writing[id := QueueSize(w.host.clients[id].queue)])
    else w
  }

  function ReturnStep(w: World, id: ClientId, ok: bool): World {
    if id in w.writing then w.(host := Written(w.host, id, w.writing[id], ok), writing := w.writing - {id}) else w
  }

  function HelloStep(w: World, credential: string): World {
    if MayClaim(w.host, credential)
        then w.(host := w.host.(seen := w.host.seen + {credential}), passed := w.passed + [credential]) else w
  }

  function AttachStep(w: World, id: ClientId, wantControl: bool, cursor: nat): World {
    if id !in w.sessions && MayRegister(w.host, wantControl) then
      var session := Session(cursor, ReplayOf(w.host.log, w.host.capacity, cursor), |w.host.log|, w.host.exited);
      w.(host := Registered(w.host, id, wantControl),
         sessions := w.sessions[id := session],
         sent := w.sent[id := []])
    else w
  }

  /** Once the child has exited the reader has stopped: no more output, no second exit. */
  function Next(w: World, step: Step): World {
    match step
    case Output(data) => if w.host.exited then w else OutputStep(w, data)
    case Exit(code) => if w.host.exited then w else ExitStep(w, code)
    case WriterTakes(id) => TakeStep(w, id)
    case WriterReturns(id, ok) => ReturnStep(w, id, ok)
    case ConnectionEnds(id) => w.(host := Dropped(w.host, id))
    case CloseAll => w.(host := Closed(w.host))
    case Hello(credential) => HelloStep(w, credential)
    case Attach(id, wantControl, cursor) => AttachStep(w, id, wantControl, cursor)
  }

  function Start(capacity: nat): World {
    World(State([], capacity, false, 0, map[], false, 0, {}), map[], map[], map[], [])
  }

  function Run(capacity: nat, steps: seq<Step>): World {
    if steps == [] then Start(capacity) else Next(Run(capacity, steps[..|steps| - 1]), steps[|steps| - 1])
  }

  /** The world's host changes exactly as the host's own output section does. */
  lemma {:induction false} EnqueueListIsEnqueuedAll(w: World, items: seq<Item>)
    ensures EnqueueList(w, items).host == EnqueuedAll(w.host, items)
  {
    if items != [] { EnqueueListIsEnqueuedAll(w, items[..|items| - 1]); }
  }

  lemma OutputIsPtyRead(w: World, data: seq<byte>, code: int)
    ensures OutputStep(w, data).host == PtyRead(w.host, data) && ExitStep(w, code).host == PtyExit(w.host, code)
  {
    EnqueueListIsEnqueuedAll(w.(host := w.host.(log := w.host.log + data)), Split(|w.host.log|, data));
  }

  // ---------------------------------------------------------------- tiles

  /** Output items that cover log[a..b] from left to right: no hole, no overlap, each payload the log's own. */
  predicate Tiles(items: seq<Item>, log: seq<byte>, a: nat, b: nat)
  {
    if items == [] then a == b
    else
      var last := items[|items| - 1];
      && last.Output? && Continues(last.data, log, last.at) && last.at + |last.data| == b && a <= last.at
      && Tiles(items[..|items| - 1], log, a, last.at)
  }

  /** A non-empty stretch of the log that starts at `from`. */
  predicate Continues(data: seq<byte>, log: seq<byte>, from: nat) {
    data != [] && from + |data| <= |log| && data == log[from..from + |data|]
  }

  lemma TilesNext(items: seq<Item>, log: seq<byte>, a: nat, b: nat, data: seq<byte>)
    requires Tiles(items, log, a, b) && a <= b && Continues(data, log, b)
    ensures Tiles(items + [Item.Output(b, data)], log, a, b + |data|)
  {
    assert (items + [Item.Output(b, data)])[..|items|] == items;
  }

  lemma {:induction false} TilesInOrder(items: seq<Item>, log: seq<byte>, a: nat, b: nat)
    requires Tiles(items, log, a, b)
    ensures a <= b
  {
  }

  lemma {:induction false} TilesStable(items: seq<Item>, log: seq<byte>, more: seq<byte>, a: nat, b: nat)
    requires Tiles(items, log, a, b)
    ensures Tiles(items, log + more, a, b)
  {
    if items != [] {
      var last := items[|items| - 1];
      assert (log + more)[last.at..b] == log[last.at..b];
      TilesStable(items[..|items| - 1], log, more, a, last.at);
    }
  }

  lemma {:induction false} TilesJoin(left: seq<Item>, right: seq<Item>, log: seq<byte>, a: nat, b: nat, c: nat)
    requires Tiles(left, log, a, b) && Tiles(right, log, b, c) && a <= b
    ensures Tiles(left + right, log, a, c)
    decreases |right|
  {
    if right == [] {
      assert left + right == left;
    } else {
      var last, init := right[|right| - 1], right[..|right| - 1];
      TilesInOrder(init, log, b, last.at);
      TilesJoin(left, init, log, a, b, last.at);
      assert (left + right)[..|left + right| - 1] == left + init;
    }
  }

  /** The payloads of a tiling, put together, are the stretch of the log. */
  function Bytes(items: seq<Item>): seq<byte> {
    if items == [] then []
    else Bytes(items[..|items| - 1]) + (match items[|items| - 1] case Output(_, data) => data case Exit(_) => [])
  }

  lemma {:induction false} TilesAreTheLog(items: seq<Item>, log: seq<byte>, a: nat, b: nat)
    requires Tiles(items, log, a, b) && b <= |log|
    ensures a <= b && Bytes(items) == log[a..b]
  {
    if items != [] {
      var last := items[|items| - 1];
      TilesAreTheLog(items[..|items| - 1], log, a, last.at);
      assert log[a..b] == log[a..last.at] + log[last.at..b];
    }
  }

  /** Cutting a stretch of the log into frames tiles it. */
  lemma {:induction false} SplitTiles(log: seq<byte>, from: nat, data: seq<byte>)
    requires from + |data| <= |log| && data == log[from..from + |data|]
    ensures Tiles(Split(from, data), log, from, from + |data|)
    decreases |data|
  {
    if data != [] {
      var n := Min(|data|, MAX_PAYLOAD);
      var head := [Item.Output(from, data[..n])];
      assert head[..0] == [];
      assert data[..n] == log[from..from + n] && data[n..] == log[from + n..from + |data|];
      SplitTiles(log, from + n, data[n..]);
      TilesJoin(head, Split(from + n, data[n..]), log, from, from + n, from + |data|);
    }
  }

  // ---------------------------------------------------------------- the invariant

  /** Everything queued to a client since it registered: the log from `next` to `upto`, then perhaps the exit. */
  predicate Covers(items: seq<Item>, log: seq<byte>, next: nat, upto: nat, exits: bool, code: int) {
    if exits then items != [] && items[|items| - 1] == Item.Exit(code) && Tiles(items[..|items| - 1], log, next, upto)
    else Tiles(items, log, next, upto)
  }

  /** The budget of a client, and its queue: the end of everything ever queued to it. */
  predicate QueueOk(c: Client, sent: seq<Item>, writing: nat) {
    && QueueSize(c.queue) + c.inFlight <= QUEUE_CAP && c.inFlight == writing
    && |c.queue| <= |sent| && sent[|sent| - |c.queue|..] == c.queue
  }

  predicate SentOk(sent: seq<Item>, session: Session, log: seq<byte>, upto: nat, exited: bool, code: int) {
    && session.next <= upto
    && (session.exitedAlready ==> exited && sent == [] && session.next == upto)
    && (!session.exitedAlready ==> Covers(sent, log, session.next, upto, exited, code))
  }

  function Writing(w: World, id: ClientId): nat {
    if id in w.writing then w.writing[id] else 0
  }

  predicate ClientOk(w: World, id: ClientId, upto: nat)
    requires id in w.host.clients
  {
    && id in w.sessions && id in w.sent
    && QueueOk(w.host.clients[id], w.sent[id], Writing(w, id))
    && SentOk(w.sent[id], w.sessions[id], w.host.log, upto, w.host.exited, w.host.exitCode)
  }

  predicate SlotsOk(s: State) {
    && (s.hasCtl ==> s.controller in s.clients && s.clients[s.controller].controller)
    && (forall id | id in s.clients && s.clients[id].controller :: s.hasCtl && id == s.controller)
    && |Observers(s.clients)| <= OBSERVER_CAP
  }

  ghost predicate CredentialsOk(w: World) {
    && |w.host.seen| <= MAX_SEEN_CREDENTIALS
    && (forall c :: c in w.host.seen <==> c in w.passed)
    && (forall i, j | 0 <= i < j < |w.passed| :: w.passed[i] != w.passed[j])
  }

  predicate SessionOk(w: World, id: ClientId)
    requires id in w.sessions
  {
    var session := w.sessions[id];
    && session.next <= |w.host.log|
    && session.replay == ReplayOf(w.host.log[..session.next], w.host.capacity, session.cursor)
  }

  /** Every client, queue and write belongs to a session. */
  predicate Known(w: World) {
    && (forall id | id in w.host.clients :: id in w.sessions && id in w.sent)
    && (forall id | id in w.sent :: id in w.sessions) && (forall id | id in w.writing :: id in w.sessions)
    && (forall id | id in w.sessions :: SessionOk(w, id))
  }

  ghost predicate Ok(w: World, upto: nat) {
    SlotsOk(w.host) && CredentialsOk(w) && Known(w) && forall id | id in w.host.clients :: ClientOk(w, id, upto)
  }

  /** Between two sections everyone is covered up to the end of the log. */
  ghost predicate Fine(w: World) {
    Ok(w, |w.host.log|)
  }

  lemma FewerObservers(clients: map<ClientId, Client>, fewer: map<ClientId, Client>)
    requires forall id | id in fewer :: id in clients && fewer[id].controller == clients[id].controller
    ensures |Observers(fewer)| <= |Observers(clients)|
  {
    assert Observers(fewer) <= Observers(clients);
    Subset(Observers(fewer), Observers(clients));
  }

  lemma Subset(a: set<ClientId>, b: set<ClientId>)
    requires a <= b
    ensures |a| <= |b|
  {
    assert b == a + (b - a);
  }

  lemma QueueSizeNext(queue: seq<Item>, item: Item)
    ensures QueueSize(queue + [item]) == QueueSize(queue) + Size(item)
  {
    assert (queue + [item])[..|queue|] == queue;
  }

  lemma QueueNext(c: Client, sent: seq<Item>, writing: nat, item: Item)
    requires QueueOk(c, sent, writing) && Fits(c, item)
    ensures QueueOk(c.(queue := c.queue + [item]), sent + [item], writing)
  {
    QueueSizeNext(c.queue, item);
    var queue, all := c.queue + [item], sent + [item];
    assert all[|all| - |queue|..] == sent[|sent| - |c.queue|..] + [item];
  }

  lemma SentNext(sent: seq<Item>, session: Session, log: seq<byte>, upto: nat, code: int, data: seq<byte>)
    requires SentOk(sent, session, log, upto, false, code)
    requires Continues(data, log, upto)
    ensures SentOk(sent + [Item.Output(upto, data)], session, log, upto + |data|, false, code)
  {
    TilesNext(sent, log, session.next, upto, data);
  }

  lemma SentExit(sent: seq<Item>, session: Session, log: seq<byte>, upto: nat, before: int, code: int)
    requires SentOk(sent, session, log, upto, false, before)
    ensures SentOk(sent + [Item.Exit(code)], session, log, upto, true, code)
  {
    assert (sent + [Item.Exit(code)])[..|sent|] == sent;
  }

  lemma SentStable(sent: seq<Item>, session: Session, log: seq<byte>, more: seq<byte>, upto: nat, code: int)
    requires SentOk(sent, session, log, upto, false, code)
    ensures SentOk(sent, session, log + more, upto, false, code)
  {
    TilesStable(sent, log, more, session.next, upto);
  }

  /** One item goes out to everyone who has room; the others are gone. */
  lemma EnqueueKeepsSlots(s: State, item: Item)
    requires SlotsOk(s)
    ensures SlotsOk(Enqueued(s, item))
  {
    FewerObservers(s.clients, Enqueued(s, item).clients);
  }

  /** If this client takes the item it is covered up to `upto`. */
  predicate Ready(w: World, id: ClientId, item: Item, upto: nat)
    requires id in w.host.clients && id in w.sessions && id in w.sent
  {
    && QueueOk(w.host.clients[id], w.sent[id], Writing(w, id))
    && SentOk(w.sent[id] + [item], w.sessions[id], w.host.log, upto, w.host.exited, w.host.exitCode)
  }

  lemma EnqueueOk(w: World, item: Item, upto: nat)
    requires SlotsOk(w.host) && CredentialsOk(w) && Known(w)
    requires forall id | id in w.host.clients :: Ready(w, id, item, upto)
    ensures Ok(Enqueue(w, item), upto)
  {
    var w' := Enqueue(w, item);
    EnqueueKeepsSlots(w.host, item);
    forall id | id in w'.host.clients ensures ClientOk(w', id, upto) {
      assert Ready(w, id, item, upto);
      QueueNext(w.host.clients[id], w.sent[id], Writing(w, id), item);
    }
    forall id | id in w'.sessions ensures SessionOk(w', id) { assert SessionOk(w, id); }
  }

  lemma ReadyForOutput(w: World, id: ClientId, upto: nat, data: seq<byte>, item: Item)
    requires id in w.host.clients && ClientOk(w, id, upto) && !w.host.exited && item == Item.Output(upto, data)
    requires Continues(data, w.host.log, upto)
    ensures Ready(w, id, item, upto + |data|)
  {
    SentNext(w.sent[id], w.sessions[id], w.host.log, upto, w.host.exitCode, data);
  }

  /** The next output frame: it continues the tiling of every client that takes it. */
  lemma EnqueueOutputOk(w: World, upto: nat, data: seq<byte>, item: Item)
    requires Ok(w, upto) && !w.host.exited && item == Item.Output(upto, data)
    requires Continues(data, w.host.log, upto)
    ensures Ok(Enqueue(w, item), upto + |data|)
  {
    forall id | id in w.host.clients ensures Ready(w, id, item, upto + |data|) {
      ReadyForOutput(w, id, upto, data, item);
    }
    EnqueueOk(w, item, upto + |data|);
  }

  /** A whole tiling goes out frame by frame. */
  lemma {:induction false} EnqueueListOk(w: World, items: seq<Item>, a: nat, b: nat)
    requires Ok(w, a) && !w.host.exited && Tiles(items, w.host.log, a, b)
    ensures Ok(EnqueueList(w, items), b)
    ensures EnqueueList(w, items).host.log == w.host.log && EnqueueList(w, items).host.exited == w.host.exited
    decreases |items|
  {
    if items != [] {
      var init, last := items[..|items| - 1], items[|items| - 1];
      EnqueueListOk(w, init, a, last.at);
      LastGoesOut(w, EnqueueList(w, init), last, b);
    }
  }

  lemma LastGoesOut(w: World, before: World, last: Item, b: nat)
    requires last.Output? && Continues(last.data, w.host.log, last.at) && last.at + |last.data| == b
    requires Ok(before, last.at) && before.host.log == w.host.log && !before.host.exited
    ensures Ok(Enqueue(before, last), b)
    ensures Enqueue(before, last).host.log == w.host.log && !Enqueue(before, last).host.exited
  {
    EnqueueOutputOk(before, last.at, last.data, last);
  }

  lemma LogGrows(w: World, data: seq<byte>)
    requires Ok(w, |w.host.log|) && !w.host.exited
    ensures Ok(w.(host := w.host.(log := w.host.log + data)), |w.host.log|)
  {
    var w' := w.(host := w.host.(log := w.host.log + data));
    forall id | id in w'.host.clients ensures ClientOk(w', id, |w.host.log|) {
      assert ClientOk(w, id, |w.host.log|);
      SentStable(w.sent[id], w.sessions[id], w.host.log, data, |w.host.log|, w.host.exitCode);
    }
    forall id | id in w'.sessions ensures SessionOk(w', id) {
      assert SessionOk(w, id);
      assert w'.host.log[..w.sessions[id].next] == w.host.log[..w.sessions[id].next];
    }
  }

  lemma NewOutputTiles(log: seq<byte>, data: seq<byte>)
    ensures Tiles(Split(|log|, data), log + data, |log|, |log| + |data|)
  {
    SplitTiles(log + data, |log|, data);
  }

  lemma OutputOk(w: World, data: seq<byte>)
    requires Fine(w) && !w.host.exited
    ensures Fine(OutputStep(w, data))
  {
    var grown := w.(host := w.host.(log := w.host.log + data));
    var items := Split(|w.host.log|, data);
    LogGrows(w, data);
    NewOutputTiles(w.host.log, data);
    ListGoesOut(grown, items, |w.host.log|);
  }

  lemma ListGoesOut(w: World, items: seq<Item>, from: nat)
    requires Ok(w, from) && !w.host.exited && Tiles(items, w.host.log, from, |w.host.log|)
    ensures Fine(EnqueueList(w, items))
  {
    EnqueueListOk(w, items, from, |w.host.log|);
  }

  /** The exit frame comes last, once, to everyone who is still attached. */
  lemma ExitOk(w: World, code: int)
    requires Fine(w) && !w.host.exited
    ensures Fine(ExitStep(w, code))
  {
    var before := w.(host := w.host.(exited := true, exitCode := code));
    var item := Item.Exit(code);
    forall id | id in before.host.clients ensures Ready(before, id, item, |w.host.log|) {
      assert ClientOk(w, id, |w.host.log|);
      SentExit(w.sent[id], w.sessions[id], w.host.log, |w.host.log|, w.host.exitCode, code);
    }
    forall id | id in before.sessions ensures SessionOk(before, id) { assert SessionOk(w, id); }
    EnqueueOk(before, item, |w.host.log|);
  }

  /** A step that queues nothing: the clients that remain have their budgets and queues in order. */
  lemma QuietOk(w: World, w': World)
    requires Fine(w) && SlotsOk(w'.host) && w'.sessions == w.sessions && w'.sent == w.sent && w'.passed == w.passed
    requires w'.host == w.host.(clients := w'.host.clients, hasCtl := w'.host.hasCtl)
    requires forall id | id in w'.writing :: id in w.sessions
    requires forall id | id in w'.host.clients ::
               id in w.host.clients && QueueOk(w'.host.clients[id], w.sent[id], Writing(w', id))
    ensures Fine(w')
  {
    var upto := |w.host.log|;
    forall id | id in w'.host.clients ensures ClientOk(w', id, upto) { assert ClientOk(w, id, upto); }
    forall id | id in w'.sessions ensures SessionOk(w', id) { assert SessionOk(w, id); }
  }

  lemma TakenOk(c: Client, sent: seq<Item>)
    requires QueueOk(c, sent, 0)
    ensures QueueOk(c.(queue := [], inFlight := c.inFlight + QueueSize(c.queue)), sent, QueueSize(c.queue))
  {
  }

  lemma TakeKeepsSlots(s: State, id: ClientId)
    requires SlotsOk(s)
    ensures SlotsOk(Taken(s, id))
  {
    FewerObservers(s.clients, Taken(s, id).clients);
  }

  lemma TakeOk(w: World, id: ClientId)
    requires Fine(w)
    ensures Fine(TakeStep(w, id))
  {
    var w' := TakeStep(w, id);
    if w' != w {
      TakeKeepsSlots(w.host, id);
      forall i | i in w'.host.clients
        ensures i in w.host.clients && QueueOk(w'.host.clients[i], w.sent[i], Writing(w', i))
      {
        TakeInOrder(w, id, i);
      }
      QuietOk(w, w');
    }
  }

  lemma TakeInOrder(w: World, id: ClientId, i: ClientId)
    requires Fine(w) && TakeStep(w, id) != w && i in TakeStep(w, id).host.clients
    ensures i in w.host.clients && i in w.sent
    ensures QueueOk(TakeStep(w, id).host.clients[i], w.sent[i], Writing(TakeStep(w, id), i))
  {
    ClientInOrder(w, i);
    if i == id { TakenOk(w.host.clients[i], w.sent[i]); }
  }

  lemma ClientInOrder(w: World, id: ClientId)
    requires Fine(w) && id in w.host.clients
    ensures id in w.sent && QueueOk(w.host.clients[id], w.sent[id], Writing(w, id))
  {
    assert ClientOk(w, id, |w.host.log|);
  }

  lemma DropKeepsSlots(s: State, id: ClientId)
    requires SlotsOk(s)
    ensures SlotsOk(Dropped(s, id))
  {
    FewerObservers(s.clients, Dropped(s, id).clients);
  }

  lemma DropOk(w: World, id: ClientId)
    requires Fine(w)
    ensures Fine(w.(host := Dropped(w.host, id)))
  {
    var w' := w.(host := Dropped(w.host, id));
    DropKeepsSlots(w.host, id);
    forall i | i in w'.host.clients
      ensures i in w.host.clients && QueueOk(w'.host.clients[i], w.sent[i], Writing(w', i))
    {
      ClientInOrder(w, i);
    }
    QuietOk(w, w');
  }

  lemma WrittenKeepsSlots(s: State, id: ClientId, n: nat)
    requires SlotsOk(s)
    ensures SlotsOk(Written(s, id, n, true))
  {
    FewerObservers(s.clients, Written(s, id, n, true).clients);
  }

  lemma DoneOk(c: Client, sent: seq<Item>, writing: nat)
    requires QueueOk(c, sent, writing)
    ensures QueueOk(c.(inFlight := c.inFlight - writing), sent, 0)
  {
  }

  lemma WrittenOk(w: World, id: ClientId)
    requires Fine(w) && id in w.writing
    ensures Fine(w.(host := Written(w.host, id, w.writing[id], true), writing := w.writing - {id}))
  {
    var w' := w.(host := Written(w.host, id, w.writing[id], true), writing := w.writing - {id});
    WrittenKeepsSlots(w.host, id, w.writing[id]);
    forall i | i in w'.host.clients
      ensures i in w.host.clients && QueueOk(w'.host.clients[i], w.sent[i], Writing(w', i))
    {
      ClientInOrder(w, i);
      if i == id { DoneOk(w.host.clients[i], w.sent[i], w.writing[i]); }
    }
    QuietOk(w, w');
  }

  lemma ReturnOk(w: World, id: ClientId, ok: bool)
    requires Fine(w)
    ensures Fine(ReturnStep(w, id, ok))
  {
    if id in w.writing {
      var written := w.(host := Written(w.host, id, w.writing[id], true), writing := w.writing - {id});
      WrittenOk(w, id);
      if !ok && id in w.host.clients {
        DropOk(written, id);
        assert ReturnStep(w, id, ok) == written.(host := Dropped(written.host, id));
      }
    }
  }

  lemma CloseOk(w: World)
    requires Fine(w)
    ensures Fine(w.(host := Closed(w.host)))
  {
    var w' := w.(host := Closed(w.host));
    FewerObservers(w.host.clients, map[]);
    QuietOk(w, w');
  }

  lemma HelloOk(w: World, credential: string)
    requires Fine(w)
    ensures Fine(HelloStep(w, credential))
  {
    var w' := HelloStep(w, credential);
    forall i | i in w'.host.clients ensures ClientOk(w', i, |w.host.log|) { assert ClientOk(w, i, |w.host.log|); }
    forall i | i in w'.sessions ensures SessionOk(w', i) { assert SessionOk(w, i); }
  }

  /** A new client starts where its replay ends. */
  lemma AttachedOk(w: World, id: ClientId, wantControl: bool, cursor: nat)
    requires Fine(w) && id !in w.sessions && MayRegister(w.host, wantControl)
    ensures var w' := AttachStep(w, id, wantControl, cursor); ClientOk(w', id, |w.host.log|) && SessionOk(w', id)
  {
    assert w.host.log[..|w.host.log|] == w.host.log;
  }

  lemma AttachKeepsSlots(s: State, id: ClientId, wantControl: bool)
    requires SlotsOk(s) && id !in s.clients && MayRegister(s, wantControl)
    ensures SlotsOk(Registered(s, id, wantControl))
  {
    var s' := Registered(s, id, wantControl);
    assert Observers(s'.clients) == Observers(s.clients) + if wantControl then {} else {id};
  }

  lemma AttachOk(w: World, id: ClientId, wantControl: bool, cursor: nat)
    requires Fine(w)
    ensures Fine(AttachStep(w, id, wantControl, cursor))
  {
    var w' := AttachStep(w, id, wantControl, cursor);
    if id !in w.sessions && MayRegister(w.host, wantControl) {
      AttachedOk(w, id, wantControl, cursor);
      AttachKeepsSlots(w.host, id, wantControl);
      forall i | i in w'.host.clients ensures ClientOk(w', i, |w.host.log|) {
        if i != id { assert ClientOk(w, i, |w.host.log|); }
      }
      forall i | i in w'.sessions ensures SessionOk(w', i) { assert i != id ==> SessionOk(w, i); }
    }
  }

  lemma NextOk(w: World, step: Step)
    requires Fine(w)
    ensures Fine(Next(w, step))
  {
    match step
    case Output(data) => if !w.host.exited { OutputOk(w, data); }
    case Exit(code) => if !w.host.exited { ExitOk(w, code); }
    case WriterTakes(id) => TakeOk(w, id);
    case WriterReturns(id, ok) => ReturnOk(w, id, ok);
    case ConnectionEnds(id) => DropOk(w, id);
    case CloseAll => CloseOk(w);
    case Hello(credential) => HelloOk(w, credential);
    case Attach(id, wantControl, cursor) => AttachOk(w, id, wantControl, cursor);
  }

  lemma {:induction false} RunOk(capacity: nat, steps: seq<Step>)
    ensures Fine(Run(capacity, steps)) && Run(capacity, steps).host.capacity == capacity
  {
    if steps == [] {
      assert Observers(map[]) == {};
    } else {
      RunOk(capacity, steps[..|steps| - 1]);
      var w := Run(capacity, steps[..|steps| - 1]);
      NextOk(w, steps[|steps| - 1]);
      CapacityStays(w, steps[|steps| - 1]);
    }
  }

  lemma {:induction false} ListCapacity(w: World, items: seq<Item>)
    ensures EnqueueList(w, items).host.capacity == w.host.capacity
  {
    if items != [] { ListCapacity(w, items[..|items| - 1]); }
  }

  lemma CapacityStays(w: World, step: Step)
    ensures Next(w, step).host.capacity == w.host.capacity
  {
    if step.Output? {
      ListCapacity(w.(host := w.host.(log := w.host.log + step.data)), Split(|w.host.log|, step.data));
    }
  }

  // ---------------------------------------------------------------- theorems

  /** Everything a client is given: the replay of its HELLO, then whatever was ever queued to it. */
  function GivenTo(session: Session, sent: seq<Item>, exitCode: int): seq<Item> {
    (match session.replay case Invalid => [] case Replay(bytes, from, _) => Split(from, bytes))
    + (if session.exitedAlready then [Item.Exit(exitCode)] else []) + sent
  }

  function Given(w: World, id: ClientId): seq<Item>
    requires id in w.sessions && id in w.sent
  {
    GivenTo(w.sessions[id], w.sent[id], w.host.exitCode)
  }

  /**
   Replay and live output tile the log. In every interleaving, a client that was admitted with a valid
   cursor and has not been dropped has been given log[from..], whole and in order by tag, where `from`
   is its cursor or, if more than `capacity` bytes had come since, `capacity` bytes before the end of the
   log when it attached; and then, once
   the child has exited, exactly one exit frame.
   */
  lemma ReplayAndLiveTileTheLog(capacity: nat, steps: seq<Step>, id: ClientId)
    requires var w := Run(capacity, steps); id in w.host.clients && id in w.sessions && w.sessions[id].replay.Replay?
    ensures var w := Run(capacity, steps);
            var session := w.sessions[id];
            && id in w.sent && session.next <= |w.host.log|
            && session.replay.from <= session.next
            && session.replay.from == (if session.next - session.cursor > capacity then session.next - capacity
               else session.cursor)
            && GivenExactly(Given(w, id), w.host, session.replay.from)
  {
    var w := Run(capacity, steps);
    RunOk(capacity, steps);
    assert ClientOk(w, id, |w.host.log|) && SessionOk(w, id);
    var session := w.sessions[id];
    ReplayIsASuffix(w.host.log[..session.next], capacity, session.cursor);
    ReplayThenLive(w.host, session, w.sent[id]);
  }

  /** The whole log from `from` on, in order by tag, and one exit frame once the child has exited. */
  predicate GivenExactly(given: seq<Item>, s: State, from: nat) {
    if s.exited then
      given != [] && given[|given| - 1] == Item.Exit(s.exitCode) && Tiles(given[..|given| - 1], s.log, from, |s.log|)
    else Tiles(given, s.log, from, |s.log|)
  }

  lemma ReplayThenLive(s: State, session: Session, sent: seq<Item>)
    requires SentOk(sent, session, s.log, |s.log|, s.exited, s.exitCode)
    requires session.replay.Replay? && session.replay.from <= session.next <= |s.log|
    requires session.replay.bytes == s.log[..session.next][session.replay.from..]
    ensures GivenExactly(GivenTo(session, sent, s.exitCode), s, session.replay.from)
  {
    var from, next := session.replay.from, session.next;
    assert session.replay.bytes == s.log[from..next];
    SplitTiles(s.log, from, session.replay.bytes);
    var head := Split(from, session.replay.bytes);
    var given := GivenTo(session, sent, s.exitCode);
    if session.exitedAlready {
      assert given == head + [Item.Exit(s.exitCode)];
      assert given[..|given| - 1] == head;
    } else if s.exited {
      var live := sent[..|sent| - 1];
      TilesJoin(head, live, s.log, from, next, |s.log|);
      assert given == head + sent;
      assert given[..|given| - 1] == head + live;
    } else {
      TilesJoin(head, sent, s.log, from, next, |s.log|);
      assert given == head + sent;
    }
  }

  /** The slots, in every interleaving: one controller exactly when `hasCtl`, few observers, bounded queues. */
  lemma SlotsAreKept(capacity: nat, steps: seq<Step>)
    ensures var s := Run(capacity, steps).host;
            && (s.hasCtl <==> exists id :: id in s.clients && s.clients[id].controller)
            && (forall id | id in s.clients && s.clients[id].controller :: id == s.controller)
            && |Observers(s.clients)| <= OBSERVER_CAP
            && forall id | id in s.clients :: QueueSize(s.clients[id].queue) + s.clients[id].inFlight <= QUEUE_CAP
  {
    RunOk(capacity, steps);
    var w := Run(capacity, steps);
    assert forall id | id in w.host.clients :: ClientOk(w, id, |w.host.log|);
  }

  /** At most 4096 credentials, and each of them lets one HELLO past. */
  lemma CredentialsAreSpentOnce(capacity: nat, steps: seq<Step>)
    ensures var passed := Run(capacity, steps).passed;
            |passed| <= MAX_SEEN_CREDENTIALS && forall i, j | 0 <= i < j < |passed| :: passed[i] != passed[j]
  {
    RunOk(capacity, steps);
    var w := Run(capacity, steps);
    DistinctSize(w.passed, w.host.seen);
  }

  lemma {:induction false} DistinctSize(passed: seq<string>, seen: set<string>)
    requires (forall c :: c in seen <==> c in passed) && forall i, j | 0 <= i < j < |passed| :: passed[i] != passed[j]
    ensures |seen| == |passed|
    decreases |passed|
  {
    if passed == [] {
      assert seen == {};
    } else {
      var init, last := passed[..|passed| - 1], passed[|passed| - 1];
      assert passed == init + [last];
      forall c ensures c in seen - {last} <==> c in init {
        if c in init { assert c in passed && c != last; }
      }
      DistinctSize(init, seen - {last});
    }
  }

  /** A client never hears about bytes out of order: what is still queued is the end of what was ever queued. */
  lemma QueueIsTheEnd(capacity: nat, steps: seq<Step>, id: ClientId)
    requires id in Run(capacity, steps).host.clients
    ensures var w := Run(capacity, steps);
            id in w.sent && |w.host.clients[id].queue| <= |w.sent[id]|
                && w.sent[id][|w.sent[id]| - |w.host.clients[id].queue|..] == w.host.clients[id].queue
  {
    RunOk(capacity, steps);
    var w := Run(capacity, steps);
    assert ClientOk(w, id, |w.host.log|);
  }
}
