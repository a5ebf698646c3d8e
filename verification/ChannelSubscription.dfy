/**
 A local session that follows a channel homed elsewhere, through a durable cursor. Requests may fail,
 runtimes may be missing, connections may break: nothing addressed to the session is skipped.
 */
module ChannelSubscription {
  import opened Options
  import opened ChannelPaging

  /** The stored route. `initial` is the cursor it was created with, `since` its `createdAt`. */
  datatype Route = Route(initial: Cursor, cursor: Cursor, since: int)

  /**
   A request in flight: the route it was made for, the page once it has come, and how many of its messages are
   done.
   */
  datatype Request = Request(route: Route, page: Option<Page>, done: nat)

  datatype World = World(
    home: seq<Message>,
    route: Option<Route>,
    requests: map<nat, Request>,
    delivered: set<string>)

  datatype Outcome = Accepted | RuntimeMissing | Failed

  datatype Step =
    | HomeCommits(message: Message)
    /** `upsert`: an existing route keeps its cursor and its age. */
    | Upsert(initial: Cursor, now: int)
    | Remove
    | Ask(id: nat)
    | Answer(id: nat)
    /** The handler looks at the next message of its page. */
    | Handle(id: nat, outcome: Outcome)
    | Advance(id: nat)
    /** The connection is gone, or the answer was malformed. */
    | Lose(id: nat)

  datatype Config = Config(fits: seq<Message> -> bool, recipient: string)

  /** The messages that the handler has to deliver: for this recipient, and not older than the route. */
  predicate Wanted(c: Config, since: int, m: Message) {
    m.occurredAt >= since && c.recipient in m.recipients
  }

  function Upserted(route: Option<Route>, initial: Cursor, now: int): Route {
    match route case Some(r) => r case None => Route(initial, initial, now)
  }

  /** `advanceFederatedChannelRouteCursor`: against the stored record, never backwards. */
  function Advanced(stored: Route, cursor: Cursor): Route {
    if cursor <= stored.cursor then stored else stored.(cursor := cursor)
  }

  /** The stored record of one route. */
  class RouteStore {
    var route: Option<Route>

    constructor ()
      ensures route == None
    {
      route := None;
    }

    method Upsert(initial: Cursor, now: int) returns (r: Route)
      modifies this
      ensures r == Upserted(old(route), initial, now) && route == Some(r)
    {
      r := if route.Some? then route.value else Route(initial, initial, now);
      route := Some(r);
    }

    /** Fails if the record is gone. */
    method AdvanceCursor(cursor: Cursor) returns (r: Option<Route>)
      modifies this
      ensures r == route == if old(route).Some? then Some(Advanced(old(route).value, cursor)) else None
    {
      r := route;
      if route.None? || cursor <= route.value.cursor { return; }
      r := Some(route.value.(cursor := cursor));
      route := r;
    }

    method Remove()
      modifies this
      ensures route == None
    {
      route := None;
    }
  }

  function WantedIds(c: Config, since: int, messages: seq<Message>): set<string> {
    set m | m in messages && Wanted(c, since, m) :: m.id
  }

  /** `handleChannel`: goes through a page in order and stops at the first message that cannot be delivered. */
  method HandlePage(c: Config, since: int, messages: seq<Message>, outcome: nat -> Outcome)
      returns (done: nat, delivered: set<string>)
    ensures done <= |messages| && delivered == WantedIds(c, since, messages[..done])
    ensures forall i | 0 <= i < done && Wanted(c, since, messages[i]) :: outcome(i) == Accepted
    ensures done < |messages| ==> Wanted(c, since, messages[done]) && outcome(done) != Accepted
  {
    done := 0;
    delivered := {};
    while done < |messages|
      invariant done <= |messages| && delivered == WantedIds(c, since, messages[..done])
      invariant forall i | 0 <= i < done && Wanted(c, since, messages[i]) :: outcome(i) == Accepted
    {
      var m := messages[done];
      assert messages[..done + 1] == messages[..done] + [m];
      if m.occurredAt >= since && c.recipient in m.recipients {
        if outcome(done) != Accepted { return; }
        delivered := delivered + {m.id};
      }
      done := done + 1;
    }
  }

  function Drop(w: World, id: nat): World {
    w.(requests := w.requests - {id})
  }

  function HandleStep(c: Config, w: World, id: nat, r: Request, page: Page, outcome: Outcome): World
    requires r.done < |page.messages|
  {
    var m := page.messages[r.done];
    if !Wanted(c, r.route.since, m) then w.(requests := w.requests[id := r.(done := r.done + 1)])
    else if outcome.Accepted? then
        w.(requests := w.requests[id := r.(done := r.done + 1)], delivered := w.delivered + {m.id})
    else Drop(w, id)
  }

  /** The page has come, and none of its messages is done. */
  function Answered(c: Config, w: World, r: Request): Request {
    Request(r.route, Some(Serve(c.fits, w.home, r.route.cursor)), 0)
  }

  function Next(c: Config, w: World, step: Step): World {
    match step
    case HomeCommits(m) =>
        if w.home == [] || w.home[|w.home| - 1].cursor < m.cursor then w.(home := w.home + [m]) else w
    case Upsert(initial, now) => w.(route := Some(Upserted(w.route, initial, now)))
    case Remove => w.(route := None)
    case Ask(id) =>
        if w.route.Some? && id !in w.requests then w.(requests := w.requests[id := Request(w.route.value, None, 0)])
        else w
    case Answer(id) =>
      if id in w.requests && w.requests[id].page.None? then
        w.(requests := w.requests[id := Answered(c, w, w.requests[id])])
      else w
    case Handle(id, outcome) =>
      if id in w.requests && w.requests[id].page.Some?
          && w.requests[id].done < |w.requests[id].page.value.messages| then
        HandleStep(c, w, id, w.requests[id], w.requests[id].page.value, outcome)
      else w
    case Advance(id) =>
      if id in w.requests && w.requests[id].page.Some?
          && w.requests[id].done == |w.requests[id].page.value.messages| then
        if w.route.Some? then Drop(w, id).(route := Some(Advanced(w.route.value, w.requests[id].page.value.cursor)))
            else Drop(w, id)
      else w
    case Lose(id) => Drop(w, id)
  }

  function Run(c: Config, steps: seq<Step>): World {
    if steps == [] then World([], None, map[], {}) else Next(c, Run(c, steps[..|steps| - 1]), steps[|steps| - 1])
  }

  // ---------------------------------------------------------------- what is never skipped

  /** Every wanted message above the initial cursor and at or below `upto` has been delivered. */
  ghost predicate CaughtUp(c: Config, w: World, initial: Cursor, since: int, upto: Cursor) {
    forall m | m in w.home && initial < m.cursor <= upto && Wanted(c, since, m) :: m.id in w.delivered
  }

  ghost predicate NeverSkipped(c: Config, w: World) {
    w.route.Some? ==> CaughtUp(c, w, w.route.value.initial, w.route.value.since, w.route.value.cursor)
  }

  /** A request that the stored route may advance by: it asked from no later point and for no fewer messages. */
  predicate Belongs(r: Request, route: Route) {
    r.route.cursor <= route.cursor && r.route.since <= route.since
  }

  /** A cursor that has moved off `floor` stands at a message that the home has. */
  predicate Reached(home: seq<Message>, cursor: Cursor, floor: Cursor) {
    cursor == floor || (home != [] && floor <= cursor <= home[|home| - 1].cursor)
  }

  /** The page of a request holds everything that its home has between the request's cursor and the page's. */
  ghost predicate PageOk(w: World, r: Request) {
    r.page.Some? ==>
      && r.done <= |r.page.value.messages| && Reached(w.home, r.page.value.cursor, r.route.cursor)
      && (forall m | m in w.home && r.route.cursor < m.cursor <= r.page.value.cursor :: m in r.page.value.messages)
  }

  ghost predicate HandledOk(c: Config, w: World, r: Request) {
    r.page.Some? ==>
      forall i | 0 <= i < r.done && i < |r.page.value.messages| && Wanted(c, r.route.since, r.page.value.messages[i]) ::
        r.page.value.messages[i].id in w.delivered
  }

  ghost predicate RequestOk(c: Config, w: World, r: Request) {
    PageOk(w, r) && HandledOk(c, w, r) && (w.route.Some? ==> Belongs(r, w.route.value))
  }

  ghost predicate Ok(c: Config, w: World) {
    && Ascending(w.home) && NeverSkipped(c, w)
    && (w.route.Some? ==> Reached(w.home, w.route.value.cursor, w.route.value.initial))
    && forall id | id in w.requests :: RequestOk(c, w, w.requests[id])
  }

  /** A route may be created again under a request for its predecessor: no further back, and not for older messages. */
  predicate MayRecreate(earlier: Route, initial: Cursor, now: int) {
    earlier.cursor <= initial && earlier.since <= now
  }

  predicate Orderly(w: World, step: Step) {
    step.Upsert? && w.route.None? ==>
      forall id | id in w.requests :: MayRecreate(w.requests[id].route, step.initial, step.now)
  }

  predicate OrderlyRun(c: Config, steps: seq<Step>) {
    steps == [] || (OrderlyRun(c, steps[..|steps| - 1]) && Orderly(Run(c, steps[..|steps| - 1]), steps[|steps| - 1]))
  }

  /** Whatever is above a cursor comes after it. */
  lemma {:induction false} AboveComesAfter(home: seq<Message>, cursor: Cursor, m: Message)
    requires m in home && m.cursor > cursor
    ensures m in After(home, cursor)
  {
    if home[0].cursor <= cursor {
      assert home == [home[0]] + home[1..];
      AboveComesAfter(home[1..], cursor, m);
    }
  }

  lemma PageHolds(home: seq<Message>, cursor: Cursor, page: Page, m: Message)
    requires Ascending(home) && m in home && cursor < m.cursor <= page.cursor
    requires var rest := After(home, cursor);
             |page.messages| <= |rest| && page.messages == rest[..|page.messages|]
                 && After(home, page.cursor) == rest[|page.messages|..]
    ensures m in page.messages
  {
    var rest, k := After(home, cursor), |page.messages|;
    AboveComesAfter(home, cursor, m);
    AfterIsTheEnd(home, page.cursor);
    assert m !in rest[k..];
    assert rest == rest[..k] + rest[k..];
  }

  lemma ServedPageOk(c: Config, w: World, r: Request)
    requires Ascending(w.home)
    ensures PageOk(w, Answered(c, w, r))
  {
    var page := Serve(c.fits, w.home, r.route.cursor);
    PageIsExact(c.fits, w.home, r.route.cursor);
    ServedCursor(c, w.home, r.route.cursor);
    forall m | m in w.home && r.route.cursor < m.cursor <= page.cursor ensures m in page.messages {
      PageHolds(w.home, r.route.cursor, page, m);
    }
  }

  lemma ServedCursor(c: Config, home: seq<Message>, cursor: Cursor)
    requires Ascending(home)
    ensures Reached(home, Serve(c.fits, home, cursor).cursor, cursor)
  {
    var page := Serve(c.fits, home, cursor);
    PageIsExact(c.fits, home, cursor);
    AfterIsTheEnd(home, cursor);
    var rest := After(home, cursor);
    if page.messages != [] {
      var i := |home| - |rest| + |page.messages| - 1;
      assert home[i] == rest[|page.messages| - 1];
      assert i < |home| - 1 ==> home[i].cursor < home[|home| - 1].cursor;
    }
  }

  /** A new message is above everything that anyone has asked for or been given. */
  lemma CommitOk(c: Config, w: World, m: Message)
    requires Ok(c, w) && (w.home == [] || w.home[|w.home| - 1].cursor < m.cursor)
    ensures Ok(c, w.(home := w.home + [m]))
  {
    var w' := w.(home := w.home + [m]);
    assert Ascending(w'.home) by {
      forall i, j | 0 <= i < j < |w'.home| ensures w'.home[i].cursor < w'.home[j].cursor {
        assert i < |w.home| - 1 ==> w.home[i].cursor < w.home[|w.home| - 1].cursor;
      }
    }
    forall id | id in w'.requests ensures RequestOk(c, w', w'.requests[id]) { assert RequestOk(c, w, w.requests[id]); }
  }

  lemma HandleOk(c: Config, w: World, id: nat, outcome: Outcome)
    requires Ok(c, w) && id in w.requests && w.requests[id].page.Some?
    requires w.requests[id].done < |w.requests[id].page.value.messages|
    ensures Ok(c, HandleStep(c, w, id, w.requests[id], w.requests[id].page.value, outcome))
  {
    var w' := HandleStep(c, w, id, w.requests[id], w.requests[id].page.value, outcome);
    assert w.delivered <= w'.delivered;
    forall i | i in w'.requests ensures RequestOk(c, w', w'.requests[i]) {
      assert RequestOk(c, w, w.requests[i]);
      if i == id { HandledNext(c, w, w', w.requests[id], w'.requests[id]); }
    }
  }

  lemma HandledNext(c: Config, w: World, w': World, r: Request, r': Request)
    requires HandledOk(c, w, r) && w.delivered <= w'.delivered && r.page.Some? && r.done < |r.page.value.messages|
    requires r' == r.(done := r.done + 1)
    requires var m := r.page.value.messages[r.done]; Wanted(c, r.route.since, m) ==> m.id in w'.delivered
    ensures HandledOk(c, w', r')
  {
  }

  /** A page that has been handled to its end: what lies up to its cursor has been delivered. */
  lemma AdvanceOk(c: Config, w: World, id: nat)
    requires Ok(c, w) && id in w.requests && w.requests[id].page.Some?
    requires w.requests[id].done == |w.requests[id].page.value.messages| && w.route.Some?
    ensures Ok(c, Drop(w, id).(route := Some(Advanced(w.route.value, w.requests[id].page.value.cursor))))
  {
    var r, stored := w.requests[id], w.route.value;
    var w' := Drop(w, id).(route := Some(Advanced(stored, r.page.value.cursor)));
    assert RequestOk(c, w, r);
    forall m | m in w.home && stored.initial < m.cursor <= w'.route.value.cursor
        && Wanted(c, stored.since, m) ensures m.id in w.delivered {
      if m.cursor > stored.cursor {
        assert m in r.page.value.messages;
        var i :| 0 <= i < |r.page.value.messages| && r.page.value.messages[i] == m;
      }
    }
    forall i | i in w'.requests ensures RequestOk(c, w', w'.requests[i]) { assert RequestOk(c, w, w.requests[i]); }
  }

  lemma NextOk(c: Config, w: World, step: Step)
    requires Ok(c, w) && Orderly(w, step)
    ensures Ok(c, Next(c, w, step))
  {
    var w' := Next(c, w, step);
    match step
    case HomeCommits(m) => if w.home == [] || w.home[|w.home| - 1].cursor < m.cursor { CommitOk(c, w, m); }
    case Upsert(initial, now) =>
      if w.route.Some? { assert w' == w; }
    case Remove =>
    case Ask(id) => AskOk(c, w, id);
    case Answer(id) =>
      if id in w.requests && w.requests[id].page.None? {
        AnswerOk(c, w, id);
      }
    case Handle(id, outcome) =>
        if id in w.requests && w.requests[id].page.Some? && w.requests[id].done < |w.requests[id].page.value.messages| {
      HandleOk(c, w, id, outcome);
    }
    case Advance(id) =>
      if id in w.requests && w.requests[id].page.Some? && w.requests[id].done == |w.requests[id].page.value.messages| {
        if w.route.Some? { AdvanceOk(c, w, id); } else { DropOk(c, w, id); }
      }
    case Lose(id) => DropOk(c, w, id);
  }

  lemma AskOk(c: Config, w: World, id: nat)
    requires Ok(c, w) && Orderly(w, Ask(id))
    ensures Ok(c, Next(c, w, Ask(id)))
  {
    var w' := Next(c, w, Ask(id));
    forall i | i in w'.requests ensures RequestOk(c, w', w'.requests[i]) {
      assert i in w.requests ==> RequestOk(c, w, w.requests[i]);
    }
  }

  lemma AnswerOk(c: Config, w: World, id: nat)
    requires Ok(c, w) && id in w.requests && w.requests[id].page.None?
    ensures Ok(c, Next(c, w, Answer(id)))
  {
    var w' := Next(c, w, Answer(id));
    ServedPageOk(c, w, w.requests[id]);
    forall i | i in w'.requests ensures RequestOk(c, w', w'.requests[i]) { assert RequestOk(c, w, w.requests[i]); }
  }

  lemma DropOk(c: Config, w: World, id: nat)
    requires Ok(c, w)
    ensures Ok(c, Drop(w, id))
  {
    var w' := Drop(w, id);
    forall i | i in w'.requests ensures RequestOk(c, w', w'.requests[i]) { assert RequestOk(c, w, w.requests[i]); }
  }

  lemma {:induction false} RunOk(c: Config, steps: seq<Step>)
    requires OrderlyRun(c, steps)
    ensures Ok(c, Run(c, steps))
  {
    if steps != [] {
      RunOk(c, steps[..|steps| - 1]);
      NextOk(c, Run(c, steps[..|steps| - 1]), steps[|steps| - 1]);
    }
  }

  /**
   The subscription never skips. With missing runtimes, failures, lost connections and overlapping
   requests in between, every home message above the route's initial cursor and at or below its stored
   cursor that is addressed to the recipient and not older than the route has been delivered, as long
   as no route is created again behind a request that is still in flight for its predecessor.
   */
  lemma SubscriptionNeverSkips(c: Config, steps: seq<Step>)
    requires OrderlyRun(c, steps)
    ensures NeverSkipped(c, Run(c, steps))
  {
    RunOk(c, steps);
  }

  /** While a route exists its cursor, its start and its age only ever stay or move forward. */
  lemma CursorNeverMovesBack(c: Config, w: World, step: Step)
    requires w.route.Some? && !step.Remove?
    ensures var w' := Next(c, w, step);
            w'.route.Some? && w.route.value.cursor <= w'.route.value.cursor
                && w'.route.value.initial == w.route.value.initial && w'.route.value.since == w.route.value.since
  {
  }

  // ---------------------------------------------------------------- a route created again

  /** The only routes created again under requests in flight are this one, under requests for that one. */
  predicate Recreates(w: World, step: Step, cursor: Cursor, since: int, initial: Cursor, now: int) {
    step.Upsert? && w.route.None? && w.requests != map[] ==>
      && step.initial == initial && step.now == now
      && forall id | id in w.requests :: w.requests[id].route.cursor == cursor && w.requests[id].route.since == since
  }

  predicate RecreatesOnly(c: Config, steps: seq<Step>, cursor: Cursor, since: int, initial: Cursor, now: int) {
    steps == [] ||
    (RecreatesOnly(c, steps[..|steps| - 1], cursor, since, initial, now)
     && Recreates(Run(c, steps[..|steps| - 1]), steps[|steps| - 1], cursor, since, initial, now))
  }

  lemma {:induction false} RecreatesOrderly(c: Config, steps: seq<Step>, cursor: Cursor, since: int, initial: Cursor,
      now: int)
    requires RecreatesOnly(c, steps, cursor, since, initial, now) && cursor <= initial && since <= now
    ensures OrderlyRun(c, steps)
  {
    if steps != [] { RecreatesOrderly(c, steps[..|steps| - 1], cursor, since, initial, now); }
  }

  lemma Extend(c: Config, steps: seq<Step>, step: Step, cursor: Cursor, since: int, initial: Cursor, now: int)
      returns (longer: seq<Step>)
    requires RecreatesOnly(c, steps, cursor, since, initial, now)
    requires Recreates(Run(c, steps), step, cursor, since, initial, now)
    ensures RecreatesOnly(c, longer, cursor, since, initial, now) && Run(c, longer) == Next(c, Run(c, steps), step)
  {
    longer := steps + [step];
    assert longer[..|steps|] == steps;
  }

  /** A request is made over two messages of the home, and then its route is removed and created again. */
  lemma RouteIsRecreated(c: Config, home: seq<Message>, cursor: Cursor, since: int, initial: Cursor, now: int)
      returns (steps: seq<Step>)
    requires |home| == 2 && home[0].cursor < home[1].cursor
    ensures RecreatesOnly(c, steps, cursor, since, initial, now)
    ensures Run(c, steps) == World(home, Some(Route(initial, initial, now)),
              map[0 := Request(Route(cursor, cursor, since), None, 0)], {})
  {
    steps := [];
    steps := Extend(c, steps, HomeCommits(home[0]), cursor, since, initial, now);
    steps := Extend(c, steps, HomeCommits(home[1]), cursor, since, initial, now);
    assert Run(c, steps) == World(home, None, map[], {});
    steps := Extend(c, steps, Upsert(cursor, since), cursor, since, initial, now);
    steps := Extend(c, steps, Ask(0), cursor, since, initial, now);
    steps := Extend(c, steps, Remove, cursor, since, initial, now);
    steps := Extend(c, steps, Upsert(initial, now), cursor, since, initial, now);
  }

  /** The answer holds only messages that the request's own route does not want, and the new route is advanced by it. */
  lemma StaleAnswer(c: Config, home: seq<Message>, cursor: Cursor, since: int, initial: Cursor, now: int)
      returns (steps: seq<Step>)
    requires |home| == 2 && home[0].cursor <= cursor < home[1].cursor && initial < home[1].cursor
    requires !Wanted(c, since, home[1])
    ensures RecreatesOnly(c, steps, cursor, since, initial, now)
    ensures var w := Run(c, steps);
              w.home == home && w.route == Some(Route(initial, home[1].cursor, now)) && w.delivered == {}
  {
    steps := RouteIsRecreated(c, home, cursor, since, initial, now);
    ServedSecond(c, home, cursor);
    steps := Extend(c, steps, Answer(0), cursor, since, initial, now);
    steps := Extend(c, steps, Handle(0, Accepted), cursor, since, initial, now);
    assert Run(c, steps).requests[0].done == 1;
    steps := Extend(c, steps, Advance(0), cursor, since, initial, now);
  }

  lemma ServedSecond(c: Config, home: seq<Message>, cursor: Cursor)
    requires |home| == 2 && home[0].cursor <= cursor < home[1].cursor
    ensures var page := Serve(c.fits, home, cursor); page.messages == [home[1]] && page.cursor == home[1].cursor
  {
    assert home[1..] == [home[1]];
    assert After(home, cursor) == [home[1]];
    PageIsExact(c.fits, home, cursor);
  }

  /** The new route starts behind the request: the answer advances it past a message that nobody looked at. */
  lemma FurtherBackSkips(c: Config, cursor: Cursor, since: int, initial: Cursor, now: int) returns (steps: seq<Step>)
    requires initial < cursor
    ensures RecreatesOnly(c, steps, cursor, since, initial, now) && !NeverSkipped(c, Run(c, steps))
  {
    var skipped := Message(cursor, "skipped", now, {c.recipient});
    var home := [skipped, Message(cursor + 1, "last", now, {})];
    steps := StaleAnswer(c, home, cursor, since, initial, now);
    assert skipped in Run(c, steps).home && Wanted(c, now, skipped);
  }

  /** The new route wants older messages than the request: its handler passes over one of them. */
  lemma OlderSkips(c: Config, cursor: Cursor, since: int, initial: Cursor, now: int) returns (steps: seq<Step>)
    requires cursor <= initial && now < since
    ensures RecreatesOnly(c, steps, cursor, since, initial, now) && !NeverSkipped(c, Run(c, steps))
  {
    var skipped := Message(initial + 1, "skipped", now, {c.recipient});
    var home := [Message(cursor, "first", now, {}), skipped];
    steps := StaleAnswer(c, home, cursor, since, initial, now);
    assert skipped in Run(c, steps).home && Wanted(c, now, skipped);
  }

  /**
   The exact condition. A route created again while a request for its predecessor is in flight is never
   advanced past an undelivered message if and only if it starts no further back than that request's
   cursor and is no older than the route the request was made for. The store checks neither.
   */
  lemma RecreationIsSafeIff(c: Config, cursor: Cursor, since: int, initial: Cursor, now: int)
    ensures MayRecreate(Route(cursor, cursor, since), initial, now) <==>
            forall steps: seq<Step> | RecreatesOnly(c, steps, cursor, since, initial, now) ::
                NeverSkipped(c, Run(c, steps))
  {
    if cursor <= initial && since <= now {
      forall steps: seq<Step> | RecreatesOnly(c, steps, cursor, since, initial, now) ensures NeverSkipped(c,
          Run(c, steps)) {
        RecreatesOrderly(c, steps, cursor, since, initial, now);
        SubscriptionNeverSkips(c, steps);
      }
    } else if initial < cursor {
      var steps := FurtherBackSkips(c, cursor, since, initial, now);
    } else {
      var steps := OlderSkips(c, cursor, since, initial, now);
    }
  }
}
