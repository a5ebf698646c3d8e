/** A subscription that nothing disturbs catches up with its channel, and only ever delivers what is addressed to it. */
module ChannelProgress {
  import opened Options
  import opened ChannelPaging
  import opened ChannelSubscription

  // ---------------------------------------------------------------- only what is addressed to it

  ghost predicate PagesAreTheHomes(w: World) {
    forall id | id in w.requests && w.requests[id].page.Some? ::
      forall m | m in w.requests[id].page.value.messages :: m in w.home
  }

  /** Each delivered id is that of a message of the home for this recipient. */
  ghost predicate OnlyAddressed(c: Config, w: World) {
    forall d | d in w.delivered :: exists m :: m in w.home && m.id == d && c.recipient in m.recipients
  }

  lemma NextOnlyAddressed(c: Config, w: World, step: Step)
    requires Ascending(w.home) && PagesAreTheHomes(w) && OnlyAddressed(c, w)
    ensures Ascending(Next(c, w, step).home) && PagesAreTheHomes(Next(c, w, step)) && OnlyAddressed(c, Next(c, w, step))
  {
    var w' := Next(c, w, step);
    if step.HomeCommits? && w'.home != w.home {
      AscendingNext(w.home, step.message);
      HomeGrows(c, w, w');
    }
    if step.Answer? && step.id in w.requests { ServedFromHome(c, w.home, w.requests[step.id].route.cursor); }
  }

  lemma HomeGrows(c: Config, w: World, w': World)
    requires PagesAreTheHomes(w) && OnlyAddressed(c, w) && w' == w.(home := w'.home)
    requires forall m | m in w.home :: m in w'.home
    ensures PagesAreTheHomes(w') && OnlyAddressed(c, w')
  {
    forall d | d in w'.delivered ensures exists m :: m in w'.home && m.id == d && c.recipient in m.recipients {
      var m :| m in w.home && m.id == d && c.recipient in m.recipients;
      assert m in w'.home;
    }
  }

  lemma AscendingNext(home: seq<Message>, m: Message)
    requires Ascending(home) && (home == [] || home[|home| - 1].cursor < m.cursor)
    ensures Ascending(home + [m])
  {
    forall i, j | 0 <= i < j < |home + [m]| ensures (home + [m])[i].cursor < (home + [m])[j].cursor {
      assert i < |home| - 1 ==> home[i].cursor < home[|home| - 1].cursor;
    }
  }

  lemma ServedFromHome(c: Config, home: seq<Message>, cursor: Cursor)
    requires Ascending(home)
    ensures forall m | m in Serve(c.fits, home, cursor).messages :: m in home
  {
    var page, rest := Serve(c.fits, home, cursor), After(home, cursor);
    PageIsExact(c.fits, home, cursor);
    AfterIsTheEnd(home, cursor);
    forall m | m in page.messages ensures m in home {
      assert m in rest;
      assert m in home[|home| - |rest|..];
    }
  }

  /** In every run, orderly or not, each id that is delivered is that of a message addressed to the recipient. */
  lemma {:induction false} DeliversOnlyAddressed(c: Config, steps: seq<Step>)
    ensures OnlyAddressed(c, Run(c, steps)) && Ascending(Run(c, steps).home) && PagesAreTheHomes(Run(c, steps))
  {
    if steps != [] {
      DeliversOnlyAddressed(c, steps[..|steps| - 1]);
      NextOnlyAddressed(c, Run(c, steps[..|steps| - 1]), steps[|steps| - 1]);
    }
  }

  // ---------------------------------------------------------------- one round

  lemma Extend(c: Config, steps: seq<Step>, step: Step) returns (longer: seq<Step>)
    requires OrderlyRun(c, steps) && !step.Upsert?
    ensures OrderlyRun(c, longer) && Run(c, longer) == Next(c, Run(c, steps), step)
  {
    longer := steps + [step];
    assert longer[..|steps|] == steps;
  }

  /** Request `id` for the stored route has its page, and `done` of its messages are done. */
  ghost predicate Handling(c: Config, w: World, w': World, id: nat, done: nat) {
    && w.route.Some?
    && w' == w.(requests := w'.requests, delivered := w'.delivered) && w.delivered <= w'.delivered
    && var page := Serve(c.fits, w.home, w.route.value.cursor);
       w'.requests == w.requests[id := Request(w.route.value, Some(page), done)] && done <= |page.messages|
  }

  lemma HandlesNext(c: Config, w: World, w1: World, id: nat, done: nat)
    requires Handling(c, w, w1, id, done) && done < |Serve(c.fits, w.home, w.route.value.cursor).messages|
    ensures Handling(c, w, Next(c, w1, Handle(id, Accepted)), id, done + 1)
  {
    var page := Serve(c.fits, w.home, w.route.value.cursor);
    var r := Request(w.route.value, Some(page), done);
    assert w1.requests[id] == r;
    assert Next(c, w1, Handle(id, Accepted)).requests == w1.requests[id := r.(done := done + 1)];
  }

  lemma AdvancesToTheEnd(c: Config, w: World, w1: World, id: nat)
    requires id !in w.requests && Ascending(w.home)
    requires w.route.Some? && Handling(c, w, w1, id, |Serve(c.fits, w.home, w.route.value.cursor).messages|)
    ensures var w' := Next(c, w1, Advance(id));
            && w'.home == w.home && w'.requests == w.requests && w.delivered <= w'.delivered
            && w'.route == Some(w.route.value.(cursor := Serve(c.fits, w.home, w.route.value.cursor).cursor))
  {
    PageIsExact(c.fits, w.home, w.route.value.cursor);
    assert w1.requests - {id} == w.requests;
  }

  lemma {:induction false} HandlesAll(c: Config, before: seq<Step>, w: World, id: nat, done: nat)
      returns (steps: seq<Step>)
    requires OrderlyRun(c, before) && Handling(c, w, Run(c, before), id, done)
    ensures OrderlyRun(c, steps)
    ensures Handling(c, w, Run(c, steps), id, |Serve(c.fits, w.home, w.route.value.cursor).messages|)
    decreases |Serve(c.fits, w.home, w.route.value.cursor).messages| - done
  {
    steps := before;
    if done < |Serve(c.fits, w.home, w.route.value.cursor).messages| {
      HandlesNext(c, w, Run(c, before), id, done);
      steps := Extend(c, before, Handle(id, Accepted));
      steps := HandlesAll(c, steps, w, id, done + 1);
    }
  }

  /** One undisturbed request moves the stored cursor to the end of its page. */
  lemma OneRound(c: Config, before: seq<Step>, id: nat) returns (steps: seq<Step>)
    requires OrderlyRun(c, before) && Run(c, before).route.Some? && id !in Run(c, before).requests
    ensures OrderlyRun(c, steps)
    ensures var w, w' := Run(c, before), Run(c, steps);
            && w'.home == w.home && w'.requests == w.requests && w.delivered <= w'.delivered
            && w'.route == Some(w.route.value.(cursor := Serve(c.fits, w.home, w.route.value.cursor).cursor))
  {
    var w := Run(c, before);
    DeliversOnlyAddressed(c, before);
    steps := Extend(c, before, Ask(id));
    steps := Extend(c, steps, Answer(id));
    steps := HandlesAll(c, steps, w, id, 0);
    AdvancesToTheEnd(c, w, Run(c, steps), id);
    steps := Extend(c, steps, Advance(id));
  }

  /**
   The subscription catches up. From every orderly run with a route, a number of undisturbed requests leads
   to a stored cursor with nothing after it, and then every message of the home above the initial cursor
   that is addressed to the recipient and not older than the route has been delivered.
   */
  lemma {:induction false} CatchesUp(c: Config, before: seq<Step>, id: nat) returns (steps: seq<Step>)
    requires OrderlyRun(c, before) && Run(c, before).route.Some? && id !in Run(c, before).requests
    ensures OrderlyRun(c, steps)
    ensures var w, w' := Run(c, before), Run(c, steps);
            && w'.home == w.home && w'.route.Some?
            && w'.route.value.initial == w.route.value.initial && w'.route.value.since == w.route.value.since
            && (forall m | m in w.home :: m.cursor <= w'.route.value.cursor)
            && (forall m | m in w.home && m.cursor > w.route.value.initial && m.occurredAt >= w.route.value.since
                  && c.recipient in m.recipients :: m.id in w'.delivered)
    decreases |After(Run(c, before).home, Run(c, before).route.value.cursor)|
  {
    var w := Run(c, before);
    var rest := After(w.home, w.route.value.cursor);
    DeliversOnlyAddressed(c, before);
    if rest == [] {
      steps := before;
      NothingAfter(w.home, w.route.value.cursor);
      SubscriptionNeverSkips(c, before);
      assert forall m | m in w.home && m.occurredAt >= w.route.value.since && c.recipient in m.recipients ::
          Wanted(c, w.route.value.since, m);
    } else {
      steps := OneRound(c, before, id);
      PageIsExact(c.fits, w.home, w.route.value.cursor);
      assert |After(w.home, Run(c, steps).route.value.cursor)| < |rest|;
      steps := CatchesUp(c, steps, id);
    }
  }

  lemma NothingAfter(home: seq<Message>, cursor: Cursor)
    requires Ascending(home) && After(home, cursor) == []
    ensures forall m | m in home :: m.cursor <= cursor
  {
    AfterIsTheEnd(home, cursor);
  }
}
