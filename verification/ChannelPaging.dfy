/** Pages of a channel's message log, as its home serves them. */
module ChannelPaging {
  type Cursor = nat

  /** A committed message: its place in the home's change log and what a subscriber looks at. */
  datatype Message = Message(cursor: Cursor, id: string, occurredAt: int, recipients: set<string>)

  datatype Page = Page(cursor: Cursor, messages: seq<Message>, hasMore: bool)

  const MESSAGE_PAGE_LIMIT := 20

  /** The log of one channel: cursors only grow. */
  predicate Ascending(log: seq<Message>) {
    forall i, j | 0 <= i < j < |log| :: log[i].cursor < log[j].cursor
  }

  function After(log: seq<Message>, cursor: Cursor): seq<Message> {
    if log == [] then []
    else if log[0].cursor > cursor then log
    else After(log[1..], cursor)
  }

  /** The rows of the query: the first `limit` messages after the cursor. */
  function Replay(log: seq<Message>, cursor: Cursor, limit: nat): seq<Message> {
    var rest := After(log, cursor);
    if |rest| <= limit then rest else rest[..limit]
  }

  /** How many of the rows go into the page: at least one, and then as long as the encoded page is within the bound. */
  function Taken(fits: seq<Message> -> bool, rows: seq<Message>, n: nat): (k: nat)
    requires n <= |rows| && n <= MESSAGE_PAGE_LIMIT
    ensures n <= k <= |rows| && k <= MESSAGE_PAGE_LIMIT && (rows != [] ==> k > 0)
    decreases |rows| - n
  {
    if n < |rows| && n < MESSAGE_PAGE_LIMIT && (n == 0 || fits(rows[..n + 1])) then Taken(fits, rows, n + 1) else n
  }

  function PageOf(fits: seq<Message> -> bool, rows: seq<Message>, after: Cursor): Page {
    var k := Taken(fits, rows, 0);
    Page(if k == 0 then after else rows[k - 1].cursor, rows[..k], |rows| > k)
  }

  /** `channelMessagePage`: grows the page until the next message would make it too large. */
  method ChannelMessagePage(fits: seq<Message> -> bool, rows: seq<Message>, after: Cursor) returns (page: Page)
    ensures page == PageOf(fits, rows, after)
  {
    var taken: seq<Message> := [];
    var i := 0;
    while i < |rows| && i < MESSAGE_PAGE_LIMIT
      invariant i <= |rows| && i <= MESSAGE_PAGE_LIMIT && taken == rows[..i]
      invariant Taken(fits, rows, i) == Taken(fits, rows, 0)
    {
      var candidate := taken + [rows[i]];
      assert candidate == rows[..i + 1];
      if |taken| > 0 && !fits(candidate) { break; }
      taken := candidate;
      i := i + 1;
    }
    page := Page(if taken == [] then after else taken[|taken| - 1].cursor, taken, |rows| > |taken|);
  }

  /** What the home answers to a request after `cursor`. */
  function Serve(fits: seq<Message> -> bool, log: seq<Message>, cursor: Cursor): Page {
    PageOf(fits, Replay(log, cursor, MESSAGE_PAGE_LIMIT + 1), cursor)
  }

  // ---------------------------------------------------------------- what is after a cursor

  /** Exactly the messages above the cursor, in order: the end of the log. */
  lemma {:induction false} AfterIsTheEnd(log: seq<Message>, cursor: Cursor)
    requires Ascending(log)
    ensures var rest := After(log, cursor);
            && |rest| <= |log| && log[|log| - |rest|..] == rest
            && (forall i | 0 <= i < |log| - |rest| :: log[i].cursor <= cursor)
            && (forall i | 0 <= i < |rest| :: rest[i].cursor > cursor)
            && Ascending(rest)
  {
    if log != [] && log[0].cursor <= cursor {
      AfterIsTheEnd(log[1..], cursor);
      var rest := After(log, cursor);
      assert log[1..][|log| - 1 - |rest|..] == log[|log| - |rest|..];
      assert forall i | 0 < i < |log| - |rest| :: log[i] == log[1..][i - 1];
    }
  }

  /** Going on from a message of the rest leaves exactly what follows it. */
  lemma {:induction false} AfterOfAfter(log: seq<Message>, cursor: Cursor, k: nat)
    requires Ascending(log) && 0 < k <= |After(log, cursor)|
    ensures After(log, After(log, cursor)[k - 1].cursor) == After(log, cursor)[k..]
  {
    var rest := After(log, cursor);
    AfterIsTheEnd(log, cursor);
    var base := |log| - |rest|;
    EndSplits(log, rest, base, k);
    assert forall i | 0 <= i < base + k :: log[i].cursor <= log[base + k - 1].cursor;
    AfterFrom(log, rest[k - 1].cursor, base + k);
  }

  lemma EndSplits(log: seq<Message>, rest: seq<Message>, base: nat, k: nat)
    requires base <= |log| && rest == log[base..] && 0 < k <= |rest|
    ensures rest[k - 1] == log[base + k - 1] && rest[k..] == log[base + k..]
  {
  }

  lemma {:induction false} AfterFrom(log: seq<Message>, cursor: Cursor, at: nat)
    requires at <= |log| && (forall i | 0 <= i < at :: log[i].cursor <= cursor)
    requires at < |log| ==> log[at].cursor > cursor
    ensures After(log, cursor) == log[at..]
    decreases at
  {
    if at > 0 {
      assert log[1..][at - 1..] == log[at..];
      AfterFrom(log[1..], cursor, at - 1);
    }
  }

  // ---------------------------------------------------------------- pages

  lemma RowsAreAPrefix(rest: seq<Message>, rows: seq<Message>, k: nat)
    requires rows == (if |rest| <= MESSAGE_PAGE_LIMIT + 1 then rest else rest[..MESSAGE_PAGE_LIMIT + 1])
    requires k <= |rows| && k <= MESSAGE_PAGE_LIMIT
    ensures k <= |rest| && rows[..k] == rest[..k] && (k > 0 ==> rows[k - 1] == rest[k - 1])
    ensures |rows| > k <==> |rest| > k
    ensures rows == [] <==> rest == []
  {
  }

  /**
   A page is an exact beginning of what is left: it is empty only if nothing is left, says `hasMore`
   exactly when something is left after it, and its cursor leads to exactly the rest.
   */
  lemma PageIsExact(fits: seq<Message> -> bool, log: seq<Message>, cursor: Cursor)
    requires Ascending(log)
    ensures var page := Serve(fits, log, cursor);
            var rest := After(log, cursor);
            && |page.messages| <= |rest| && |page.messages| <= MESSAGE_PAGE_LIMIT
               && page.messages == rest[..|page.messages|]
            && (rest != [] ==> page.messages != [])
            && (page.hasMore <==> |page.messages| < |rest|)
            && After(log, page.cursor) == rest[|page.messages|..]
            && page.cursor >= cursor
  {
    var rest := After(log, cursor);
    var rows := Replay(log, cursor, MESSAGE_PAGE_LIMIT + 1);
    var k := Taken(fits, rows, 0);
    AfterIsTheEnd(log, cursor);
    RowsAreAPrefix(rest, rows, k);
    if k > 0 { AfterOfAfter(log, cursor, k); }
  }

  /** The size bound decides where the rows are cut, and nothing else but the limit does. */
  lemma {:induction false} TakenIsMaximal(fits: seq<Message> -> bool, rows: seq<Message>, n: nat)
    requires n <= |rows| && n <= MESSAGE_PAGE_LIMIT && (n > 1 ==> fits(rows[..n]))
    ensures var k := Taken(fits, rows, n);
            && (k > 1 ==> fits(rows[..k]))
            && (k < |rows| && k < 20 ==> k > 0 && !fits(rows[..k + 1]))
    decreases |rows| - n
  {
    if n < |rows| && n < MESSAGE_PAGE_LIMIT && (n == 0 || fits(rows[..n + 1])) { TakenIsMaximal(fits, rows, n + 1); }
  }

  /**
   A page keeps the size bound and makes the most of it: more than one message only if together they fit;
   and with something left over, either twenty messages or as many that the next one would not fit.
   */
  lemma PageFits(fits: seq<Message> -> bool, log: seq<Message>, cursor: Cursor)
    requires Ascending(log)
    ensures var messages := Serve(fits, log, cursor).messages;
            var rest := After(log, cursor);
            && |messages| <= |rest| && messages == rest[..|messages|]
            && (|messages| > 1 ==> fits(messages))
            && (|messages| < |rest| && |messages| < 20 ==> messages != [] && !fits(rest[..|messages| + 1]))
  {
    var rest := After(log, cursor);
    var rows := Replay(log, cursor, MESSAGE_PAGE_LIMIT + 1);
    var k := Taken(fits, rows, 0);
    PageIsExact(fits, log, cursor);
    TakenIsMaximal(fits, rows, 0);
    if k < |rest| && k < 20 {
      assert rows[..k + 1] == rest[..k + 1];
    }
  }

  /** With a bound in bytes that every message meets on its own, every page that is sent is within it. */
  lemma PageIsWithinBytes(fits: seq<Message> -> bool, size: seq<Message> -> nat, bound: nat, log: seq<Message>,
      cursor: Cursor)
    requires Ascending(log) && forall messages: seq<Message> :: fits(messages) <==> size(messages) <= bound
    requires forall m | m in log :: size([m]) <= bound
    ensures var messages := Serve(fits, log, cursor).messages; messages != [] ==> size(messages) <= bound
  {
    var messages := Serve(fits, log, cursor).messages;
    var rest := After(log, cursor);
    PageFits(fits, log, cursor);
    AfterIsTheEnd(log, cursor);
    if |messages| == 1 {
      assert messages == [log[|log| - |rest|]];
    }
  }

  /** One more page: what has been read and what is left are still the whole remainder, and less is left. */
  lemma PageAdvances(fits: seq<Message> -> bool, log: seq<Message>, messages: seq<Message>, cursor: Cursor)
    requires Ascending(log)
    ensures var page := Serve(fits, log, cursor);
            && messages + After(log, cursor) == messages + page.messages + After(log, page.cursor)
            && (page.hasMore ==> |After(log, page.cursor)| < |After(log, cursor)|)
            && (!page.hasMore ==> After(log, page.cursor) == [])
  {
    PageIsExact(fits, log, cursor);
    Regroup(messages, After(log, cursor), |Serve(fits, log, cursor).messages|);
  }

  lemma Regroup(messages: seq<Message>, rest: seq<Message>, k: nat)
    requires k <= |rest|
    ensures messages + rest == messages + rest[..k] + rest[k..]
  {
    assert rest == rest[..k] + rest[k..];
  }

  /** Follows page cursors until the home says that nothing more is there. */
  method DrainLog(fits: seq<Message> -> bool, log: seq<Message>, cursor: Cursor)
      returns (messages: seq<Message>, last: Cursor)
    requires Ascending(log)
    ensures messages == After(log, cursor) && After(log, last) == [] && last >= cursor
  {
    messages := [];
    last := cursor;
    var more := true;
    while more
      invariant messages + After(log, last) == After(log, cursor) && last >= cursor
      invariant !more ==> After(log, last) == []
      decreases if more then 1 + |After(log, last)| else 0
    {
      PageAdvances(fits, log, messages, last);
      PageIsExact(fits, log, last);
      var page := Serve(fits, log, last);
      messages := messages + page.messages;
      last := page.cursor;
      more := page.hasMore;
    }
  }
}
