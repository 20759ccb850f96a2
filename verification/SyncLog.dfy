/** Reading the global event log in pages, and the client's catch-up loop over them. */
module SyncLog {
  import opened Domain
  import opened ServerState
  import opened ServerInvariants

  const MAX_SYNC_PAGE := 500
  const CATCH_UP_PAGE := 200

  datatype Page = Page(events: seq<Event>, next: nat, hasMore: bool)

  predicate IsFor(entry: UserEvent, user: UserId, after: nat) {
    entry.event.cursor > after && user in entry.recipients
  }

  /** The plain filter: a user's events above a cursor, in log order. */
  function Addressed(log: seq<UserEvent>, user: UserId, after: nat): seq<Event> {
    if log == [] then []
    else
      var last := log[|log| - 1];
      Addressed(log[..|log| - 1], user, after) + (if IsFor(last, user, after) then [last.event] else [])
  }

  function Clamp(n: int, low: nat, high: nat): nat
    requires low <= high
  {
    if n < low then low else if n > high then high else n
  }

  function LastCursor(events: seq<Event>, default: nat): nat {
    if events == [] then default else events[|events| - 1].cursor
  }

  function Take<T>(xs: seq<T>, n: nat): seq<T> {
    if |xs| <= n then xs else xs[..n]
  }

  /** One page: one event more than the limit is read to find out whether there is another page. */
  function Sync(log: seq<UserEvent>, user: UserId, after: nat, limit: int): Page {
    var size := Clamp(limit, 1, MAX_SYNC_PAGE);
    var read := Take(Addressed(log, user, after), size + 1);
    var events := Take(read, size);
    Page(events, LastCursor(events, after), |read| > size)
  }

  // ----- the filter -----

  ghost predicate Increasing(events: seq<Event>) {
    forall i, j :: 0 <= i < j < |events| ==> events[i].cursor < events[j].cursor
  }

  ghost predicate Within(events: seq<Event>, low: nat, high: nat) {
    forall i :: 0 <= i < |events| ==> low < events[i].cursor <= high
  }

  /** The log of a store that keeps its invariant: event i has cursor i + 1. */
  ghost predicate IsLog(log: seq<UserEvent>) {
    SyncInv(log, |log|)
  }

  /** The filter holds exactly the user's events above the cursor, each once, in increasing order. */
  lemma {:induction false} AddressedIsExact(log: seq<UserEvent>, user: UserId, after: nat)
    requires IsLog(log)
    ensures Increasing(Addressed(log, user, after)) && Within(Addressed(log, user, after), after, |log|)
    ensures forall e :: e in Addressed(log, user, after) <==>
                          exists i: nat :: i < |log| && log[i].event == e && IsFor(log[i], user, after)
  {
    if log != [] {
      var n := |log| - 1;
      AddressedIsExact(log[..n], user, after);
      assert forall i: nat :: i < n ==> log[i] == log[..n][i];
    }
  }

  /** Publishing an event adds it, at the end, to what each of its recipients will read and changes nothing for anybody
      else, wherever they have got to. */
  lemma PublishedIsAddressed(s: State, recipients: set<UserId>, body: EventBody, now: Time, user: UserId, after: nat)
    requires SyncInv(s.events, s.cursor) && after <= s.cursor
    ensures var t := Publish(s, recipients, body, now);
            && SyncInv(t.events, t.cursor) && t == s.(events := t.events, cursor := t.cursor)
            && Addressed(t.events, user, after)
               == Addressed(s.events, user, after) + (if user in recipients then [Event(s.cursor + 1, body, now)] else [])
  {
    var t := Publish(s, recipients, body, now);
    assert t.events[..|t.events| - 1] == s.events;
  }

  lemma {:induction false} NothingAbove(log: seq<UserEvent>, user: UserId, after: nat)
    requires IsLog(log) && |log| <= after
    ensures Addressed(log, user, after) == []
  {
    if log != [] {
      NothingAbove(log[..|log| - 1], user, after);
    }
  }

  lemma {:induction false} NothingFor(log: seq<UserEvent>, user: UserId, after: nat)
    ensures Addressed(log, user, after) == [] <==> forall i: nat :: i < |log| ==> !IsFor(log[i], user, after)
  {
    if log != [] {
      var n := |log| - 1;
      NothingFor(log[..n], user, after);
      assert forall i: nat :: i < n ==> log[..n][i] == log[i];
    }
  }

  /** Everything above a cursor is what is above it up to a later cursor, then what is above the later one. */
  lemma {:induction false} AddressedSplits(log: seq<UserEvent>, user: UserId, after: nat, middle: nat)
    requires IsLog(log) && after <= middle <= |log|
    ensures Addressed(log, user, after) == Addressed(log[..middle], user, after) + Addressed(log, user, middle)
  {
    var n := |log|;
    if middle == n {
      assert log[..middle] == log;
      NothingAbove(log, user, n);
    } else {
      AddressedSplits(log[..n - 1], user, after, middle);
      assert log[..n - 1][..middle] == log[..middle];
    }
  }

  /** Each event the filter gives sits at a place in the log that has exactly the earlier ones before it. */
  lemma {:induction false} AddressedAt(log: seq<UserEvent>, user: UserId, after: nat, k: nat) returns (j: nat)
    requires k < |Addressed(log, user, after)|
    ensures j < |log| && log[j].event == Addressed(log, user, after)[k] && IsFor(log[j], user, after)
    ensures Addressed(log[..j + 1], user, after) == Addressed(log, user, after)[..k + 1]
  {
    var n := |log| - 1;
    var before := Addressed(log[..n], user, after);
    if k < |before| {
      j := AddressedAt(log[..n], user, after, k);
      assert log[..n][..j + 1] == log[..j + 1];
      assert Addressed(log, user, after)[..k + 1] == before[..k + 1];
    } else {
      j := n;
      assert log[..n + 1] == log;
      assert Addressed(log, user, after)[..k + 1] == Addressed(log, user, after);
    }
  }

  lemma PrefixSplits(log: seq<UserEvent>, user: UserId, after: nat, k: nat)
    requires IsLog(log) && after <= |log| && 0 < k <= |Addressed(log, user, after)|
    ensures var all := Addressed(log, user, after);
            var next := all[k - 1].cursor;
            && after < next <= |log|
            && all[..k] == Addressed(log[..next], user, after)
            && all == all[..k] + Addressed(log, user, next)
  {
    var j := AddressedAt(log, user, after, k - 1);
    assert Addressed(log, user, after)[k - 1].cursor == j + 1;
    AddressedSplits(log, user, after, j + 1);
  }

  /** What a page takes of the filter's result. */
  lemma SyncTakes(log: seq<UserEvent>, user: UserId, after: nat, limit: int) returns (n: nat)
    ensures var all := Addressed(log, user, after);
            var page := Sync(log, user, after, limit);
            && n <= |all| && n <= MAX_SYNC_PAGE && (n == 0 ==> |all| == 0)
            && page.events == all[..n] && (page.hasMore <==> n < |all|)
            && page.next == if n == 0 then after else all[n - 1].cursor
  {
    n := |Sync(log, user, after, limit).events|;
  }

  /** A page is the beginning of what the filter gives, and the rest is what the filter gives above its last cursor;
      there is a rest exactly when the page says so. */
  lemma PageSplits(log: seq<UserEvent>, user: UserId, after: nat, limit: int)
    requires IsLog(log) && after <= |log|
    ensures var page := Sync(log, user, after, limit);
            && Addressed(log, user, after) == page.events + Addressed(log, user, page.next)
            && after <= page.next <= |log|
            && page.events == Addressed(log[..page.next], user, after)
            && (page.hasMore <==> Addressed(log, user, page.next) != [])
            && |page.events| <= MAX_SYNC_PAGE && (page.events == [] ==> Addressed(log, user, after) == [])
  {
    var n := SyncTakes(log, user, after, limit);
    if n == 0 {
      NothingAbove(log[..after], user, after);
    } else {
      PrefixSplits(log, user, after, n);
    }
  }

  /** A page is as long as it may be: as many events as asked for, between one and five hundred, or all there are. */
  lemma PageIsFull(log: seq<UserEvent>, user: UserId, after: nat, limit: int)
    ensures var all := Addressed(log, user, after);
            var size := if limit < 1 then 1 else if limit > 500 then 500 else limit;
            && Sync(log, user, after, limit).events == (if |all| <= size then all else all[..size])
            && (Sync(log, user, after, limit).hasMore <==> |all| > size)
  {
  }

  // ----- the catch-up loop -----

  method Emit(events: seq<Event>, start: nat) returns (emitted: seq<Event>, cursor: nat)
    requires Increasing(events) && forall e :: e in events ==> start < e.cursor
    ensures emitted == events && cursor == LastCursor(events, start)
  {
    emitted, cursor := [], start;
    for i := 0 to |events|
      invariant emitted == events[..i] && cursor == LastCursor(events[..i], start)
    {
      cursor := Max(cursor, events[i].cursor);
      emitted := emitted + [events[i]];
    }
  }

  /** A server log that only grows: request k reads `feed(k)`. */
  ghost predicate IsFeed(feed: nat -> seq<UserEvent>) {
    IsLog(feed(0)) && forall k: nat :: Extends(feed(k), feed(k + 1))
  }

  ghost predicate Extends(log: seq<UserEvent>, grown: seq<UserEvent>) {
    log <= grown && IsLog(grown)
  }

  ghost predicate StandsStill(feed: nat -> seq<UserEvent>) {
    forall k: nat :: feed(k) == feed(0)
  }

  /** Everything from the start up to a cursor has been emitted. */
  ghost predicate IsUpTo(log: seq<UserEvent>, user: UserId, start: nat, emitted: seq<Event>, cursor: nat) {
    start <= cursor <= |log| && cursor == LastCursor(emitted, start) && emitted == Addressed(log[..cursor], user, start)
  }

  lemma UpToGrows(log: seq<UserEvent>, user: UserId, start: nat, emitted: seq<Event>, cursor: nat, events: seq<Event>, next: nat)
    requires IsLog(log) && IsUpTo(log, user, start, emitted, cursor) && cursor <= next <= |log|
    requires events == Addressed(log[..next], user, cursor) && next == LastCursor(events, cursor)
    ensures IsUpTo(log, user, start, emitted + events, next)
  {
    JoinEnds(emitted, events, start);
    AddressedSplits(log[..next], user, start, cursor);
    assert log[..next][..cursor] == log[..cursor];
  }

  lemma UpToExtends(log: seq<UserEvent>, grown: seq<UserEvent>, user: UserId, start: nat, emitted: seq<Event>, cursor: nat)
    requires IsUpTo(log, user, start, emitted, cursor) && Extends(log, grown)
    ensures IsUpTo(grown, user, start, emitted, cursor)
  {
    assert log[..cursor] == grown[..cursor];
  }

  lemma PageEndsAtLast(log: seq<UserEvent>, user: UserId, after: nat, limit: int)
    requires IsLog(log) && after <= |log|
    ensures var page := Sync(log, user, after, limit);
            && LastCursor(page.events, after) == page.next
            && (page.hasMore ==> |Addressed(log, user, page.next)| < |Addressed(log, user, after)|)
  {
    PageSplits(log, user, after, limit);
  }

  /** A page emits what comes next, whatever is appended to the log afterwards. */
  lemma PageExtends(log: seq<UserEvent>, grown: seq<UserEvent>, user: UserId, start: nat, emitted: seq<Event>, cursor: nat,
                    limit: int)
    requires IsLog(log) && Extends(log, grown) && IsUpTo(log, user, start, emitted, cursor)
    ensures var page := Sync(log, user, cursor, limit);
            && Increasing(page.events) && (forall e :: e in page.events ==> cursor < e.cursor)
            && LastCursor(page.events, cursor) == page.next
            && IsUpTo(log, user, start, emitted + page.events, page.next)
            && IsUpTo(grown, user, start, emitted + page.events, page.next)
            && (page.hasMore <==> Addressed(log, user, page.next) != [])
            && (page.hasMore ==> |Addressed(log, user, page.next)| < |Addressed(log, user, cursor)|)
  {
    var page := Sync(log, user, cursor, limit);
    PageSplits(log, user, cursor, limit);
    PageIsIncreasing(log, user, cursor, limit);
    PageEndsAtLast(log, user, cursor, limit);
    UpToGrows(log, user, start, emitted, cursor, page.events, page.next);
    UpToExtends(log, grown, user, start, emitted + page.events, page.next);
  }

  lemma NothingLeft(log: seq<UserEvent>, user: UserId, start: nat, emitted: seq<Event>, cursor: nat)
    requires IsLog(log) && IsUpTo(log, user, start, emitted, cursor) && Addressed(log, user, cursor) == []
    ensures emitted == Addressed(log, user, start)
  {
    AddressedSplits(log, user, start, cursor);
  }

  /** `catch_up`, whatever page size is asked for, while the log grows, and with the connection lost after `allowed` requests.
      At every moment it has emitted exactly the user's events from the start up to its cursor, once each and in order; if it
      ends, these are all the events of the log its last request saw. It does end unless the connection is lost or the log
      keeps growing. */
  method CatchUp(feed: nat -> seq<UserEvent>, allowed: nat, user: UserId, start: nat, limit: int)
    returns (emitted: seq<Event>, cursor: nat, requests: nat, done: bool)
    requires IsFeed(feed) && start <= |feed(0)|
    ensures requests <= allowed && IsLog(feed(requests)) && IsUpTo(feed(requests), user, start, emitted, cursor)
    ensures done ==> 0 < requests && emitted == Addressed(feed(requests - 1), user, start)
                     && Addressed(feed(requests - 1), user, cursor) == []
    ensures StandsStill(feed) && allowed > |Addressed(feed(0), user, start)| ==> done
  {
    emitted, cursor, requests, done := [], start, 0, false;
    NothingAbove(feed(0)[..start], user, start);
    while !done && requests < allowed
      invariant requests <= allowed && IsLog(feed(requests)) && IsUpTo(feed(requests), user, start, emitted, cursor)
      invariant done ==> 0 < requests && emitted == Addressed(feed(requests - 1), user, start)
                         && Addressed(feed(requests - 1), user, cursor) == []
      invariant StandsStill(feed) && !done ==>
                  |Addressed(feed(0), user, cursor)| + requests <= |Addressed(feed(0), user, start)|
    {
      var log := feed(requests);
      assert Extends(feed(requests), feed(requests + 1));
      var page := Sync(log, user, cursor, limit);
      PageExtends(log, feed(requests + 1), user, start, emitted, cursor, limit);
      var sent, reached := Emit(page.events, cursor);
      emitted, cursor, requests := emitted + sent, Max(reached, page.next), requests + 1;
      done := !page.hasMore;
      if done {
        NothingLeft(log, user, start, emitted, cursor);
      }
    }
  }

  lemma PageIsIncreasing(log: seq<UserEvent>, user: UserId, after: nat, limit: int)
    requires IsLog(log)
    ensures var page := Sync(log, user, after, limit);
            Increasing(page.events) && forall e :: e in page.events ==> after < e.cursor
  {
    AddressedIsExact(log, user, after);
  }

  lemma JoinEnds(a: seq<Event>, b: seq<Event>, start: nat)
    ensures LastCursor(a + b, start) == LastCursor(b, LastCursor(a, start))
  {
    if b == [] {
      assert a + b == a;
    }
  }
}
