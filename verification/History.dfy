/** Paging backwards through a conversation: the server's pages and the cursor between them. */
module History {
  import opened Domain

  const MAX_MESSAGE_PAGE := 200
  const PAGE_SIZE := 50

  predicate IsBefore(message: Message, before: Option<nat>) {
    before.None? || (message.sequence.Some? && message.sequence.value < before.value)
  }

  predicate Shows(message: Message, expired: set<MessageId>, before: Option<nat>) {
    message.id !in expired && IsBefore(message, before)
  }

  function Filtered(log: seq<Message>, expired: set<MessageId>, before: Option<nat>): seq<Message> {
    if log == [] then []
    else
      var last := log[|log| - 1];
      Filtered(log[..|log| - 1], expired, before) + (if Shows(last, expired, before) then [last] else [])
  }

  /** Everything in a log that has not expired. */
  function Visible(log: seq<Message>, expired: set<MessageId>): seq<Message> {
    Filtered(log, expired, None)
  }

  function LastOf<T>(xs: seq<T>, n: nat): seq<T> {
    if |xs| <= n then xs else xs[|xs| - n..]
  }

  function Clamped(limit: int): nat {
    if limit < 1 then 1 else if limit > MAX_MESSAGE_PAGE then MAX_MESSAGE_PAGE else limit
  }

  /** The service's page: the newest messages before the cursor, oldest first. */
  function Page(log: seq<Message>, expired: set<MessageId>, before: Option<nat>, limit: int): seq<Message> {
    LastOf(Filtered(log, expired, before), Clamped(limit))
  }

  /** The cursor the server sends along: the sequence of the first item. */
  function SentCursor(items: seq<Message>): Option<nat> {
    if items == [] then None else items[0].sequence
  }

  /** `page_next_cursor`: a short page is the last one, and a cursor has to move backwards. */
  function NextCursor(items: seq<Message>, sent: Option<nat>, before: Option<nat>): Option<nat> {
    if |items| < PAGE_SIZE then None
    else if sent.Some? && (before.Some? ==> sent.value < before.value) then sent
    else None
  }

  /** Message i has sequence i + 1, and client ids do not repeat. */
  ghost predicate IsHistory(log: seq<Message>) {
    && (forall i :: 0 <= i < |log| ==> log[i].sequence == Some(i + 1))
    && HasDistinctKeys(log)
  }

  ghost predicate HasDistinctKeys(messages: seq<Message>) {
    forall i, j :: 0 <= i < j < |messages| ==> messages[i].clientId != messages[j].clientId
  }

  // ----- the filter -----

  lemma {:induction false} VisibleJoins(a: seq<Message>, b: seq<Message>, expired: set<MessageId>)
    ensures Visible(a + b, expired) == Visible(a, expired) + Visible(b, expired)
    decreases |b|
  {
    if b == [] {
      assert a + b == a;
    } else {
      assert (a + b)[..|a| + |b| - 1] == a + b[..|b| - 1];
      VisibleJoins(a, b[..|b| - 1], expired);
    }
  }

  lemma {:induction false} NothingExpired(log: seq<Message>, expired: set<MessageId>)
    requires forall m :: m in log ==> m.id !in expired
    ensures Visible(log, expired) == log
  {
    if log != [] {
      NothingExpired(log[..|log| - 1], expired);
    }
  }

  /** Filtering by a cursor is taking the log up to it. */
  lemma {:induction false} CursorIsPrefix(log: seq<Message>, expired: set<MessageId>, cursor: nat)
    requires forall i :: 0 <= i < |log| ==> log[i].sequence == Some(i + 1)
    requires 1 <= cursor
    ensures Filtered(log, expired, Some(cursor)) == Visible(if cursor - 1 <= |log| then log[..cursor - 1] else log, expired)
  {
    if log != [] {
      var n := |log| - 1;
      CursorIsPrefix(log[..n], expired, cursor);
      if cursor - 1 <= n {
        assert log[..n][..cursor - 1] == log[..cursor - 1];
      } else {
        assert cursor - 1 <= |log| ==> log[..cursor - 1] == log;
      }
    }
  }

  /** Each visible message sits at a place in the log that has exactly the earlier visible ones before it. */
  lemma {:induction false} VisibleAt(log: seq<Message>, expired: set<MessageId>, k: nat) returns (j: nat)
    requires k < |Visible(log, expired)|
    ensures j < |log| && log[j] == Visible(log, expired)[k] && Visible(log[..j], expired) == Visible(log, expired)[..k]
  {
    var n := |log| - 1;
    if k < |Visible(log[..n], expired)| {
      j := VisibleAt(log[..n], expired, k);
      assert log[..n][..j] == log[..j];
      assert Visible(log, expired)[..k] == Visible(log[..n], expired)[..k];
    } else {
      j := n;
    }
  }

  lemma {:induction false} VisibleIsSublist(log: seq<Message>, expired: set<MessageId>)
    requires HasDistinctKeys(log)
    ensures HasDistinctKeys(Visible(log, expired))
    ensures forall m :: m in Visible(log, expired) <==> m in log && m.id !in expired
  {
    if log != [] {
      var n := |log| - 1;
      VisibleIsSublist(log[..n], expired);
      assert log == log[..n] + [log[n]];
      forall m | m in Visible(log[..n], expired) ensures m.clientId != log[n].clientId {
        var i :| 0 <= i < n && log[..n][i] == m;
        assert log[i] == m;
      }
    }
  }

  /** The messages a cursor leaves to load. */
  function Left(log: seq<Message>, cursor: Option<nat>): seq<Message> {
    if cursor.None? then log else if 1 <= cursor.value && cursor.value - 1 <= |log| then log[..cursor.value - 1] else log
  }

  ghost predicate IsCursor(log: seq<Message>, cursor: Option<nat>) {
    cursor.Some? ==> 1 <= cursor.value <= |log|
  }

  /** One page takes the newest messages off what is left: the next cursor leaves exactly the rest, or nothing is left. */
  lemma PageTakesTheNewest(log: seq<Message>, expired: set<MessageId>, before: Option<nat>)
    requires IsHistory(log) && IsCursor(log, before)
    ensures var items := Page(log, expired, before, PAGE_SIZE);
            var next := NextCursor(items, SentCursor(items), before);
            && IsCursor(log, next)
            && (next.None? ==> items == Visible(Left(log, before), expired))
            && (next.Some? ==> && Visible(Left(log, before), expired) == Visible(Left(log, next), expired) + items
                               && (before.Some? ==> next.value < before.value))
  {
    var left := Left(log, before);
    if before.Some? {
      CursorIsPrefix(log, expired, before.value);
    }
    var all := Visible(left, expired);
    var items := Page(log, expired, before, PAGE_SIZE);
    assert items == LastOf(all, PAGE_SIZE);
    if |items| == PAGE_SIZE {
      var j := VisibleAt(left, expired, |all| - PAGE_SIZE);
      assert left[j] == items[0] && left[j] == log[j];
      assert left[..j] == log[..j];
      assert all == all[..|all| - PAGE_SIZE] + items;
    }
  }

  /** A page is as long as it may be: the newest messages before the cursor that have not expired, as many as asked for, between
      one and two hundred, or all there are. */
  lemma PageIsFull(log: seq<Message>, expired: set<MessageId>, before: Option<nat>, limit: int)
    ensures var all := Filtered(log, expired, before);
            var size := if limit < 1 then 1 else if limit > 200 then 200 else limit;
            Page(log, expired, before, limit) == if |all| <= size then all else all[|all| - size..]
  {
  }

  /** What a page chooses from: exactly the unexpired messages with a sequence below the cursor. */
  lemma {:induction false} FilterIsExact(log: seq<Message>, expired: set<MessageId>, before: Option<nat>)
    ensures forall m :: m in Filtered(log, expired, before) <==>
                          && m in log && m.id !in expired
                          && (before.Some? ==> m.sequence.Some? && m.sequence.value < before.value)
  {
    if log != [] {
      FilterIsExact(log[..|log| - 1], expired, before);
      assert log == log[..|log| - 1] + [log[|log| - 1]];
    }
  }
}
