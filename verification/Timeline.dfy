/** The open conversation on screen: a first page with the unsent messages after it, older pages put in front,
    and live messages replaced in place or added at the end. */
module Timeline {
  import opened Domain
  import opened History

  // ----- ordering -----

  /** Sequence order with unsequenced messages last, then creation time. */
  predicate NotAfter(a: Message, b: Message) {
    match (a.sequence, b.sequence)
    case (Some(x), Some(y)) => x < y || (x == y && a.createdAt <= b.createdAt)
    case (Some(_), None) => true
    case (None, Some(_)) => false
    case (None, None) => a.createdAt <= b.createdAt
  }

  /** A stable insertion: after everything that is not after the new message. */
  function Insert(sorted: seq<Message>, message: Message): seq<Message> {
    if sorted == [] then [message]
    else
      var n := |sorted| - 1;
      if NotAfter(sorted[n], message) then sorted + [message] else Insert(sorted[..n], message) + [sorted[n]]
  }

  function Sort(messages: seq<Message>): seq<Message> {
    if messages == [] then [] else Insert(Sort(messages[..|messages| - 1]), messages[|messages| - 1])
  }

  ghost predicate IsSorted(messages: seq<Message>) {
    forall i, j :: 0 <= i < j < |messages| ==> NotAfter(messages[i], messages[j])
  }

  lemma {:induction false} InsertPermutes(sorted: seq<Message>, message: Message)
    ensures multiset(Insert(sorted, message)) == multiset(sorted) + multiset{message}
  {
    if sorted != [] {
      var n := |sorted| - 1;
      assert sorted == sorted[..n] + [sorted[n]];
      InsertPermutes(sorted[..n], message);
    }
  }

  lemma {:induction false} InsertSorts(sorted: seq<Message>, message: Message)
    requires IsSorted(sorted)
    ensures IsSorted(Insert(sorted, message))
    ensures forall m :: m in Insert(sorted, message) ==> m in sorted || m == message
  {
    if sorted != [] {
      var n := |sorted| - 1;
      InsertSorts(sorted[..n], message);
      var before := Insert(sorted[..n], message);
      if NotAfter(sorted[n], message) {
        assert forall i :: 0 <= i < n ==> NotAfter(sorted[i], sorted[n]);
      } else {
        forall i | 0 <= i < |before| ensures NotAfter(before[i], sorted[n]) {
          assert before[i] in before;
        }
      }
    }
  }

  lemma LastOfMultiset(messages: seq<Message>)
    requires messages != []
    ensures multiset(messages) == multiset(messages[..|messages| - 1]) + multiset{messages[|messages| - 1]}
  {
    assert messages == messages[..|messages| - 1] + [messages[|messages| - 1]];
  }

  lemma {:induction false} SortPermutes(messages: seq<Message>)
    ensures multiset(Sort(messages)) == multiset(messages)
  {
    if messages != [] {
      var n := |messages| - 1;
      SortPermutes(messages[..n]);
      InsertPermutes(Sort(messages[..n]), messages[n]);
      LastOfMultiset(messages);
    }
  }

  lemma {:induction false} SortSorts(messages: seq<Message>)
    ensures IsSorted(Sort(messages))
  {
    if messages != [] {
      SortSorts(messages[..|messages| - 1]);
      InsertSorts(Sort(messages[..|messages| - 1]), messages[|messages| - 1]);
    }
  }

  /** The timeline's order: by sequence, the messages without one last, and those by creation time. */
  lemma TimelineIsOrdered(messages: seq<Message>, i: nat, j: nat)
    requires i < j < |messages|
    ensures |Sort(messages)| == |messages|
    ensures var a, b := Sort(messages)[i], Sort(messages)[j];
            && (b.sequence.Some? ==> a.sequence.Some? && a.sequence.value <= b.sequence.value)
            && (a.sequence == b.sequence ==> a.createdAt <= b.createdAt)
  {
    SortSorts(messages);
    SortPermutes(messages);
    assert |Sort(messages)| == |multiset(Sort(messages))| == |messages|;
    assert NotAfter(Sort(messages)[i], Sort(messages)[j]);
  }

  /** Sorting what is already in order changes nothing. */
  lemma {:induction false} SortFixes(messages: seq<Message>)
    requires IsSorted(messages)
    ensures Sort(messages) == messages
  {
    if messages != [] {
      var n := |messages| - 1;
      SortFixes(messages[..n]);
      assert messages == messages[..n] + [messages[n]];
      assert n > 0 ==> NotAfter(messages[n - 1], messages[n]);
    }
  }

  ghost predicate ComesLast(first: seq<Message>, message: Message) {
    forall a :: a in first ==> NotAfter(a, message)
  }

  ghost predicate AllComeLast(first: seq<Message>, rest: seq<Message>) {
    forall i :: 0 <= i < |rest| ==> ComesLast(first, rest[i])
  }

  /** Messages that all come after a sorted list are sorted on their own. */
  lemma {:induction false} SortKeepsOrder(first: seq<Message>, rest: seq<Message>)
    requires IsSorted(first) && AllComeLast(first, rest)
    ensures Sort(first + rest) == first + Sort(rest)
    decreases |rest|
  {
    if rest == [] {
      assert first + rest == first;
      SortFixes(first);
    } else {
      var k := |rest| - 1;
      SortKeepsOrder(first, rest[..k]);
      SortOfLonger(first + rest[..k], rest[k]);
      assert first + rest[..k] + [rest[k]] == first + rest;
      InsertAfter(first, Sort(rest[..k]), rest[k]);
    }
  }

  lemma SortOfLonger(messages: seq<Message>, message: Message)
    ensures Sort(messages + [message]) == Insert(Sort(messages), message)
  {
    var all := messages + [message];
    assert all[..|all| - 1] == messages && all[|all| - 1] == message;
  }

  lemma {:induction false} InsertAfter(first: seq<Message>, sorted: seq<Message>, message: Message)
    requires ComesLast(first, message)
    ensures Insert(first + sorted, message) == first + Insert(sorted, message)
  {
    if sorted == [] {
      assert first + sorted == first;
    } else {
      var n := |sorted| - 1;
      assert (first + sorted)[..|first| + n] == first + sorted[..n];
      InsertAfter(first, sorted[..n], message);
    }
  }

  // ----- duplicates -----

  function Keys(messages: seq<Message>): set<MessageId> {
    set m | m in messages :: m.clientId
  }

  /** The messages whose client id is not known yet, each id once. */
  function Fresh(messages: seq<Message>, known: set<MessageId>): seq<Message> {
    if messages == [] then []
    else
      var first := messages[0];
      if first.clientId in known then Fresh(messages[1..], known)
      else [first] + Fresh(messages[1..], known + {first.clientId})
  }

  lemma {:induction false} FreshAreDistinct(messages: seq<Message>, known: set<MessageId>)
    ensures HasDistinctKeys(Fresh(messages, known)) && Keys(Fresh(messages, known)) !! known
    ensures forall m :: m in Fresh(messages, known) ==> m in messages
  {
    if messages != [] {
      var first := messages[0];
      FreshAreDistinct(messages[1..], known);
      FreshAreDistinct(messages[1..], known + {first.clientId});
      if first.clientId !in known {
        var rest := Fresh(messages[1..], known + {first.clientId});
        assert forall m :: m in rest ==> m.clientId in Keys(rest);
      }
    }
  }

  lemma {:induction false} FreshKeepsNew(messages: seq<Message>, known: set<MessageId>)
    requires HasDistinctKeys(messages) && Keys(messages) !! known
    ensures Fresh(messages, known) == messages
  {
    if messages != [] {
      var first := messages[0];
      assert first in messages && first.clientId in Keys(messages);
      assert forall m :: m in messages[1..] ==> m in messages && m.clientId in Keys(messages);
      FreshKeepsNew(messages[1..], known + {first.clientId});
    }
  }

  lemma JoinIsDistinct(a: seq<Message>, b: seq<Message>)
    requires HasDistinctKeys(a) && HasDistinctKeys(b) && Keys(a) !! Keys(b)
    ensures HasDistinctKeys(a + b)
  {
    forall i, j | 0 <= i < j < |a + b| ensures (a + b)[i].clientId != (a + b)[j].clientId {
      if i < |a| <= j {
        assert a[i].clientId in Keys(a) && b[j - |a|].clientId in Keys(b);
      }
    }
  }

  lemma SortKeepsKeys(messages: seq<Message>)
    requires HasDistinctKeys(messages)
    ensures HasDistinctKeys(Sort(messages)) && forall m :: m in Sort(messages) <==> m in messages
  {
    SortPermutes(messages);
    var sorted := Sort(messages);
    forall m ensures m in sorted <==> m in messages {
      assert m in sorted <==> m in multiset(sorted);
      assert m in messages <==> m in multiset(messages);
    }
    PermutedKeysAreDistinct(messages, sorted);
  }

  lemma PermutedKeysAreDistinct(a: seq<Message>, b: seq<Message>)
    requires HasDistinctKeys(a) && multiset(a) == multiset(b)
    ensures HasDistinctKeys(b)
  {
    forall i, j | 0 <= i < j < |b| ensures b[i].clientId != b[j].clientId {
      if b[i].clientId == b[j].clientId {
        TwiceIn(b, i, j);
        assert b[i] in multiset(a) && b[j] in multiset(a);
        var x :| 0 <= x < |a| && a[x] == b[i];
        var y :| 0 <= y < |a| && a[y] == b[j];
        assert x == y;
        OnceIn(a, x);
      }
    }
  }

  lemma TwiceIn(b: seq<Message>, i: nat, j: nat)
    requires i < j < |b|
    ensures b[i] == b[j] ==> multiset(b)[b[i]] >= 2
  {
    assert b == b[..j] + [b[j]] + b[j + 1..];
    assert b[i] in b[..j];
  }

  lemma OnceIn(a: seq<Message>, x: nat)
    requires HasDistinctKeys(a) && x < |a|
    ensures multiset(a)[a[x]] == 1
  {
    assert a == a[..x] + [a[x]] + a[x + 1..];
    assert a[x] !in a[..x] && a[x] !in a[x + 1..];
  }

  // ----- the timeline as an object -----

  /** The cached messages of this client that the server has not confirmed. */
  predicate IsUnsent(message: Message) {
    message.status.Pending? || message.status.Failed?
  }

  function Unsent(cached: seq<Message>): seq<Message> {
    if cached == [] then [] else (if IsUnsent(cached[0]) then [cached[0]] else []) + Unsent(cached[1..])
  }

  lemma {:induction false} UnsentIsExact(cached: seq<Message>)
    ensures forall m :: m in Unsent(cached) <==> m in cached && IsUnsent(m)
  {
    if cached != [] {
      UnsentIsExact(cached[1..]);
    }
  }

  lemma FreshOfFirst(first: Message, rest: seq<Message>, known: set<MessageId>)
    ensures Fresh([first] + rest, known)
            == if first.clientId in known then Fresh(rest, known) else [first] + Fresh(rest, known + {first.clientId})
  {
    assert ([first] + rest)[1..] == rest;
  }

  lemma FirstUnsent(cached: seq<Message>, known: set<MessageId>)
    requires cached != []
    ensures var first := cached[0];
            Fresh(Unsent(cached), known)
            == if IsUnsent(first) && first.clientId !in known
               then [first] + Fresh(Unsent(cached[1..]), known + {first.clientId}) else Fresh(Unsent(cached[1..]), known)
  {
    var rest := Unsent(cached[1..]);
    if IsUnsent(cached[0]) {
      assert Unsent(cached) == [cached[0]] + rest;
      FreshOfFirst(cached[0], rest, known);
    } else {
      assert Unsent(cached) == [] + rest == rest;
    }
  }

  class Timeline {
    var entries: seq<Message>
    var cursor: Option<nat>

    constructor ()
      ensures entries == [] && cursor == None
    {
      entries, cursor := [], None;
    }

    method KeepFresh(messages: seq<Message>, known: set<MessageId>) returns (kept: seq<Message>)
      ensures kept == Fresh(messages, known)
    {
      kept := [];
      var seen := known;
      for i := 0 to |messages|
        invariant kept + Fresh(messages[i..], seen) == Fresh(messages, known)
      {
        assert messages[i..][1..] == messages[i + 1..];
        if messages[i].clientId !in seen {
          kept, seen := kept + [messages[i]], seen + {messages[i].clientId};
        }
      }
    }

    /** Of what is cached, the unsent messages that are not known yet. */
    method KeepUnsent(cached: seq<Message>, known: set<MessageId>) returns (kept: seq<Message>)
      ensures kept == Fresh(Unsent(cached), known)
    {
      kept := [];
      var seen := known;
      for i := 0 to |cached|
        invariant kept + Fresh(Unsent(cached[i..]), seen) == Fresh(Unsent(cached), known)
      {
        assert cached[i..][1..] == cached[i + 1..];
        FirstUnsent(cached[i..], seen);
        if IsUnsent(cached[i]) && cached[i].clientId !in seen {
          kept, seen := kept + [cached[i]], seen + {cached[i].clientId};
        }
      }
    }

    /** `load_timeline` and `apply_timeline`: the newest page, then the cached unsent messages it does not already have. */
    method Show(page: seq<Message>, cached: seq<Message>, next: Option<nat>)
      requires HasDistinctKeys(page)
      modifies this
      ensures entries == Sort(page + Fresh(Unsent(cached), Keys(page))) && HasDistinctKeys(entries) && cursor == next
    {
      var unsent := KeepUnsent(cached, Keys(page));
      FreshAreDistinct(Unsent(cached), Keys(page));
      JoinIsDistinct(page, unsent);
      SortKeepsKeys(page + unsent);
      entries, cursor := Sort(page + unsent), next;
    }

    /** `prepend_timeline`: an older page in front, without what is already shown. */
    method Prepend(page: seq<Message>, next: Option<nat>)
      requires HasDistinctKeys(entries)
      modifies this
      ensures entries == Fresh(Sort(page), Keys(old(entries))) + old(entries) && HasDistinctKeys(entries) && cursor == next
    {
      var kept := KeepFresh(Sort(page), Keys(entries));
      FreshAreDistinct(Sort(page), Keys(entries));
      JoinIsDistinct(kept, entries);
      entries, cursor := kept + entries, next;
    }

    /** `apply_realtime_message`: the entry with the same client id is replaced, or the message is added at the end. */
    method ApplyLive(message: Message)
      requires HasDistinctKeys(entries)
      modifies this`entries
      ensures HasDistinctKeys(entries)
      ensures if message.clientId in Keys(old(entries))
              then exists k :: 0 <= k < |old(entries)| && old(entries)[k].clientId == message.clientId
                               && entries == old(entries)[k := message]
              else entries == old(entries) + [message]
    {
      for i := 0 to |entries|
        invariant entries == old(entries)
        invariant forall k :: 0 <= k < i ==> entries[k].clientId != message.clientId
      {
        if entries[i].clientId == message.clientId {
          entries := entries[i := message];
          return;
        }
      }
      entries := entries + [message];
    }
  }

  // ----- loading a whole conversation -----

  /** A conversation whose log only grows, by messages that have not expired. */
  ghost predicate OnlyGrows(feed: nat -> seq<Message>, expired: set<MessageId>) {
    && IsHistory(feed(0)) && forall k: nat :: Grows(feed(k), feed(k + 1), expired)
  }

  ghost predicate Grows(log: seq<Message>, grown: seq<Message>, expired: set<MessageId>) {
    log <= grown && IsHistory(grown) && forall m :: m in grown[|log|..] ==> m.id !in expired
  }

  lemma {:induction false} VisibleIsSorted(log: seq<Message>, expired: set<MessageId>)
    requires forall i :: 0 <= i < |log| ==> log[i].sequence == Some(i + 1)
    ensures IsSorted(Visible(log, expired))
    ensures forall m :: m in Visible(log, expired) ==> m.sequence.Some? && m.sequence.value <= |log|
  {
    if log != [] {
      VisibleIsSorted(log[..|log| - 1], expired);
    }
  }

  /** A page of what is left is in order already. */
  lemma PageIsSorted(log: seq<Message>, before: Option<nat>, expired: set<MessageId>)
    requires IsHistory(log) && IsCursor(log, before)
    ensures var items := Page(log, expired, before, PAGE_SIZE);
            && Sort(items) == items && HasDistinctKeys(items)
            && items == LastOf(Visible(Left(log, before), expired), PAGE_SIZE)
  {
    if before.Some? {
      CursorIsPrefix(log, expired, before.value);
    }
    var items := Page(log, expired, before, PAGE_SIZE);
    VisibleIsSorted(Left(log, before), expired);
    VisibleIsSublist(Left(log, before), expired);
    SortFixes(items);
  }

  /** The newest page comes first and the unsent messages after it, by creation time. */
  lemma UnsentComeLast(log: seq<Message>, expired: set<MessageId>, unsent: seq<Message>)
    requires IsHistory(log) && forall m :: m in unsent ==> m.sequence.None?
    ensures var items := Page(log, expired, None, PAGE_SIZE);
            Sort(items + unsent) == items + Sort(unsent) && IsSorted(Sort(unsent))
  {
    var items := Page(log, expired, None, PAGE_SIZE);
    PageIsSorted(log, None, expired);
    SortSorts(items);
    SortSorts(unsent);
    VisibleIsSorted(log, expired);
    assert forall m :: m in items ==> m in Visible(log, expired);
    assert AllComeLast(items, unsent);
    SortKeepsOrder(items, unsent);
  }

  // ----- what live messages make of the unsent ones -----

  function Without(messages: seq<Message>, keys: set<MessageId>): seq<Message> {
    if messages == [] then []
    else
      var last := messages[|messages| - 1];
      Without(messages[..|messages| - 1], keys) + (if last.clientId in keys then [] else [last])
  }

  lemma {:induction false} WithoutIsExact(messages: seq<Message>, keys: set<MessageId>)
    ensures forall m :: m in Without(messages, keys) <==> m in messages && m.clientId !in keys
  {
    if messages != [] {
      var n := |messages| - 1;
      WithoutIsExact(messages[..n], keys);
      assert messages == messages[..n] + [messages[n]];
    }
  }

  lemma {:induction false} WithoutJoins(a: seq<Message>, b: seq<Message>, keys: set<MessageId>)
    ensures Without(a + b, keys) == Without(a, keys) + Without(b, keys)
    decreases |b|
  {
    if b == [] {
      assert a + b == a;
    } else {
      assert (a + b)[..|a| + |b| - 1] == a + b[..|b| - 1];
      WithoutJoins(a, b[..|b| - 1], keys);
    }
  }

  lemma {:induction false} WithoutNone(messages: seq<Message>, keys: set<MessageId>)
    requires forall m :: m in messages ==> m.clientId !in keys
    ensures Without(messages, keys) == messages
  {
    if messages != [] {
      WithoutNone(messages[..|messages| - 1], keys);
    }
  }

  lemma {:induction false} WithoutKeepsDistinct(messages: seq<Message>, keys: set<MessageId>)
    requires HasDistinctKeys(messages)
    ensures HasDistinctKeys(Without(messages, keys))
  {
    if messages != [] {
      var n := |messages| - 1;
      WithoutKeepsDistinct(messages[..n], keys);
      WithoutIsExact(messages[..n], keys);
      forall m | m in Without(messages[..n], keys) ensures m.clientId != messages[n].clientId {
        var i :| 0 <= i < n && messages[..n][i] == m;
        assert messages[i] == m;
      }
    }
  }

  /** The entry with the same client id, if there is one, replaced. */
  function Replace(entries: seq<Message>, message: Message): seq<Message> {
    seq(|entries|, i requires 0 <= i < |entries| => if entries[i].clientId == message.clientId then message else entries[i])
  }

  function ReplaceAll(entries: seq<Message>, messages: seq<Message>): seq<Message> {
    if messages == [] then entries
    else Replace(ReplaceAll(entries, messages[..|messages| - 1]), messages[|messages| - 1])
  }

  lemma {:induction false} ReplacingKeepsKeys(entries: seq<Message>, messages: seq<Message>)
    ensures |ReplaceAll(entries, messages)| == |entries|
    ensures forall i :: 0 <= i < |entries| ==>
                          && ReplaceAll(entries, messages)[i].clientId == entries[i].clientId
                          && (ReplaceAll(entries, messages)[i] == entries[i] || ReplaceAll(entries, messages)[i] in messages)
    ensures Keys(ReplaceAll(entries, messages)) == Keys(entries)
  {
    if messages != [] {
      ReplacingKeepsKeys(entries, messages[..|messages| - 1]);
    }
    var replaced := ReplaceAll(entries, messages);
    forall key ensures key in Keys(replaced) <==> key in Keys(entries) {
      SameKeys(entries, replaced, key);
    }
  }

  lemma SameKeys(a: seq<Message>, b: seq<Message>, key: MessageId)
    requires |a| == |b| && forall i :: 0 <= i < |a| ==> a[i].clientId == b[i].clientId
    ensures key in Keys(a) <==> key in Keys(b)
  {
    forall i | 0 <= i < |a| ensures a[i].clientId in Keys(b) && b[i].clientId in Keys(a) {
      assert a[i] in a && b[i] in b;
    }
  }

  /** The end of the timeline: the unsent messages, confirmed in place as they arrive, then the other arrivals. */
  function Live(unsent: seq<Message>, arrived: seq<Message>): seq<Message> {
    ReplaceAll(unsent, arrived) + Without(arrived, Keys(unsent))
  }

  /** What `ApplyLive` does to a timeline. */
  ghost predicate IsApplied(before: seq<Message>, message: Message, after: seq<Message>) {
    if message.clientId in Keys(before)
    then exists k :: 0 <= k < |before| && before[k].clientId == message.clientId && after == before[k := message]
    else after == before + [message]
  }

  lemma OneMoreArrival(unsent: seq<Message>, arrived: seq<Message>, message: Message)
    ensures ReplaceAll(unsent, arrived + [message]) == Replace(ReplaceAll(unsent, arrived), message)
    ensures Without(arrived + [message], Keys(unsent))
            == Without(arrived, Keys(unsent)) + (if message.clientId in Keys(unsent) then [] else [message])
  {
    assert (arrived + [message])[..|arrived|] == arrived;
  }

  lemma ReplaceNone(entries: seq<Message>, message: Message)
    requires message.clientId !in Keys(entries)
    ensures Replace(entries, message) == entries
  {
    forall i | 0 <= i < |entries| ensures entries[i].clientId != message.clientId {
      assert entries[i] in entries;
    }
  }

  lemma ReplaceOne(before: seq<Message>, middle: seq<Message>, after: seq<Message>, message: Message, k: nat)
    requires HasDistinctKeys(before + middle + after) && k < |before + middle + after|
    requires (before + middle + after)[k].clientId == message.clientId && message.clientId in Keys(middle)
    ensures (before + middle + after)[k := message] == before + Replace(middle, message) + after
  {
    var all := before + middle + after;
    var i :| 0 <= i < |middle| && middle[i].clientId == message.clientId;
    assert all[|before| + i] == middle[i];
    forall j | 0 <= j < |middle| && j != i ensures middle[j].clientId != message.clientId {
      assert all[|before| + j] == middle[j];
    }
  }

  lemma KeysOfJoin(a: seq<Message>, b: seq<Message>, key: MessageId)
    ensures key in Keys(a + b) <==> key in Keys(a) || key in Keys(b)
  {
    if key in Keys(a) {
      var m :| m in a && m.clientId == key;
      assert m in a + b;
    }
    if key in Keys(b) {
      var m :| m in b && m.clientId == key;
      assert m in a + b;
    }
  }

  /** One live message confirms an unsent one in its place, or goes to the end. */
  lemma LiveGrows(older: seq<Message>, unsent: seq<Message>, arrived: seq<Message>, message: Message, after: seq<Message>)
    requires HasDistinctKeys(older + Live(unsent, arrived)) && message.clientId !in Keys(older + arrived)
    requires IsApplied(older + Live(unsent, arrived), message, after)
    ensures after == older + Live(unsent, arrived + [message])
  {
    NoKeyOf(older, unsent, arrived, message.clientId);
    ReplacingKeepsKeys(unsent, arrived);
    OneMoreArrival(unsent, arrived, message);
    AppliedTo(older, ReplaceAll(unsent, arrived), Without(arrived, Keys(unsent)), message, after);
  }

  lemma AppliedTo(older: seq<Message>, middle: seq<Message>, others: seq<Message>, message: Message, after: seq<Message>)
    requires HasDistinctKeys(older + (middle + others)) && IsApplied(older + (middle + others), message, after)
    requires message.clientId in Keys(older + (middle + others)) <==> message.clientId in Keys(middle)
    ensures after
            == older + (Replace(middle, message) + (others + (if message.clientId in Keys(middle) then [] else [message])))
  {
    var shown := older + (middle + others);
    assert shown == older + middle + others;
    if message.clientId in Keys(middle) {
      var k :| 0 <= k < |shown| && shown[k].clientId == message.clientId && after == shown[k := message];
      ReplaceOne(older, middle, others, message, k);
    } else {
      ReplaceNone(middle, message);
    }
  }

  lemma NoKeyOf(older: seq<Message>, unsent: seq<Message>, arrived: seq<Message>, key: MessageId)
    requires key !in Keys(older + arrived)
    ensures key in Keys(older + Live(unsent, arrived)) <==> key in Keys(unsent)
  {
    KeysOfJoin(older, arrived, key);
    KeysOfJoin(older, Live(unsent, arrived), key);
    KeysOfJoin(ReplaceAll(unsent, arrived), Without(arrived, Keys(unsent)), key);
    ReplacingKeepsKeys(unsent, arrived);
    WithoutIsExact(arrived, Keys(unsent));
  }

  /** Messages that arrive live while the client is between two pages. */
  method ApplyAll(timeline: Timeline, messages: seq<Message>, ghost older: seq<Message>, ghost unsent: seq<Message>,
                  ghost arrived: seq<Message>)
    requires HasDistinctKeys(timeline.entries) && timeline.entries == older + Live(unsent, arrived)
    requires HasDistinctKeys(arrived + messages) && Keys(older) !! Keys(messages)
    modifies timeline`entries
    ensures HasDistinctKeys(timeline.entries) && timeline.entries == older + Live(unsent, arrived + messages)
  {
    assert arrived + messages[..0] == arrived;
    for i := 0 to |messages|
      invariant HasDistinctKeys(timeline.entries) && timeline.entries == older + Live(unsent, arrived + messages[..i])
    {
      ghost var before := timeline.entries;
      NextIsNew(older, arrived, messages, i);
      timeline.ApplyLive(messages[i]);
      LiveGrows(older, unsent, arrived + messages[..i], messages[i], timeline.entries);
      assert arrived + messages[..i] + [messages[i]] == arrived + messages[..i + 1];
    }
    assert messages[..|messages|] == messages;
  }

  lemma NextIsNew(older: seq<Message>, arrived: seq<Message>, messages: seq<Message>, i: nat)
    requires HasDistinctKeys(arrived + messages) && Keys(older) !! Keys(messages) && i < |messages|
    ensures messages[i].clientId !in Keys(older + (arrived + messages[..i]))
  {
    var all := arrived + messages;
    KeysOfJoin(older, arrived + messages[..i], messages[i].clientId);
    assert messages[i].clientId in Keys(messages);
    assert arrived + messages[..i] == all[..|arrived| + i] && all[|arrived| + i] == messages[i];
    forall m | m in all[..|arrived| + i] ensures m.clientId != messages[i].clientId {
      var j :| 0 <= j < |arrived| + i && all[j] == m;
    }
  }

  // ----- loading older pages -----

  /** The first page saw the log `first`, which is `log` by now. What the cursor says is still to be loaded, and what is shown
      of `first`, are its unexpired messages except those whose client id an unsent message has; after them come the unsent
      messages and the arrivals. */
  ghost predicate IsComplete(first: seq<Message>, log: seq<Message>, cursor: Option<nat>, expired: set<MessageId>,
                             unsent: seq<Message>, older: seq<Message>, shown: seq<Message>)
  {
    && first <= log && IsHistory(log) && IsCursor(first, cursor) && HasDistinctKeys(shown)
    && shown == older + Live(unsent, log[|first|..])
    && Without(Unloaded(first, cursor, expired), Keys(unsent)) + older == Without(Visible(first, expired), Keys(unsent))
  }

  ghost function Unloaded(first: seq<Message>, cursor: Option<nat>, expired: set<MessageId>): seq<Message> {
    if cursor.None? then [] else Visible(Left(first, cursor), expired)
  }

  lemma OlderIsOfFirst(first: seq<Message>, log: seq<Message>, cursor: Option<nat>, expired: set<MessageId>,
                       unsent: seq<Message>, older: seq<Message>, shown: seq<Message>)
    requires IsComplete(first, log, cursor, expired, unsent, older, shown)
    ensures forall m :: m in older ==> m in first
  {
    WithoutIsExact(Visible(first, expired), Keys(unsent));
    VisibleIsSublist(first, expired);
    var unloaded := Without(Unloaded(first, cursor, expired), Keys(unsent));
    forall m | m in older ensures m in first {
      assert m in unloaded + older;
    }
  }

  lemma ArrivalsAreNew(first: seq<Message>, log: seq<Message>, grown: seq<Message>, older: seq<Message>)
    requires first <= log <= grown && IsHistory(grown) && forall m :: m in older ==> m in first
    ensures HasDistinctKeys(log[|first|..] + grown[|log|..]) && Keys(older) !! Keys(grown[|log|..])
    ensures log[|first|..] + grown[|log|..] == grown[|first|..]
  {
    forall m, n | m in older && n in grown[|log|..] ensures m.clientId != n.clientId {
      var i :| 0 <= i < |first| && first[i] == m;
      var j :| |log| <= j < |grown| && grown[j] == n;
      assert grown[i] == m;
    }
  }

  lemma {:induction false} FreshIsWithout(messages: seq<Message>, known: set<MessageId>, keys: set<MessageId>)
    requires HasDistinctKeys(messages)
    requires forall m :: m in messages ==> (m.clientId in known <==> m.clientId in keys)
    ensures Fresh(messages, known) == Without(messages, keys)
    decreases |messages|
  {
    if messages != [] {
      var first, rest := messages[0], messages[1..];
      assert messages == [first] + rest;
      WithoutJoins([first], rest, keys);
      assert Without([first], keys) == if first.clientId in keys then [] else [first];
      FreshIsWithout(rest, if first.clientId in known then known else known + {first.clientId}, keys);
    }
  }

  lemma PageIsUnloaded(first: seq<Message>, log: seq<Message>, before: Option<nat>, expired: set<MessageId>)
    requires first <= log && IsHistory(log) && IsCursor(first, before) && before.Some?
    ensures var items := Page(log, expired, before, PAGE_SIZE);
            && Sort(items) == items && HasDistinctKeys(items)
            && forall m :: m in items ==> m in Visible(Left(first, before), expired)
  {
    PageIsSorted(log, before, expired);
    assert Left(log, before) == Left(first, before);
  }

  lemma UnloadedIsShownAsUnsent(first: seq<Message>, log: seq<Message>, before: Option<nat>, expired: set<MessageId>,
                                unsent: seq<Message>, older: seq<Message>, shown: seq<Message>, m: Message)
    requires IsComplete(first, log, before, expired, unsent, older, shown) && before.Some?
    requires m in Visible(Left(first, before), expired)
    ensures m.clientId in Keys(shown) <==> m.clientId in Keys(unsent)
  {
    if m.clientId in Keys(unsent) {
      UnsentAreShown(older, unsent, log[|first|..], m.clientId);
    } else {
      UnloadedIsNew(first, log, before, expired, unsent, older, shown, m);
      NoKeyOf(older, unsent, log[|first|..], m.clientId);
    }
  }

  /** Of an older page, exactly the messages an unsent one stands for are shown already. */
  lemma OlderPageIsNew(first: seq<Message>, log: seq<Message>, before: Option<nat>, expired: set<MessageId>,
                       unsent: seq<Message>, older: seq<Message>, shown: seq<Message>)
    requires IsComplete(first, log, before, expired, unsent, older, shown) && before.Some?
    ensures var items := Page(log, expired, before, PAGE_SIZE);
            Fresh(Sort(items), Keys(shown)) == Without(items, Keys(unsent))
  {
    var items := Page(log, expired, before, PAGE_SIZE);
    PageIsUnloaded(first, log, before, expired);
    forall m | m in items ensures m.clientId in Keys(shown) <==> m.clientId in Keys(unsent) {
      UnloadedIsShownAsUnsent(first, log, before, expired, unsent, older, shown, m);
    }
    FreshIsWithout(items, Keys(shown), Keys(unsent));
  }

  lemma UnsentAreShown(older: seq<Message>, unsent: seq<Message>, arrived: seq<Message>, key: MessageId)
    requires key in Keys(unsent)
    ensures key in Keys(older + Live(unsent, arrived))
  {
    ReplacingKeepsKeys(unsent, arrived);
    KeysOfJoin(ReplaceAll(unsent, arrived), Without(arrived, Keys(unsent)), key);
    KeysOfJoin(older, Live(unsent, arrived), key);
  }

  lemma UnloadedIsNew(first: seq<Message>, log: seq<Message>, before: Option<nat>, expired: set<MessageId>,
                      unsent: seq<Message>, older: seq<Message>, shown: seq<Message>, m: Message)
    requires IsComplete(first, log, before, expired, unsent, older, shown) && before.Some?
    requires m in Visible(Left(first, before), expired) && m.clientId !in Keys(unsent)
    ensures m.clientId !in Keys(older + log[|first|..])
  {
    UnloadedIsOfFirst(first, before, expired, m);
    assert first + log[|first|..] == log;
    OnlyInFront(first, log[|first|..], m);
    UnloadedIsNotOlder(first, Visible(Left(first, before), expired), expired, Keys(unsent), older, m);
    KeysOfJoin(older, log[|first|..], m.clientId);
  }

  lemma UnloadedIsOfFirst(first: seq<Message>, before: Option<nat>, expired: set<MessageId>, m: Message)
    requires HasDistinctKeys(first) && m in Visible(Left(first, before), expired)
    ensures m in first
  {
    VisibleIsSublist(Left(first, before), expired);
  }

  lemma UnloadedIsNotOlder(first: seq<Message>, unloaded: seq<Message>, expired: set<MessageId>, keys: set<MessageId>,
                           older: seq<Message>, m: Message)
    requires HasDistinctKeys(first) && Without(unloaded, keys) + older == Without(Visible(first, expired), keys)
    requires m in unloaded && m.clientId !in keys
    ensures m.clientId !in Keys(older)
  {
    VisibleIsSublist(first, expired);
    WithoutKeepsDistinct(Visible(first, expired), keys);
    WithoutIsExact(unloaded, keys);
    OnlyInFront(Without(unloaded, keys), older, m);
  }

  lemma OnlyInFront(front: seq<Message>, back: seq<Message>, m: Message)
    requires HasDistinctKeys(front + back) && m in front
    ensures m.clientId !in Keys(back)
  {
    var i :| 0 <= i < |front| && front[i] == m;
    forall n | n in back ensures n.clientId != m.clientId {
      var j :| 0 <= j < |back| && back[j] == n;
      assert (front + back)[i] == m && (front + back)[|front| + j] == n;
    }
  }

  /** One older page: what it takes off the unloaded messages is what it adds in front. */
  lemma OlderCompletes(first: seq<Message>, log: seq<Message>, before: Option<nat>, expired: set<MessageId>,
                       unsent: seq<Message>, older: seq<Message>, shown: seq<Message>)
    requires IsComplete(first, log, before, expired, unsent, older, shown) && before.Some?
    ensures var items := Page(log, expired, before, PAGE_SIZE);
            var next := NextCursor(items, SentCursor(items), before);
            var kept := Without(items, Keys(unsent));
            && Fresh(Sort(items), Keys(shown)) == kept && (next.Some? ==> next.value < before.value)
            && (HasDistinctKeys(kept + shown) ==> IsComplete(first, log, next, expired, unsent, kept + older, kept + shown))
  {
    var items := Page(log, expired, before, PAGE_SIZE);
    var next := NextCursor(items, SentCursor(items), before);
    OlderPageIsNew(first, log, before, expired, unsent, older, shown);
    PageUnloads(first, log, before, expired);
    WithoutUnloads(Unloaded(first, before, expired), Unloaded(first, next, expired), items, older, Keys(unsent));
    Regroup(Without(items, Keys(unsent)), older, Live(unsent, log[|first|..]));
  }

  /** A page takes the newest of what is unloaded. */
  lemma PageUnloads(first: seq<Message>, log: seq<Message>, before: Option<nat>, expired: set<MessageId>)
    requires first <= log && IsHistory(log) && IsCursor(first, before) && before.Some?
    ensures var items := Page(log, expired, before, PAGE_SIZE);
            var next := NextCursor(items, SentCursor(items), before);
            && (next.Some? ==> next.value < before.value) && IsCursor(first, next)
            && Unloaded(first, before, expired) == Unloaded(first, next, expired) + items
  {
    PageTakesTheNewest(log, expired, before);
    var items := Page(log, expired, before, PAGE_SIZE);
    var next := NextCursor(items, SentCursor(items), before);
    assert Left(log, before) == Left(first, before);
    assert next.Some? ==> Left(log, next) == Left(first, next);
  }

  lemma WithoutUnloads(unloaded: seq<Message>, rest: seq<Message>, items: seq<Message>, older: seq<Message>, keys: set<MessageId>)
    requires unloaded == rest + items
    ensures Without(rest, keys) + (Without(items, keys) + older) == Without(unloaded, keys) + older
  {
    WithoutJoins(rest, items, keys);
    Regroup(Without(rest, keys), Without(items, keys), older);
  }

  /** Live messages arrive, then the next older page is loaded: `load_older_messages`. */
  method LoadOlder(timeline: Timeline, log: seq<Message>, grown: seq<Message>, expired: set<MessageId>,
                   ghost first: seq<Message>, ghost unsent: seq<Message>, ghost older: seq<Message>)
    returns (ghost loaded: seq<Message>)
    requires Grows(log, grown, expired) && timeline.cursor.Some?
    requires IsComplete(first, log, timeline.cursor, expired, unsent, older, timeline.entries)
    modifies timeline
    ensures IsComplete(first, grown, timeline.cursor, expired, unsent, loaded, timeline.entries)
    ensures timeline.cursor.Some? ==> timeline.cursor.value < old(timeline.cursor).value
  {
    var before := timeline.cursor;
    OlderIsOfFirst(first, log, before, expired, unsent, older, timeline.entries);
    ArrivalsAreNew(first, log, grown, older);
    ApplyAll(timeline, grown[|log|..], older, unsent, log[|first|..]);
    var items := Page(grown, expired, before, PAGE_SIZE);
    OlderCompletes(first, grown, before, expired, unsent, older, timeline.entries);
    loaded := Without(items, Keys(unsent)) + older;
    timeline.Prepend(items, NextCursor(items, SentCursor(items), before));
  }

  /** The unsent messages the first page shows. */
  function ShownUnsent(log: seq<Message>, expired: set<MessageId>, cached: seq<Message>): seq<Message> {
    Sort(Fresh(Unsent(cached), Keys(Page(log, expired, None, PAGE_SIZE))))
  }

  /** The first page with the unsent messages after it. */
  lemma UnsentAreNew(log: seq<Message>, expired: set<MessageId>, cached: seq<Message>)
    requires IsHistory(log) && forall m :: m in cached && IsUnsent(m) ==> m.sequence.None?
    ensures var items := Page(log, expired, None, PAGE_SIZE);
            && Sort(items + Fresh(Unsent(cached), Keys(items))) == items + ShownUnsent(log, expired, cached)
            && forall m :: m in items ==> m.clientId !in Keys(ShownUnsent(log, expired, cached))
  {
    var items := Page(log, expired, None, PAGE_SIZE);
    var others := Fresh(Unsent(cached), Keys(items));
    FreshAreDistinct(Unsent(cached), Keys(items));
    UnsentIsExact(cached);
    UnsentComeLast(log, expired, others);
    SortKeepsKeys(others);
    forall m | m in items ensures m.clientId !in Keys(Sort(others)) {
      assert m.clientId in Keys(items);
      forall n | n in Sort(others) ensures n.clientId != m.clientId {
        assert n.clientId in Keys(others);
      }
    }
  }

  lemma FirstPageCompletes(log: seq<Message>, expired: set<MessageId>, cached: seq<Message>)
    requires IsHistory(log) && forall m :: m in cached && IsUnsent(m) ==> m.sequence.None?
    ensures var items := Page(log, expired, None, PAGE_SIZE);
            var shown := Sort(items + Fresh(Unsent(cached), Keys(items)));
            && HasDistinctKeys(items)
            && (HasDistinctKeys(shown) ==>
                  IsComplete(log, log, NextCursor(items, SentCursor(items), None), expired, ShownUnsent(log, expired, cached), items, shown))
  {
    var items := Page(log, expired, None, PAGE_SIZE);
    var next := NextCursor(items, SentCursor(items), None);
    var unsent := ShownUnsent(log, expired, cached);
    PageIsSorted(log, None, expired);
    PageTakesTheNewest(log, expired, None);
    UnsentAreNew(log, expired, cached);
    WithoutNone(items, Keys(unsent));
    WithoutJoins(Unloaded(log, next, expired), items, Keys(unsent));
    NothingArrived(log, unsent);
  }

  lemma NothingArrived(log: seq<Message>, unsent: seq<Message>)
    ensures Live(unsent, log[|log|..]) == unsent
  {
    assert log[|log|..] == [];
  }

  /** Opening a conversation. */
  method OpenConversation(timeline: Timeline, log: seq<Message>, expired: set<MessageId>, cached: seq<Message>)
    returns (ghost older: seq<Message>)
    requires IsHistory(log) && forall m :: m in cached && IsUnsent(m) ==> m.sequence.None?
    modifies timeline
    ensures IsComplete(log, log, timeline.cursor, expired, ShownUnsent(log, expired, cached), older, timeline.entries)
  {
    var items := Page(log, expired, None, PAGE_SIZE);
    FirstPageCompletes(log, expired, cached);
    timeline.Show(items, cached, NextCursor(items, SentCursor(items), None));
    older := items;
  }

  lemma CompleteIsWhole(first: seq<Message>, log: seq<Message>, expired: set<MessageId>, unsent: seq<Message>,
                        older: seq<Message>, shown: seq<Message>)
    requires IsComplete(first, log, None, expired, unsent, older, shown)
    ensures first <= log && HasDistinctKeys(shown)
    ensures shown == WholeTimeline(Visible(first, expired), unsent, log[|first|..])
  {
    assert Without([], Keys(unsent)) + older == older;
  }

  /** Opening a conversation and loading older pages until there are none, while new messages keep arriving. Request k
      sees the log `feed(k)`, and the cache may hold any unsent messages. The timeline ends up holding the log of the first
      page without what an unsent message stands for, then the unsent messages, each confirmed in place if it arrived
      meanwhile, then everything else that arrived. */
  method LoadHistory(timeline: Timeline, feed: nat -> seq<Message>, expired: set<MessageId>, cached: seq<Message>)
    returns (requests: nat)
    requires OnlyGrows(feed, expired) && forall m :: m in cached && IsUnsent(m) ==> m.sequence.None?
    modifies timeline
    ensures feed(0) <= feed(requests) && timeline.cursor == None && HasDistinctKeys(timeline.entries)
    ensures timeline.entries == WholeTimeline(Visible(feed(0), expired), ShownUnsent(feed(0), expired, cached),
                                              feed(requests)[|feed(0)|..])
  {
    requests := 0;
    ghost var first := feed(0);
    ghost var unsent := ShownUnsent(first, expired, cached);
    ghost var older := OpenConversation(timeline, feed(0), expired, cached);
    while timeline.cursor.Some?
      invariant IsComplete(first, feed(requests), timeline.cursor, expired, unsent, older, timeline.entries)
      decreases timeline.cursor.GetOr(0)
    {
      var log, grown := feed(requests), feed(requests + 1);
      assert Grows(log, grown, expired);
      older := LoadOlder(timeline, log, grown, expired, first, unsent, older);
      requests := requests + 1;
    }
    CompleteIsWhole(first, feed(requests), expired, unsent, older, timeline.entries);
  }

  // ----- what the timeline then shows -----

  function WholeTimeline(first: seq<Message>, unsent: seq<Message>, arrived: seq<Message>): seq<Message> {
    Without(first, Keys(unsent)) + Live(unsent, arrived)
  }

  /** Without cached unsent messages the timeline is the unexpired log. */
  lemma NothingUnsentShowsTheLog(first: seq<Message>, arrived: seq<Message>)
    ensures WholeTimeline(first, [], arrived) == first + arrived
  {
    ReplacingKeepsKeys([], arrived);
    assert Keys([]) == {};
    WithoutNone(first, {});
    WithoutNone(arrived, {});
  }

  lemma {:induction false} ConfirmedInPlace(unsent: seq<Message>, arrived: seq<Message>, j: nat)
    requires HasDistinctKeys(arrived) && j < |arrived| && arrived[j].clientId in Keys(unsent)
    ensures arrived[j] in ReplaceAll(unsent, arrived)
  {
    var n := |arrived| - 1;
    var before := ReplaceAll(unsent, arrived[..n]);
    ReplacingKeepsKeys(unsent, arrived[..n]);
    if j < n {
      ConfirmedInPlace(unsent, arrived[..n], j);
      var k :| 0 <= k < |before| && before[k] == arrived[j];
      assert Replace(before, arrived[n])[k] == arrived[j];
    } else {
      var k :| 0 <= k < |before| && before[k].clientId == arrived[n].clientId;
      assert Replace(before, arrived[n])[k] == arrived[n];
    }
  }

  lemma ArrivalsAreShown(unsent: seq<Message>, arrived: seq<Message>, m: Message)
    requires HasDistinctKeys(arrived)
    ensures m in arrived ==> m in Live(unsent, arrived)
    ensures m in Live(unsent, arrived) ==> m in arrived || m in unsent
    ensures m.clientId in Keys(unsent) ==> m.clientId in Keys(Live(unsent, arrived))
  {
    WithoutIsExact(arrived, Keys(unsent));
    ReplacingKeepsKeys(unsent, arrived);
    KeysOfJoin(ReplaceAll(unsent, arrived), Without(arrived, Keys(unsent)), m.clientId);
    if m in arrived && m.clientId in Keys(unsent) {
      var j :| 0 <= j < |arrived| && arrived[j] == m;
      ConfirmedInPlace(unsent, arrived, j);
    }
  }

  /** A message of the log is shown unless it was in the log already when the conversation was opened and one of the unsent
      messages has its client id; then the unsent form is shown in its stead. Nothing is shown but the log and unsent messages. */
  lemma ShownExactly(first: seq<Message>, unsent: seq<Message>, arrived: seq<Message>, m: Message)
    requires HasDistinctKeys(first + arrived)
    requires (forall n :: n in first + arrived ==> n.sequence.Some?) && forall n :: n in unsent ==> n.sequence.None?
    ensures m in first + arrived ==>
              (m in WholeTimeline(first, unsent, arrived) <==> !(m in first && m.clientId in Keys(unsent)))
    ensures m in WholeTimeline(first, unsent, arrived) ==> m in first + arrived || m in unsent
    ensures m in first + arrived || m in unsent ==> m.clientId in Keys(WholeTimeline(first, unsent, arrived))
  {
    WithoutIsExact(first, Keys(unsent));
    assert (first + arrived)[|first|..] == arrived;
    ArrivalsAreShown(unsent, arrived, m);
    KeysOfJoin(Without(first, Keys(unsent)), Live(unsent, arrived), m.clientId);
    if m in first {
      OnlyInFront(first, arrived, m);
    }
  }

  /** The log is shown whole exactly when no unsent message that is shown was in it already. */
  lemma WholeWhenApart(first: seq<Message>, unsent: seq<Message>, arrived: seq<Message>)
    requires HasDistinctKeys(first + arrived)
    requires (forall n :: n in first + arrived ==> n.sequence.Some?) && forall n :: n in unsent ==> n.sequence.None?
    ensures (forall m :: m in first + arrived ==> m in WholeTimeline(first, unsent, arrived)) <==> Keys(first) !! Keys(unsent)
  {
    forall m | m in first + arrived
      ensures m in WholeTimeline(first, unsent, arrived) <==> !(m in first && m.clientId in Keys(unsent))
    {
      ShownExactly(first, unsent, arrived, m);
    }
    if forall m :: m in first + arrived ==> m in WholeTimeline(first, unsent, arrived) {
      forall m | m in first ensures m.clientId !in Keys(unsent) {
        assert m in first + arrived;
      }
    } else {
      var m :| m in first && m.clientId in Keys(unsent);
      assert m.clientId in Keys(first);
    }
  }

  lemma {:induction false} FreshKeys(messages: seq<Message>, known: set<MessageId>, key: MessageId)
    ensures key in Keys(Fresh(messages, known)) <==> key in Keys(messages) && key !in known
  {
    if messages != [] {
      var first, rest := messages[0], messages[1..];
      assert messages == [first] + rest;
      KeysOfJoin([first], rest, key);
      assert key in Keys([first]) <==> key == first.clientId;
      if first.clientId in known {
        FreshKeys(rest, known, key);
      } else {
        FreshKeys(rest, known + {first.clientId}, key);
        KeysOfJoin([first], Fresh(rest, known + {first.clientId}), key);
      }
    }
  }

  /** The unsent messages shown are those cached whose client id is not on the first page. */
  lemma ShownUnsentKeys(log: seq<Message>, expired: set<MessageId>, cached: seq<Message>, key: MessageId)
    ensures key in Keys(ShownUnsent(log, expired, cached)) <==>
              (exists n :: n in cached && IsUnsent(n) && n.clientId == key) && key !in Keys(Page(log, expired, None, PAGE_SIZE))
  {
    var page := Page(log, expired, None, PAGE_SIZE);
    UnsentIsExact(cached);
    FreshKeys(Unsent(cached), Keys(page), key);
    FreshAreDistinct(Unsent(cached), Keys(page));
    SortKeepsKeys(Fresh(Unsent(cached), Keys(page)));
  }

  /** Whatever of the log the cache still has as unsent is on the first page. */
  ghost predicate HidesNothing(log: seq<Message>, expired: set<MessageId>, cached: seq<Message>) {
    forall m, n :: m in Visible(log, expired) && n in cached && n.status in {Status.Pending, Status.Failed} ==>
                     n.clientId == m.clientId ==> m in Page(log, expired, None, 50)
  }

  lemma NothingHiddenMeansApart(log: seq<Message>, expired: set<MessageId>, cached: seq<Message>)
    requires IsHistory(log)
    ensures HidesNothing(log, expired, cached) <==> Keys(Visible(log, expired)) !! Keys(ShownUnsent(log, expired, cached))
  {
    var page := Page(log, expired, None, PAGE_SIZE);
    VisibleIsSublist(log, expired);
    forall m | m in Visible(log, expired)
      ensures (m.clientId in Keys(ShownUnsent(log, expired, cached)) <==>
                 (exists n :: n in cached && IsUnsent(n) && n.clientId == m.clientId) && m !in page)
    {
      ShownUnsentKeys(log, expired, cached, m.clientId);
      if m.clientId in Keys(page) {
        SameMessage(Visible(log, expired), page, m);
      }
    }
    if HidesNothing(log, expired, cached) {
      forall m | m in Visible(log, expired) ensures m.clientId !in Keys(ShownUnsent(log, expired, cached)) {
      }
    } else {
      var m, n :| m in Visible(log, expired) && n in cached && IsUnsent(n) && n.clientId == m.clientId && m !in page;
      assert m.clientId in Keys(Visible(log, expired));
    }
  }

  lemma SameMessage(log: seq<Message>, page: seq<Message>, m: Message)
    requires HasDistinctKeys(log) && m in log && m.clientId in Keys(page) && forall n :: n in page ==> n in log
    ensures m in page
  {
    var n :| n in page && n.clientId == m.clientId;
    var i :| 0 <= i < |log| && log[i] == m;
    var j :| 0 <= j < |log| && log[j] == n;
  }

  /** The log is shown whole if and only if every message of it that the cache had as unsent was among the newest fifty when
      the conversation was opened. */
  lemma LogIsShownExactly(log: seq<Message>, grown: seq<Message>, expired: set<MessageId>, cached: seq<Message>)
    requires IsHistory(log) && Grows(log, grown, expired) && forall m :: m in cached && IsUnsent(m) ==> m.sequence.None?
    ensures (forall m :: m in Visible(grown, expired) ==>
               m in WholeTimeline(Visible(log, expired), ShownUnsent(log, expired, cached), grown[|log|..]))
            <==> HidesNothing(log, expired, cached)
  {
    var first, arrived, unsent := Visible(log, expired), grown[|log|..], ShownUnsent(log, expired, cached);
    assert grown == log + arrived;
    VisibleJoins(log, arrived, expired);
    NothingExpired(arrived, expired);
    VisibleIsSublist(grown, expired);
    UnsentIsExact(cached);
    FreshAreDistinct(Unsent(cached), Keys(Page(log, expired, None, PAGE_SIZE)));
    SortKeepsKeys(Fresh(Unsent(cached), Keys(Page(log, expired, None, PAGE_SIZE))));
    WholeWhenApart(first, unsent, arrived);
    NothingHiddenMeansApart(log, expired, cached);
  }

  function Numbered(i: nat): Message {
    Message(i, i, 0, 0, Some(i + 1), Text("hello"), Sent, {}, false, i, Some(i))
  }

  /** It need not be: after fifty newer messages, one that was sent but never confirmed to this client stays unsent. */
  lemma UnconfirmedMessageHidesItself() returns (log: seq<Message>, cached: seq<Message>)
    ensures IsHistory(log) && log != [] && forall m :: m in cached ==> IsUnsent(m) && m.sequence.None?
    ensures log[0] !in WholeTimeline(Visible(log, {}), ShownUnsent(log, {}, cached), [])
  {
    log := seq(51, i requires 0 <= i < 51 => Numbered(i));
    var pending := Numbered(0).(sequence := None, status := Pending, serverCreatedAt := None);
    cached := [pending];
    NothingExpired(log, {});
    var items := Page(log, {}, None, PAGE_SIZE);
    assert items == log[1..];
    assert cached[1..] == [] && Unsent(cached) == [pending];
    assert [pending] + [] == [pending] && [pending][..0] == [];
    FreshOfFirst(pending, [], Keys(items));
    assert Fresh(Unsent(cached), Keys(items)) == [pending] && Sort([]) == [];
    assert ShownUnsent(log, {}, cached) == [pending];
    assert log[0] in log && pending in [pending] && log[0].clientId in Keys([pending]);
    ShownExactly(log, [pending], [], log[0]);
  }
}
