/** The client's record of the sync events it has handled: a cursor, a pruned window of event ids, and bootstraps that
    may move the cursor back. */
module SeenEvents {
  import opened Domain

  type EventId = nat

  const WINDOW := 50000

  datatype SyncEvent = SyncEvent(id: EventId, cursor: nat)

  datatype Ledger = Ledger(cursor: nat, seen: map<EventId, nat>)

  datatype Step = Record(event: SyncEvent) | Bootstrap(cursor: nat)

  /** The table keeps ids and cursors unique. */
  predicate Collides(seen: map<EventId, nat>, event: SyncEvent) {
    exists id :: id in seen && seen[id] == event.cursor
  }

  function PruneBefore(cursor: nat): nat {
    if cursor < WINDOW then 0 else cursor - WINDOW
  }

  function Pruned(seen: map<EventId, nat>, before: nat): map<EventId, nat> {
    map id | id in seen && seen[id] >= before :: seen[id]
  }

  /** `record_sync_event`: whether the event is new, with the ledger after it. */
  function Recorded(s: Ledger, event: SyncEvent): Result<(Ledger, bool)> {
    if event.id in s.seen || event.cursor <= s.cursor then Ok((s, false))
    else if Collides(s.seen, event) then Err(Storage)
    else Ok((Ledger(event.cursor, Pruned(s.seen[event.id := event.cursor], PruneBefore(event.cursor))), true))
  }

  predicate IsAccepted(s: Ledger, step: Step) {
    step.Record? && Recorded(s, step.event).Ok? && Recorded(s, step.event).value.1
  }

  function Next(s: Ledger, step: Step): Ledger {
    match step
    case Record(event) => var r := Recorded(s, event); if r.Ok? then r.value.0 else s
    case Bootstrap(cursor) => s.(cursor := cursor)
  }

  class EventLedger {
    var cursor: nat
    var seen: map<EventId, nat>

    function Value(): Ledger
      reads this
    {
      Ledger(cursor, seen)
    }

    constructor ()
      ensures Value() == Ledger(0, map[])
    {
      cursor, seen := 0, map[];
    }

    /** Nothing is written unless the event is new. */
    method RecordEvent(event: SyncEvent) returns (r: Result<bool>)
      modifies this
      ensures match Recorded(old(Value()), event)
              case Ok((s, isNew)) => r == Ok(isNew) && Value() == s
              case Err(e) => r == Err(e) && Value() == old(Value())
    {
      if event.id in seen {
        return Ok(false);
      }
      if event.cursor <= cursor {
        return Ok(false);
      }
      if Collides(seen, event) {
        return Err(Storage);
      }
      seen := seen[event.id := event.cursor];
      cursor := event.cursor;
      seen := Pruned(seen, PruneBefore(event.cursor));
      return Ok(true);
    }

    method CacheBootstrap(newCursor: nat)
      modifies this
      ensures Value() == Next(old(Value()), Bootstrap(newCursor))
    {
      cursor := newCursor;
    }
  }

  // ----- runs -----

  function Run(s: Ledger, steps: seq<Step>): Ledger
    decreases |steps|
  {
    if steps == [] then s else Run(Next(s, steps[0]), steps[1..])
  }

  /** The events a run accepts, in order. */
  function Accepted(s: Ledger, steps: seq<Step>): seq<SyncEvent>
    decreases |steps|
  {
    if steps == [] then []
    else (if IsAccepted(s, steps[0]) then [steps[0].event] else []) + Accepted(Next(s, steps[0]), steps[1..])
  }

  function Highest(events: seq<SyncEvent>): nat {
    if events == [] then 0
    else
      var rest := Highest(events[..|events| - 1]);
      if events[|events| - 1].cursor > rest then events[|events| - 1].cursor else rest
  }

  /** No bootstrap sets the cursor more than the window below the highest cursor accepted so far. */
  predicate StaysNear(s: Ledger, steps: seq<Step>, before: seq<SyncEvent>)
    decreases |steps|
  {
    steps == []
    || (&& (steps[0].Bootstrap? ==> Highest(before) <= steps[0].cursor + WINDOW)
        && StaysNear(Next(s, steps[0]), steps[1..], if IsAccepted(s, steps[0]) then before + [steps[0].event] else before))
  }

  ghost predicate HasNoRepeat(events: seq<SyncEvent>) {
    forall i, j :: 0 <= i < j < |events| ==> events[i].id != events[j].id
  }

  /** Every accepted event within the window of the highest is still on record, and the cursor is within it too. */
  ghost predicate WindowInv(s: Ledger, before: seq<SyncEvent>) {
    && Highest(before) <= s.cursor + WINDOW
    && (forall e :: e in before && Highest(before) <= e.cursor + WINDOW ==> e.id in s.seen)
    && HasNoRepeat(before)
  }

  lemma {:induction false} HighestIsHighest(events: seq<SyncEvent>)
    ensures forall e :: e in events ==> e.cursor <= Highest(events)
  {
    if events != [] {
      HighestIsHighest(events[..|events| - 1]);
    }
  }

  lemma AcceptingKeeps(s: Ledger, before: seq<SyncEvent>, event: SyncEvent)
    requires WindowInv(s, before) && IsAccepted(s, Record(event))
    requires forall e :: e in before && e.id == event.id ==> e.cursor == event.cursor
    requires forall e :: e in before && e.id in s.seen ==> s.seen[e.id] == e.cursor
    ensures WindowInv(Next(s, Record(event)), before + [event])
  {
    HighestIsHighest(before);
    var after := before + [event];
    assert after[..|before|] == before;
    assert forall e :: e in before ==> e.id != event.id;
  }

  /** Event ids and cursors go together: the events of one server log. */
  predicate IsOneLog(events: set<SyncEvent>) {
    forall a, b :: a in events && b in events && a.id == b.id ==> a.cursor == b.cursor
  }

  function Mentioned(steps: seq<Step>): set<SyncEvent> {
    set step | step in steps && step.Record? :: step.event
  }

  ghost predicate RecordsTrue(s: Ledger, before: seq<SyncEvent>) {
    forall e :: e in before && e.id in s.seen ==> s.seen[e.id] == e.cursor
  }

  lemma StepKeepsWindow(s: Ledger, step: Step, before: seq<SyncEvent>)
    requires WindowInv(s, before) && RecordsTrue(s, before)
    requires step.Bootstrap? ==> Highest(before) <= step.cursor + WINDOW
    requires step.Record? ==> forall e :: e in before && e.id == step.event.id ==> e.cursor == step.event.cursor
    ensures var after := if IsAccepted(s, step) then before + [step.event] else before;
            WindowInv(Next(s, step), after) && RecordsTrue(Next(s, step), after)
  {
    if IsAccepted(s, step) {
      AcceptingKeeps(s, before, step.event);
      AcceptingRecords(s, before, step.event);
    }
  }

  lemma AcceptingRecords(s: Ledger, before: seq<SyncEvent>, event: SyncEvent)
    requires RecordsTrue(s, before) && IsAccepted(s, Record(event))
    requires forall e :: e in before && e.id == event.id ==> e.cursor == event.cursor
    ensures RecordsTrue(Next(s, Record(event)), before + [event])
  {
  }

  lemma AcceptedJoin(before: seq<SyncEvent>, step: Step, accepted: bool, rest: seq<SyncEvent>)
    requires accepted ==> step.Record?
    ensures (if accepted then before + [step.event] else before) + rest == before + ((if accepted then [step.event] else []) + rest)
  {
  }

  lemma {:induction false} NoRepeatWhileNear(s: Ledger, steps: seq<Step>, before: seq<SyncEvent>, log: set<SyncEvent>)
    requires WindowInv(s, before) && RecordsTrue(s, before) && StaysNear(s, steps, before)
    requires IsOneLog(log) && Mentioned(steps) <= log && forall e :: e in before ==> e in log
    ensures HasNoRepeat(before + Accepted(s, steps))
    decreases |steps|
  {
    if steps == [] {
      assert before + [] == before;
    } else {
      var step := steps[0];
      var after := if IsAccepted(s, step) then before + [step.event] else before;
      assert step.Record? ==> step.event in Mentioned(steps);
      assert Mentioned(steps[1..]) <= Mentioned(steps);
      StepKeepsWindow(s, step, before);
      NoRepeatWhileNear(Next(s, step), steps[1..], after, log);
      AcceptedJoin(before, step, IsAccepted(s, step), Accepted(Next(s, step), steps[1..]));
    }
  }

  /** In any run of records and bootstraps from an empty ledger, no event is accepted twice unless some bootstrap set the
      cursor more than the window below the highest accepted cursor. */
  lemma AcceptedTwiceNeedsALowBootstrap(steps: seq<Step>)
    requires IsOneLog(Mentioned(steps)) && StaysNear(Ledger(0, map[]), steps, [])
    ensures HasNoRepeat(Accepted(Ledger(0, map[]), steps))
  {
    NoRepeatWhileNear(Ledger(0, map[]), steps, [], Mentioned(steps));
    assert [] + Accepted(Ledger(0, map[]), steps) == Accepted(Ledger(0, map[]), steps);
  }

  /** Such a bootstrap does make repeats: after an event and a much later one, a bootstrap and the first event again,
      it is accepted twice exactly when the bootstrap went below it and it has left the window. */
  lemma LowBootstrapRepeats(first: SyncEvent, later: SyncEvent, low: nat)
    requires 0 < first.cursor < later.cursor && first.id != later.id
    ensures var steps := [Record(first), Record(later), Bootstrap(low), Record(first)];
            !HasNoRepeat(Accepted(Ledger(0, map[]), steps)) <==> low < first.cursor && first.cursor + WINDOW < later.cursor
  {
    var s0 := Ledger(0, map[]);
    var steps := [Record(first), Record(later), Bootstrap(low), Record(first)];
    var s1 := Ledger(first.cursor, map[first.id := first.cursor]);
    var s2 := Next(s1, Record(later));
    var s3 := Next(s2, Bootstrap(low));
    assert Next(s0, Record(first)) == s1;
    assert IsAccepted(s1, Record(later));
    assert first.id in s3.seen <==> first.cursor + WINDOW >= later.cursor;
    var end := if IsAccepted(s3, Record(first)) then [first] else [];
    assert steps[1..] == [Record(later), Bootstrap(low), Record(first)];
    assert steps[1..][1..] == [Bootstrap(low), Record(first)];
    assert steps[1..][1..][1..] == [Record(first)];
    assert Accepted(s3, [Record(first)]) == end;
    assert Accepted(s2, [Bootstrap(low), Record(first)]) == end;
    assert Accepted(s1, steps[1..]) == [later] + end;
    assert Accepted(s0, steps) == [first] + ([later] + end);
    if IsAccepted(s3, Record(first)) {
      assert Accepted(s0, steps)[0] == Accepted(s0, steps)[2] == first;
    }
  }

  /** Without bootstraps the accepted cursors strictly increase. */
  lemma {:induction false} WithoutBootstrapsIncreasing(s: Ledger, steps: seq<Step>)
    requires forall step :: step in steps ==> step.Record?
    ensures forall e :: e in Accepted(s, steps) ==> e.cursor > s.cursor
    ensures forall i, j :: 0 <= i < j < |Accepted(s, steps)| ==> Accepted(s, steps)[i].cursor < Accepted(s, steps)[j].cursor
    decreases |steps|
  {
    if steps != [] {
      WithoutBootstrapsIncreasing(Next(s, steps[0]), steps[1..]);
    }
  }

  /** An event is new exactly when its id is not on record and its cursor is above the ledger's; it is then recorded, what lies
      more than the window below it is forgotten, and what lies within stays. A new event under a recorded cursor is an error. */
  lemma RecordingIsExact(s: Ledger, event: SyncEvent, id: EventId)
    ensures var isNew := event.id !in s.seen && event.cursor > s.cursor;
            var collides := exists other :: other in s.seen && s.seen[other] == event.cursor;
            && (Recorded(s, event).Err? <==> isNew && collides)
            && (IsAccepted(s, Record(event)) <==> isNew && !collides)
            && (!isNew ==> Recorded(s, event) == Ok((s, false)))
            && (IsAccepted(s, Record(event)) ==>
                  var t := Recorded(s, event).value.0;
                  && t.cursor == event.cursor && event.id in t.seen && t.seen[event.id] == event.cursor
                  && (id in s.seen ==> (id in t.seen <==> s.seen[id] + 50000 >= event.cursor))
                  && (id in t.seen && id != event.id ==> id in s.seen && t.seen[id] == s.seen[id]))
  {
  }

  /** Events of one log that come in order are all accepted, by a ledger that has recorded nothing above its cursor. */
  lemma {:induction false} EventsInOrderAreAccepted(s: Ledger, events: seq<SyncEvent>)
    requires forall id :: id in s.seen ==> s.seen[id] <= s.cursor
    requires forall i :: 0 <= i < |events| ==> events[i].cursor > s.cursor && events[i].id !in s.seen
    requires forall i, j :: 0 <= i < j < |events| ==> events[i].cursor < events[j].cursor && events[i].id != events[j].id
    ensures Accepted(s, Records(events)) == events
    decreases |events|
  {
    if events != [] {
      RecordingIsExact(s, events[0], events[0].id);
      assert Records(events)[1..] == Records(events[1..]);
      EventsInOrderAreAccepted(Next(s, Record(events[0])), events[1..]);
      assert [events[0]] + events[1..] == events;
    }
  }

  function Records(events: seq<SyncEvent>): seq<Step> {
    seq(|events|, i requires 0 <= i < |events| => Record(events[i]))
  }
}
