/** How the Telegram client folds fetched messages into event groups: the
    dedup set, the first-matching-group rule and the single self group.
    Everything here is a value; the client object in module Telegram is
    proved to follow these functions. */
module TelegramTimeline {
  import opened Ints
  import opened Results
  import opened Decimal
  import opened Clients

  /** The sender of an incoming message as far as grouping needs it. */
  datatype Sender = Sender(id: I64, name: string)

  /** A message as the Telegram library returns it: its `i32` id, its date in
      seconds (`i64`), its text, whether this account sent it, and its sender,
      which the library may not know. */
  datatype GrammersMessage = GrammersMessage(
    id: I32,
    date: I64,
    text: string,
    outgoing: bool,
    sender: Option<Sender>)

  /** The state `process_message` works on: the groups and the ids already seen. */
  datatype Timeline = Timeline(groups: seq<EventGroup>, processed: set<string>)

  /** The state after processing, and whether processing stopped on a panic. */
  datatype Folded = Folded(timeline: Timeline, aborted: bool)

  const EmptyTimeline: Timeline := Timeline([], {})

  /** Display name of the group holding this account's own messages. */
  const SelfDisplayName: string := "You"

  /** The event id is the message id printed in decimal. */
  function EventId(m: GrammersMessage): string {
    DecimalString(m.id)
  }

  /** The sender id as the groups store it, printed in decimal. */
  function SenderId(s: Sender): string {
    DecimalString(s.id)
  }

  /** A stored event id reads back as the message's `i32` id. */
  lemma EventIdParsesBack(m: GrammersMessage)
    ensures ParseI32(EventId(m)) == Ok(m.id)
  {
    ParseI32RoundTrip(m.id);
  }

  /** A stored user id reads back as the sender's id. */
  lemma SenderIdParsesBack(s: Sender)
    ensures ParseInteger(SenderId(s)) == Some(s.id as int)
  {
    ParseDecimalString(s.id);
  }

  /** The event recorded for a message; the date is cast with `as u64`. */
  function ToEvent(m: GrammersMessage): (e: Event)
    ensures e.id == EventId(m) && e.kind == Message(m.text)
    ensures I64FromU64(e.timestamp) == m.date
  {
    I64RoundTrip(m.date);
    Event(EventId(m), U64FromI64(m.date), Message(m.text))
  }

  /** The number of events over all groups (the `map(len).sum()` of `load_more_events`). */
  function TotalEvents(gs: seq<EventGroup>): nat {
    if gs == [] then 0 else TotalEvents(gs[..|gs| - 1]) + |gs[|gs| - 1].events|
  }

  function EventIds(es: seq<Event>): set<string> {
    set i | 0 <= i < |es| :: es[i].id
  }

  /** The ids of all events in the groups. */
  function IdSet(gs: seq<EventGroup>): set<string> {
    if gs == [] then {} else IdSet(gs[..|gs| - 1]) + EventIds(gs[|gs| - 1].events)
  }

  /** The ids of a batch of messages. */
  function IdsOf(ms: seq<GrammersMessage>): set<string> {
    set i | 0 <= i < |ms| :: EventId(ms[i])
  }

  /** Group `i` with `e` pushed onto the end of its events. */
  function AppendAt(gs: seq<EventGroup>, i: nat, e: Event): (r: seq<EventGroup>)
    requires i < |gs|
    ensures |r| == |gs|
  {
    gs[i := gs[i].(events := gs[i].events + [e])]
  }

  /** The index of the first group satisfying `isMatch`: the `iter_mut` loop with
      its `found` flag and `break`. */
  function FirstMatching(gs: seq<EventGroup>, isMatch: EventGroup -> bool): (r: Option<nat>)
    ensures r.Some? ==> r.value < |gs| && isMatch(gs[r.value])
    ensures r.Some? ==> forall j :: 0 <= j < r.value ==> !isMatch(gs[j])
    ensures r.None? ==> forall j :: 0 <= j < |gs| ==> !isMatch(gs[j])
  {
    if gs == [] then None
    else if isMatch(gs[0]) then Some(0)
    else match FirstMatching(gs[1..], isMatch)
      case None => None
      case Some(k) => Some(k + 1)
  }

  /** The group test of the incoming branch: the group's user id is the sender's. */
  function FromSender(senderId: string): EventGroup -> bool {
    (g: EventGroup) => g.userId == senderId
  }

  /** The group test of the outgoing branch: the group holds this account's messages. */
  function FromSelf(): EventGroup -> bool {
    (g: EventGroup) => g.fromSelf
  }

  /** A message the grouping step can place: outgoing, or with a known sender. */
  predicate Placeable(m: GrammersMessage) {
    m.outgoing || m.sender.Some?
  }

  /** Where a new message goes. An incoming message joins the first group,
      anywhere in the list, whose `userId` is the sender's, or opens a new
      non-self group at the end. An outgoing message joins the first self group,
      or opens the self group (display name "You", no avatar) at the end. */
  function Place(gs: seq<EventGroup>, selfId: string, m: GrammersMessage): (r: seq<EventGroup>)
    requires Placeable(m)
    ensures !m.outgoing ==> (forall i ::
              0 <= i < |gs| && gs[i].userId == SenderId(m.sender.value) &&
              (forall j :: 0 <= j < i ==> gs[j].userId != SenderId(m.sender.value))
              ==> r == AppendAt(gs, i, ToEvent(m)))
    ensures !m.outgoing && (forall j :: 0 <= j < |gs| ==> gs[j].userId != SenderId(m.sender.value))
      ==> r == gs + [EventGroup(SenderId(m.sender.value), m.sender.value.name, None, [ToEvent(m)], false)]
    ensures m.outgoing ==> (forall i ::
              0 <= i < |gs| && gs[i].fromSelf && (forall j :: 0 <= j < i ==> !gs[j].fromSelf)
              ==> r == AppendAt(gs, i, ToEvent(m)))
    ensures m.outgoing && (forall j :: 0 <= j < |gs| ==> !gs[j].fromSelf)
      ==> r == gs + [EventGroup(selfId, SelfDisplayName, None, [ToEvent(m)], true)]
  {
    var e := ToEvent(m);
    if !m.outgoing then
      var sid := SenderId(m.sender.value);
      match FirstMatching(gs, FromSender(sid))
      case Some(i) => AppendAt(gs, i, e)
      case None => gs + [EventGroup(sid, m.sender.value.name, None, [e], false)]
    else
      match FirstMatching(gs, FromSelf())
      case Some(i) => AppendAt(gs, i, e)
      case None => gs + [EventGroup(selfId, SelfDisplayName, None, [e], true)]
  }

  /** One call of `process_message`. A known id changes nothing. A new id is
      inserted into the set first; an incoming message without a sender then
      panics on `unwrap` (the id stays recorded, the groups are untouched),
      and any other message is placed. */
  function Step(t: Timeline, selfId: string, m: GrammersMessage): (r: Folded)
    ensures EventId(m) in t.processed ==> r == Folded(t, false)
    ensures r.timeline.processed == t.processed + {EventId(m)}
    ensures r.aborted <==> EventId(m) !in t.processed && !Placeable(m)
    ensures r.aborted ==> r.timeline.groups == t.groups
  {
    var id := EventId(m);
    if id in t.processed then Folded(t, false)
    else if !Placeable(m) then Folded(Timeline(t.groups, t.processed + {id}), true)
    else Folded(Timeline(Place(t.groups, selfId, m), t.processed + {id}), false)
  }

  /** Messages processed one after another in fetch order, stopping at a panic. */
  function Fold(t: Timeline, selfId: string, ms: seq<GrammersMessage>): Folded
    decreases |ms|
  {
    if ms == [] then Folded(t, false)
    else
      var s := Step(t, selfId, ms[0]);
      if s.aborted then s else Fold(s.timeline, selfId, ms[1..])
  }

  /** The event total bounds every group's size, and is zero exactly when
      every group is empty. */
  lemma {:induction false} TotalEventsBounds(gs: seq<EventGroup>)
    ensures forall i :: 0 <= i < |gs| ==> |gs[i].events| <= TotalEvents(gs)
    ensures TotalEvents(gs) == 0 <==> forall i :: 0 <= i < |gs| ==> gs[i].events == []
  {
    if gs != [] {
      TotalEventsBounds(gs[..|gs| - 1]);
      assert forall i :: 0 <= i < |gs| - 1 ==> gs[..|gs| - 1][i] == gs[i];
    }
  }

  /** A batch only ever adds to the dedup set, and it aborts only at a new
      message that cannot be placed. */
  lemma {:induction false} FoldAbortsOnlyOnUnplaceable(t: Timeline, selfId: string, ms: seq<GrammersMessage>)
    ensures t.processed <= Fold(t, selfId, ms).timeline.processed
    ensures Fold(t, selfId, ms).aborted ==>
      exists i :: 0 <= i < |ms| && EventId(ms[i]) !in t.processed && !Placeable(ms[i])
    decreases |ms|
  {
    if ms != [] {
      var s := Step(t, selfId, ms[0]);
      if !s.aborted {
        FoldAbortsOnlyOnUnplaceable(s.timeline, selfId, ms[1..]);
        if Fold(t, selfId, ms).aborted {
          var i :| 0 <= i < |ms[1..]| && EventId(ms[1..][i]) !in s.timeline.processed && !Placeable(ms[1..][i]);
          assert ms[i + 1] == ms[1..][i];
        }
      }
    }
  }

  // ---------------------------------------------------------------------
  // Invariants of the timeline

  /** No two non-self groups belong to the same sender. */
  ghost predicate OthersUnique(gs: seq<EventGroup>) {
    forall i, j :: 0 <= i < j < |gs| && !gs[i].fromSelf && !gs[j].fromSelf ==> gs[i].userId != gs[j].userId
  }

  /** At most one group holds this account's own messages. */
  ghost predicate AtMostOneSelfGroup(gs: seq<EventGroup>) {
    forall i, j :: 0 <= i < j < |gs| && gs[i].fromSelf ==> !gs[j].fromSelf
  }

  ghost predicate NoEmptyGroup(gs: seq<EventGroup>) {
    forall i :: 0 <= i < |gs| ==> gs[i].events != []
  }

  /** Every stored event id is the decimal form of an `i32` message id. */
  ghost predicate IdsAreMessageIds(gs: seq<EventGroup>) {
    forall i, k :: 0 <= i < |gs| && 0 <= k < |gs[i].events| ==>
      ParseI32(gs[i].events[k].id).Ok? && DecimalString(ParseI32(gs[i].events[k].id).value) == gs[i].events[k].id
  }

  /** The invariants `process_message` keeps: the shape rules above, every
      stored id is in the dedup set, and no id is stored twice (there are as
      many events as distinct ids). */
  ghost predicate WellFormed(t: Timeline) {
    && OthersUnique(t.groups)
    && AtMostOneSelfGroup(t.groups)
    && NoEmptyGroup(t.groups)
    && IdsAreMessageIds(t.groups)
    && IdSet(t.groups) <= t.processed
    && TotalEvents(t.groups) == |IdSet(t.groups)|
  }

  /** `after` keeps every group of `before`, in place, with the same header,
      and each group's events only grow at the end. */
  ghost predicate Extends(before: seq<EventGroup>, after: seq<EventGroup>) {
    && |before| <= |after|
    && forall i :: 0 <= i < |before| ==>
         && after[i].userId == before[i].userId
         && after[i].displayName == before[i].displayName
         && after[i].avatar == before[i].avatar
         && after[i].fromSelf == before[i].fromSelf
         && before[i].events <= after[i].events
  }

  // ---------------------------------------------------------------------
  // Counting lemmas

  lemma {:induction false} TotalEventsAppendAt(gs: seq<EventGroup>, i: nat, e: Event)
    requires i < |gs|
    ensures TotalEvents(AppendAt(gs, i, e)) == TotalEvents(gs) + 1
    decreases |gs|
  {
    var r := AppendAt(gs, i, e);
    var n := |gs| - 1;
    if i < n {
      assert r[..n] == AppendAt(gs[..n], i, e);
      TotalEventsAppendAt(gs[..n], i, e);
    } else {
      assert r[..n] == gs[..n];
    }
  }

  lemma TotalEventsSnoc(gs: seq<EventGroup>, g: EventGroup)
    ensures TotalEvents(gs + [g]) == TotalEvents(gs) + |g.events|
  {
    assert (gs + [g])[..|gs|] == gs;
  }

  lemma EventIdsSnoc(es: seq<Event>, e: Event)
    ensures EventIds(es + [e]) == EventIds(es) + {e.id}
  {
    var r := es + [e];
    assert forall x :: x in EventIds(es) ==> x in EventIds(r) by {
      forall x | x in EventIds(es) ensures x in EventIds(r) {
        var i :| 0 <= i < |es| && es[i].id == x;
        assert r[i].id == x;
      }
    }
    assert r[|es|].id == e.id;
  }

  lemma {:induction false} IdSetAppendAt(gs: seq<EventGroup>, i: nat, e: Event)
    requires i < |gs|
    ensures IdSet(AppendAt(gs, i, e)) == IdSet(gs) + {e.id}
    decreases |gs|
  {
    var r := AppendAt(gs, i, e);
    var n := |gs| - 1;
    if i < n {
      assert r[..n] == AppendAt(gs[..n], i, e);
      IdSetAppendAt(gs[..n], i, e);
    } else {
      assert r[..n] == gs[..n];
      EventIdsSnoc(gs[n].events, e);
    }
  }

  lemma IdSetSnoc(gs: seq<EventGroup>, g: EventGroup)
    ensures IdSet(gs + [g]) == IdSet(gs) + EventIds(g.events)
  {
    assert (gs + [g])[..|gs|] == gs;
  }

  lemma EventIdsSingle(e: Event)
    ensures EventIds([e]) == {e.id}
  {
    assert [e][0].id == e.id;
  }

  lemma {:induction false} IdSetBound(gs: seq<EventGroup>)
    ensures |IdSet(gs)| <= TotalEvents(gs)
    decreases |gs|
  {
    if gs != [] {
      var n := |gs| - 1;
      IdSetBound(gs[..n]);
      EventIdsBound(gs[n].events);
    }
  }

  lemma {:induction false} EventIdsBound(es: seq<Event>)
    ensures |EventIds(es)| <= |es|
    decreases |es|
  {
    if es != [] {
      var n := |es| - 1;
      EventIdsBound(es[..n]);
      assert es == es[..n] + [es[n]];
      EventIdsSnoc(es[..n], es[n]);
    }
  }

  // ---------------------------------------------------------------------
  // One message

  /** Placing a message keeps every group where it was, adds exactly one
      event, and adds exactly its id to the stored ids. */
  lemma PlaceAddsOneEvent(gs: seq<EventGroup>, selfId: string, m: GrammersMessage)
    requires Placeable(m)
    ensures Extends(gs, Place(gs, selfId, m))
    ensures TotalEvents(Place(gs, selfId, m)) == TotalEvents(gs) + 1
    ensures IdSet(Place(gs, selfId, m)) == IdSet(gs) + {EventId(m)}
  {
    var e := ToEvent(m);
    var r := Place(gs, selfId, m);
    var isMatch := if !m.outgoing then FromSender(SenderId(m.sender.value)) else FromSelf();
    match FirstMatching(gs, isMatch)
    case Some(i) =>
      assert r == AppendAt(gs, i, e);
      TotalEventsAppendAt(gs, i, e);
      IdSetAppendAt(gs, i, e);
    case None =>
      var g := r[|gs|];
      assert r == gs + [g] && g.events == [e];
      TotalEventsSnoc(gs, g);
      IdSetSnoc(gs, g);
      EventIdsSingle(e);
  }

  /** Placing a message keeps the shape rules: one group per non-self sender,
      at most one self group, no empty group. */
  lemma PlaceKeepsShape(gs: seq<EventGroup>, selfId: string, m: GrammersMessage)
    requires Placeable(m)
    requires OthersUnique(gs) && AtMostOneSelfGroup(gs) && NoEmptyGroup(gs)
    ensures OthersUnique(Place(gs, selfId, m))
    ensures AtMostOneSelfGroup(Place(gs, selfId, m))
    ensures NoEmptyGroup(Place(gs, selfId, m))
  {
    var r := Place(gs, selfId, m);
    var isMatch := if !m.outgoing then FromSender(SenderId(m.sender.value)) else FromSelf();
    match FirstMatching(gs, isMatch)
    case Some(i) =>
      assert r == AppendAt(gs, i, ToEvent(m));
      assert forall j :: 0 <= j < |gs| ==> r[j].userId == gs[j].userId && r[j].fromSelf == gs[j].fromSelf;
    case None =>
      assert r[..|gs|] == gs;
  }

  lemma PlaceKeepsMessageIds(gs: seq<EventGroup>, selfId: string, m: GrammersMessage)
    requires Placeable(m)
    requires IdsAreMessageIds(gs)
    ensures IdsAreMessageIds(Place(gs, selfId, m))
  {
    ParseI32RoundTrip(m.id);
    var r := Place(gs, selfId, m);
    forall i, k | 0 <= i < |r| && 0 <= k < |r[i].events|
      ensures ParseI32(r[i].events[k].id).Ok? && DecimalString(ParseI32(r[i].events[k].id).value) == r[i].events[k].id
    {
      PlaceAddsOneEvent(gs, selfId, m);
      if i < |gs| && k < |gs[i].events| {
        assert r[i].events[k] == gs[i].events[k];
      } else {
        PlaceEventOrigin(gs, selfId, m, i, k);
      }
    }
  }

  /** An event of the placed groups either was there before or is the new one. */
  lemma PlaceEventOrigin(gs: seq<EventGroup>, selfId: string, m: GrammersMessage, i: nat, k: nat)
    requires Placeable(m)
    requires i < |Place(gs, selfId, m)| && k < |Place(gs, selfId, m)[i].events|
    ensures (i < |gs| && k < |gs[i].events| && Place(gs, selfId, m)[i].events[k] == gs[i].events[k])
         || Place(gs, selfId, m)[i].events[k] == ToEvent(m)
  {
  }

  /** One `process_message` call keeps the timeline well formed. */
  lemma StepKeepsWellFormed(t: Timeline, selfId: string, m: GrammersMessage)
    requires WellFormed(t)
    ensures WellFormed(Step(t, selfId, m).timeline)
  {
    var id := EventId(m);
    if id !in t.processed && Placeable(m) {
      var r := Place(t.groups, selfId, m);
      PlaceAddsOneEvent(t.groups, selfId, m);
      PlaceKeepsShape(t.groups, selfId, m);
      PlaceKeepsMessageIds(t.groups, selfId, m);
      assert id !in IdSet(t.groups);
      assert |IdSet(r)| == |IdSet(t.groups)| + 1;
    }
  }

  /** A message with a new id adds exactly one event and exactly its id,
      removes and reorders nothing. */
  lemma StepNewMessage(t: Timeline, selfId: string, m: GrammersMessage)
    requires EventId(m) !in t.processed && Placeable(m)
    ensures var r := Step(t, selfId, m).timeline;
      && Extends(t.groups, r.groups)
      && TotalEvents(r.groups) == TotalEvents(t.groups) + 1
      && IdSet(r.groups) == IdSet(t.groups) + {EventId(m)}
      && |r.processed| == |t.processed| + 1
  {
    PlaceAddsOneEvent(t.groups, selfId, m);
  }

  // ---------------------------------------------------------------------
  // Batches

  lemma ExtendsTransitive(a: seq<EventGroup>, b: seq<EventGroup>, c: seq<EventGroup>)
    requires Extends(a, b) && Extends(b, c)
    ensures Extends(a, c)
  {
    forall i | 0 <= i < |a| ensures a[i].events <= c[i].events {
      assert a[i].events == b[i].events[..|a[i].events|];
      assert b[i].events == c[i].events[..|b[i].events|];
    }
  }

  lemma IdsOfCons(ms: seq<GrammersMessage>)
    requires ms != []
    ensures IdsOf(ms) == {EventId(ms[0])} + IdsOf(ms[1..])
  {
    assert forall x :: x in IdsOf(ms[1..]) ==> x in IdsOf(ms) by {
      forall x | x in IdsOf(ms[1..]) ensures x in IdsOf(ms) {
        var i :| 0 <= i < |ms[1..]| && EventId(ms[1..][i]) == x;
        assert EventId(ms[i + 1]) == x;
      }
    }
    assert forall x :: x in IdsOf(ms) ==> x == EventId(ms[0]) || x in IdsOf(ms[1..]) by {
      forall x | x in IdsOf(ms) ensures x == EventId(ms[0]) || x in IdsOf(ms[1..]) {
        var i :| 0 <= i < |ms| && EventId(ms[i]) == x;
        if i > 0 { assert EventId(ms[1..][i - 1]) == x; }
      }
    }
  }

  /** A batch whose ids were all seen before changes nothing. */
  lemma {:induction false} FoldSkipsProcessed(t: Timeline, selfId: string, ms: seq<GrammersMessage>)
    requires IdsOf(ms) <= t.processed
    ensures Fold(t, selfId, ms) == Folded(t, false)
    decreases |ms|
  {
    if ms != [] {
      IdsOfCons(ms);
      FoldSkipsProcessed(t, selfId, ms[1..]);
    }
  }

  /** A batch processed to the end records exactly its ids in the dedup set;
      one that panicked recorded no id outside the batch. */
  lemma {:induction false} FoldRecordsIds(t: Timeline, selfId: string, ms: seq<GrammersMessage>)
    ensures var r := Fold(t, selfId, ms);
      && (!r.aborted ==> r.timeline.processed == t.processed + IdsOf(ms))
      && t.processed <= r.timeline.processed <= t.processed + IdsOf(ms)
    decreases |ms|
  {
    if ms != [] {
      IdsOfCons(ms);
      var s := Step(t, selfId, ms[0]);
      if !s.aborted {
        FoldRecordsIds(s.timeline, selfId, ms[1..]);
      }
    }
  }

  /** Processing the same batch again after it completed changes nothing. */
  lemma FoldIdempotent(t: Timeline, selfId: string, ms: seq<GrammersMessage>)
    requires !Fold(t, selfId, ms).aborted
    ensures Fold(Fold(t, selfId, ms).timeline, selfId, ms) == Fold(t, selfId, ms)
  {
    FoldRecordsIds(t, selfId, ms);
    FoldSkipsProcessed(Fold(t, selfId, ms).timeline, selfId, ms);
  }

  /** A batch keeps the timeline well formed and keeps every existing group in place. */
  lemma {:induction false} FoldKeepsWellFormed(t: Timeline, selfId: string, ms: seq<GrammersMessage>)
    requires WellFormed(t)
    ensures WellFormed(Fold(t, selfId, ms).timeline)
    ensures Extends(t.groups, Fold(t, selfId, ms).timeline.groups)
    decreases |ms|
  {
    if ms != [] {
      var s := Step(t, selfId, ms[0]);
      StepKeepsWellFormed(t, selfId, ms[0]);
      if EventId(ms[0]) !in t.processed && Placeable(ms[0]) {
        PlaceAddsOneEvent(t.groups, selfId, ms[0]);
      }
      if !s.aborted {
        FoldKeepsWellFormed(s.timeline, selfId, ms[1..]);
        ExtendsTransitive(t.groups, s.timeline.groups, Fold(s.timeline, selfId, ms[1..]).timeline.groups);
      }
    }
  }

  /** Without a panic, the events gained equal the ids newly recorded. */
  lemma {:induction false} FoldCountsNewIds(t: Timeline, selfId: string, ms: seq<GrammersMessage>)
    requires !Fold(t, selfId, ms).aborted
    ensures var r := Fold(t, selfId, ms).timeline;
      TotalEvents(r.groups) + |t.processed| == TotalEvents(t.groups) + |r.processed|
    decreases |ms|
  {
    if ms != [] {
      var s := Step(t, selfId, ms[0]);
      if EventId(ms[0]) !in t.processed {
        PlaceAddsOneEvent(t.groups, selfId, ms[0]);
      }
      FoldCountsNewIds(s.timeline, selfId, ms[1..]);
    }
  }

  /** A new incoming message whose sender has a group joins the first such group. */
  lemma StepJoinsSenderGroup(t: Timeline, selfId: string, m: GrammersMessage, i: nat)
    requires EventId(m) !in t.processed && !m.outgoing && m.sender.Some?
    requires FirstMatching(t.groups, FromSender(SenderId(m.sender.value))) == Some(i)
    ensures Step(t, selfId, m) == Folded(Timeline(AppendAt(t.groups, i, ToEvent(m)), t.processed + {EventId(m)}), false)
  {
  }

  /** A new incoming message whose sender has no group opens one at the end. */
  lemma StepOpensSenderGroup(t: Timeline, selfId: string, m: GrammersMessage)
    requires EventId(m) !in t.processed && !m.outgoing && m.sender.Some?
    requires FirstMatching(t.groups, FromSender(SenderId(m.sender.value))).None?
    ensures Step(t, selfId, m).timeline.groups
         == t.groups + [EventGroup(SenderId(m.sender.value), m.sender.value.name, None, [ToEvent(m)], false)]
    ensures Step(t, selfId, m).timeline.processed == t.processed + {EventId(m)}
    ensures !Step(t, selfId, m).aborted
  {
  }

  /** The four steps of the A, A, B, A example, one after the other. */
  lemma InterleavedSteps(selfId: string, a: Sender, b: Sender,
      m1: GrammersMessage, m2: GrammersMessage, m3: GrammersMessage, m4: GrammersMessage)
    requires SenderId(a) != SenderId(b)
    requires !m1.outgoing && !m2.outgoing && !m3.outgoing && !m4.outgoing
    requires m1.sender == Some(a) && m2.sender == Some(a) && m3.sender == Some(b) && m4.sender == Some(a)
    requires EventId(m1) != EventId(m2) && EventId(m1) != EventId(m3) && EventId(m1) != EventId(m4)
    requires EventId(m2) != EventId(m3) && EventId(m2) != EventId(m4) && EventId(m3) != EventId(m4)
    ensures var s1 := Step(EmptyTimeline, selfId, m1);
      var s2 := Step(s1.timeline, selfId, m2);
      var s3 := Step(s2.timeline, selfId, m3);
      var s4 := Step(s3.timeline, selfId, m4);
      && !s1.aborted && !s2.aborted && !s3.aborted && !s4.aborted
      && s4.timeline.groups == [
           EventGroup(SenderId(a), a.name, None, [ToEvent(m1), ToEvent(m2), ToEvent(m4)], false),
           EventGroup(SenderId(b), b.name, None, [ToEvent(m3)], false)]
  {
    var e1, e2, e4 := ToEvent(m1), ToEvent(m2), ToEvent(m4);
    var fromA, fromB := FromSender(SenderId(a)), FromSender(SenderId(b));
    var s1 := Step(EmptyTimeline, selfId, m1);
    StepOpensSenderGroup(EmptyTimeline, selfId, m1);
    var s2 := Step(s1.timeline, selfId, m2);
    assert FirstMatching(s1.timeline.groups, fromA) == Some(0);
    StepJoinsSenderGroup(s1.timeline, selfId, m2, 0);
    var s3 := Step(s2.timeline, selfId, m3);
    assert FirstMatching(s2.timeline.groups, fromB) == None by {
      assert !fromB(s2.timeline.groups[0]);
    }
    StepOpensSenderGroup(s2.timeline, selfId, m3);
    var s4 := Step(s3.timeline, selfId, m4);
    assert FirstMatching(s3.timeline.groups, fromA) == Some(0);
    StepJoinsSenderGroup(s3.timeline, selfId, m4, 0);
    assert s4.timeline.groups[0].events == [e1] + [e2] + [e4] == [e1, e2, e4];
  }

  /** Incoming messages from A, A, B, A, in that order, make two groups: the
      last message from A joins A's first group rather than opening a third. */
  lemma {:induction false} InterleavedSenderRejoinsFirstGroup(selfId: string, a: Sender, b: Sender,
      m1: GrammersMessage, m2: GrammersMessage, m3: GrammersMessage, m4: GrammersMessage)
    requires SenderId(a) != SenderId(b)
    requires !m1.outgoing && !m2.outgoing && !m3.outgoing && !m4.outgoing
    requires m1.sender == Some(a) && m2.sender == Some(a) && m3.sender == Some(b) && m4.sender == Some(a)
    requires EventId(m1) != EventId(m2) && EventId(m1) != EventId(m3) && EventId(m1) != EventId(m4)
    requires EventId(m2) != EventId(m3) && EventId(m2) != EventId(m4) && EventId(m3) != EventId(m4)
    ensures var r := Fold(EmptyTimeline, selfId, [m1, m2, m3, m4]);
      && !r.aborted
      && r.timeline.groups == [
           EventGroup(SenderId(a), a.name, None, [ToEvent(m1), ToEvent(m2), ToEvent(m4)], false),
           EventGroup(SenderId(b), b.name, None, [ToEvent(m3)], false)]
  {
    InterleavedSteps(selfId, a, b, m1, m2, m3, m4);
    var s1 := Step(EmptyTimeline, selfId, m1);
    var s2 := Step(s1.timeline, selfId, m2);
    var s3 := Step(s2.timeline, selfId, m3);
    var s4 := Step(s3.timeline, selfId, m4);
    var ms := [m1, m2, m3, m4];
    assert ms[1..] == [m2, m3, m4] && ms[1..][1..] == [m3, m4] && ms[1..][1..][1..] == [m4];
    assert Fold(s3.timeline, selfId, [m4]) == s4;
    assert Fold(s2.timeline, selfId, [m3, m4]) == s4;
    assert Fold(s1.timeline, selfId, [m2, m3, m4]) == s4;
  }
}
