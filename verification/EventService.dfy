/**
 * Server events with a sign-up list, a reminder five minutes before the start and the rollover
 * of repeating events. The persisted file is the `events` field of an `EventStore`; times are
 * milliseconds since the epoch and the clock is a parameter.
 */
module EventService {
  import opened Wrappers
  import opened OrderedDict
  import opened Seqs
  import opened Sorting
  import opened Text

  datatype Participant = Participant(id: string, name: string, joinedAt: string)

  datatype Event = Event(
    id: string, guildId: string, channelId: string, messageId: string, creatorId: string, creatorName: string,
    title: string, description: string, datetime: int, repeat: string, participants: seq<Participant>,
    notified: bool, createdAt: string)

  const MinuteMs: int := 60000
  const DayMs: int := 86400000
  const WeekMs: int := 7 * DayMs

  /** `evt_${Date.now()}`. */
  function EventId(now: nat): (r: string)
    ensures StartsWith(r, "evt_")
  {
    "evt_" + NatToBase(now, 10)
  }

  /** `createEvent`'s record: no participants, not notified, no description and no repeat by default. */
  function NewEvent(
    id: string, guildId: string, channelId: string, messageId: string, creatorId: string, creatorName: string,
    title: string, description: string, datetime: int, repeat: string, createdAt: string): (r: Event)
    ensures r.participants == [] && !r.notified
    ensures r.repeat == if repeat == "" then "none" else repeat
    ensures r.description == description
    ensures r.id == id && r.guildId == guildId && r.datetime == datetime && r.title == title
  {
    Event(id, guildId, channelId, messageId, creatorId, creatorName, title, description, datetime,
          if repeat == "" then "none" else repeat, [], false, createdAt)
  }

  // ---------------------------------------------------------------------------
  // Sign-up list
  // ---------------------------------------------------------------------------

  function IdOf(p: Participant): string { p.id }

  function Ids(ps: seq<Participant>): seq<string> {
    Map(ps, IdOf)
  }

  /** `(p) => p.id === userId`. */
  function IsUser(userId: string): Participant -> bool {
    (p: Participant) => p.id == userId
  }

  lemma IdsAppend(a: seq<Participant>, b: seq<Participant>)
    ensures Ids(a + b) == Ids(a) + Ids(b)
  {
  }

  predicate UniqueIds(ps: seq<Participant>) {
    forall i, j :: 0 <= i < j < |ps| ==> ps[i].id != ps[j].id
  }

  /** The participant list after a click on the sign-up button: leave when listed, else join at the end. */
  function Toggled(ps: seq<Participant>, userId: string, userName: string, at: string): (r: seq<Participant>)
    ensures var idx := FindIndex(ps, IsUser(userId));
      && (idx >= 0 ==> r == ps[..idx] + ps[idx + 1..])
      && (idx < 0 ==> r == ps + [Participant(userId, userName, at)])
  {
    var idx := FindIndex(ps, IsUser(userId));
    if idx >= 0 then ps[..idx] + ps[idx + 1..] else ps + [Participant(userId, userName, at)]
  }

  lemma IdsListed(ps: seq<Participant>, userId: string)
    ensures userId in Ids(ps) <==> FindIndex(ps, IsUser(userId)) >= 0
  {
    var idx := FindIndex(ps, IsUser(userId));
    if userId in Ids(ps) {
      var k :| 0 <= k < |ps| && Ids(ps)[k] == userId;
      assert ps[k].id == userId;
    }
  }

  /** A toggle keeps the ids distinct and flips whether the user is listed. */
  lemma ToggleFlips(ps: seq<Participant>, userId: string, userName: string, at: string)
    requires UniqueIds(ps)
    ensures UniqueIds(Toggled(ps, userId, userName, at))
    ensures userId in Ids(ps) <==> userId !in Ids(Toggled(ps, userId, userName, at))
    ensures forall other :: other != userId ==> (other in Ids(ps) <==> other in Ids(Toggled(ps, userId, userName, at)))
  {
    var idx := FindIndex(ps, IsUser(userId));
    IdsListed(ps, userId);
    if idx >= 0 {
      LeaveFlips(ps, idx);
    } else {
      JoinFlips(ps, Participant(userId, userName, at));
    }
  }

  /** Removing the participant at `idx` keeps the ids distinct and unlists only that participant. */
  lemma LeaveFlips(ps: seq<Participant>, idx: nat)
    requires UniqueIds(ps) && idx < |ps|
    ensures var r := ps[..idx] + ps[idx + 1..];
      && UniqueIds(r) && ps[idx].id !in Ids(r)
      && forall other :: other != ps[idx].id ==> (other in Ids(ps) <==> other in Ids(r))
  {
    var r := ps[..idx] + ps[idx + 1..];
    var userId := ps[idx].id;
    assert forall i :: 0 <= i < |r| ==> r[i] == (if i < idx then ps[i] else ps[i + 1]);
    assert userId !in Ids(r) by {
      forall i | 0 <= i < |r| ensures Ids(r)[i] != userId {
        if i >= idx {
          assert ps[i + 1].id != ps[idx].id;
        }
      }
    }
    forall other | other != userId ensures other in Ids(ps) <==> other in Ids(r) {
      if other in Ids(ps) {
        var k :| 0 <= k < |ps| && Ids(ps)[k] == other;
        assert k != idx;
        var j := if k < idx then k else k - 1;
        assert Ids(r)[j] == other;
      }
      if other in Ids(r) {
        var j :| 0 <= j < |r| && Ids(r)[j] == other;
        var k := if j < idx then j else j + 1;
        assert Ids(ps)[k] == other;
      }
    }
  }

  /** Appending a participant whose id is not listed keeps the ids distinct and lists only that id. */
  lemma JoinFlips(ps: seq<Participant>, p: Participant)
    requires UniqueIds(ps) && p.id !in Ids(ps)
    ensures UniqueIds(ps + [p]) && p.id in Ids(ps + [p])
    ensures forall other :: other != p.id ==> (other in Ids(ps) <==> other in Ids(ps + [p]))
  {
    assert Ids(ps + [p]) == Ids(ps) + [p.id];
    assert forall i :: 0 <= i < |ps| ==> Ids(ps)[i] != p.id;
  }

  /** Joining and then leaving restores the list exactly. */
  lemma ToggleTwiceNewcomer(ps: seq<Participant>, userId: string, n1: string, a1: string, n2: string, a2: string)
    requires userId !in Ids(ps)
    ensures Toggled(Toggled(ps, userId, n1, a1), userId, n2, a2) == ps
  {
    IdsListed(ps, userId);
    var once := Toggled(ps, userId, n1, a1);
    assert once == ps + [Participant(userId, n1, a1)];
    assert IsUser(userId)(once[|ps|]);
    assert forall i :: 0 <= i < |ps| ==> !IsUser(userId)(once[i]) by {
      forall i | 0 <= i < |ps| ensures !IsUser(userId)(once[i]) {
        assert Ids(ps)[i] == ps[i].id;
      }
    }
    var idx := FindIndex(once, IsUser(userId));
    assert idx == |ps|;
    assert once[..idx] + once[idx + 1..] == ps;
  }

  /** After leaving, a user with a unique id is no longer listed. */
  lemma LeaveUnlists(ps: seq<Participant>, userId: string, idx: int)
    requires UniqueIds(ps) && 0 <= idx < |ps| && ps[idx].id == userId
    ensures FindIndex(ps[..idx] + ps[idx + 1..], IsUser(userId)) < 0
  {
    var once := ps[..idx] + ps[idx + 1..];
    forall i | 0 <= i < |once| ensures !IsUser(userId)(once[i]) {
      if i < idx {
        assert once[i] == ps[i];
      } else {
        assert once[i] == ps[i + 1];
      }
    }
  }

  /** Leaving and then joining again keeps the same ids, the user now last. */
  lemma ToggleTwiceMember(ps: seq<Participant>, userId: string, n: string, a: string)
    requires UniqueIds(ps) && userId in Ids(ps)
    ensures var twice := Toggled(Toggled(ps, userId, n, a), userId, n, a);
      && multiset(Ids(twice)) == multiset(Ids(ps))
      && Ids(twice)[|twice| - 1] == userId
  {
    IdsListed(ps, userId);
    var idx := FindIndex(ps, IsUser(userId));
    var pre, post := ps[..idx], ps[idx + 1..];
    var once := pre + post;
    assert Toggled(ps, userId, n, a) == once;
    LeaveUnlists(ps, userId, idx);
    assert Toggled(once, userId, n, a) == once + [Participant(userId, n, a)];
    assert ps == pre + [ps[idx]] + post;
    MoveToEnd(pre, ps[idx], post, Participant(userId, n, a));
  }

  lemma MoveToEnd(pre: seq<Participant>, x: Participant, post: seq<Participant>, y: Participant)
    requires x.id == y.id
    ensures multiset(Ids(pre + post + [y])) == multiset(Ids(pre + [x] + post))
    ensures Ids(pre + post + [y])[|pre + post|] == y.id
  {
    IdsAppend(pre, [x]);
    IdsAppend(pre + [x], post);
    IdsAppend(pre, post);
    IdsAppend(pre + post, [y]);
  }

  // ---------------------------------------------------------------------------
  // Reminder and rollover
  // ---------------------------------------------------------------------------

  /** One event's pass through `checkAndNotify`: the new record, and whether the reminder went out. */
  datatype Tick = Tick(event: Event, reminded: bool)

  /** The reminder window: more than four and at most six minutes before the start. */
  predicate InReminderWindow(datetime: int, now: int) {
    4 * MinuteMs < datetime - now <= 6 * MinuteMs
  }

  /** More than thirty minutes after the start. */
  predicate Over(datetime: int, now: int) {
    datetime - now < -30 * MinuteMs
  }

  function Step(e: Event, now: int): (r: Tick)
    ensures r.reminded <==> InReminderWindow(e.datetime, now) && !e.notified
    ensures r.reminded ==> r.event == e.(notified := true)
    ensures !r.reminded && Over(e.datetime, now) && e.notified && e.repeat == "daily" ==>
      r.event == e.(datetime := e.datetime + DayMs, notified := false)
    ensures !r.reminded && Over(e.datetime, now) && e.notified && e.repeat == "weekly" ==>
      r.event == e.(datetime := e.datetime + WeekMs, notified := false)
    ensures !r.reminded && !(Over(e.datetime, now) && e.notified && e.repeat in ["daily", "weekly"]) ==> r.event == e
  {
    var reminded := InReminderWindow(e.datetime, now) && !e.notified;
    var e1 := if reminded then e.(notified := true) else e;
    var e2 :=
      if Over(e1.datetime, now) && e1.notified then
        if e1.repeat == "daily" then e1.(datetime := e1.datetime + DayMs, notified := false)
        else if e1.repeat == "weekly" then e1.(datetime := e1.datetime + WeekMs, notified := false)
        else e1
      else e1;
    Tick(e2, reminded)
  }

  /** Once sent, the reminder is not sent again for the same start time, whenever the next pass runs. */
  lemma RemindOnce(e: Event, t1: int, t2: int)
    requires Step(e, t1).reminded
    ensures !Step(Step(e, t1).event, t2).reminded
  {
  }

  /** A rollover moves a repeating event forward by a day or a week and re-arms its reminder. */
  lemma RolloverRearms(e: Event, now: int)
    requires e.notified && Over(e.datetime, now) && e.repeat in ["daily", "weekly"]
    ensures var n := Step(e, now).event;
      && !n.notified
      && n.datetime - e.datetime == (if e.repeat == "daily" then DayMs else WeekMs)
      && n.participants == e.participants
  {
  }

  /**
   * An event whose reminder never went out is never rolled over: once it is more than half an hour
   * past, every later pass leaves it as it is, even when it repeats.
   */
  lemma MissedReminderStays(e: Event, now: int, later: int)
    requires !e.notified && Over(e.datetime, now) && now <= later
    ensures Step(e, later).event == e && !Step(e, later).reminded
  {
  }

  // ---------------------------------------------------------------------------
  // The store
  // ---------------------------------------------------------------------------

  function DatetimeOf(e: Event): int { e.datetime }
  function Earliest(e: Event): int { -e.datetime }

  /** `getGuildEvents`: the guild's events, earliest first, ties in stored order. */
  function GuildEvents(events: Dict<Event>, guildId: string): (r: seq<Event>)
    ensures forall i, j :: 0 <= i < j < |r| ==> r[i].datetime <= r[j].datetime
    ensures multiset(r) == multiset(Filter(Values(events), (e: Event) => e.guildId == guildId))
    ensures forall e :: e in r <==> e in Values(events) && e.guildId == guildId
  {
    var mine := Filter(Values(events), (e: Event) => e.guildId == guildId);
    var r := SortDesc(mine, Earliest);
    assert forall e :: e in r <==> e in mine by {
      forall e ensures e in r <==> e in mine {
        assert e in r <==> e in multiset(r);
      }
    }
    r
  }

  /** The loop body of `checkAndNotify` for one event. */
  method NotifyOne(e: Event, now: int) returns (event: Event, sent: bool, changed: bool)
    ensures Tick(event, sent) == Step(e, now)
    ensures changed <==> event != e
  {
    event := e;
    sent := false;
    changed := false;
    var diff := event.datetime - now;
    if 4 * MinuteMs < diff <= 6 * MinuteMs && !event.notified {
      sent := true;
      event := event.(notified := true);
      changed := true;
    }
    if diff < -30 * MinuteMs && event.notified {
      if event.repeat == "daily" {
        event := event.(datetime := event.datetime + DayMs, notified := false);
        changed := true;
      } else if event.repeat == "weekly" {
        event := event.(datetime := event.datetime + WeekMs, notified := false);
        changed := true;
      }
    }
  }

  class EventStore {
    var events: Dict<Event>

    ghost predicate Valid()
      reads this
    {
      OrderedDict.Valid(events)
    }

    constructor ()
      ensures events == [] && Valid()
    {
      events := [];
    }

    /** `getEvent`. */
    function Lookup(eventId: string): (r: Option<Event>)
      reads this
      ensures r.Some? <==> eventId in Keys(events)
    {
      Get(events, eventId)
    }

    /** `createEvent`: stores a fresh event under `evt_<now>` and returns it. */
    method CreateEvent(
      guildId: string, channelId: string, messageId: string, creatorId: string, creatorName: string,
      title: string, description: string, datetime: int, repeat: string, now: nat, createdAt: string)
      returns (e: Event)
      requires Valid()
      modifies this
      ensures Valid()
      ensures e == NewEvent(EventId(now), guildId, channelId, messageId, creatorId, creatorName, title,
                            description, datetime, repeat, createdAt)
      ensures events == Put(old(events), EventId(now), e)
      ensures Lookup(EventId(now)) == Some(e)
    {
      var eventId := EventId(now);
      e := Event(eventId, guildId, channelId, messageId, creatorId, creatorName, title, description, datetime,
                 if repeat == "" then "none" else repeat, [], false, createdAt);
      events := Put(events, eventId, e);
    }

    /** `toggleParticipant`: null for an unknown event, otherwise the event after the toggle. */
    method ToggleParticipant(eventId: string, userId: string, userName: string, at: string)
      returns (r: Option<Event>)
      requires Valid()
      modifies this
      ensures Valid()
      ensures r.None? <==> old(Lookup(eventId)).None?
      ensures r.None? ==> events == old(events)
      ensures r.Some? ==>
        var e := old(Lookup(eventId)).value;
        && r.value == e.(participants := Toggled(e.participants, userId, userName, at))
        && events == Put(old(events), eventId, r.value)
    {
      var found := Get(events, eventId);
      if found.None? {
        return None;
      }
      var event := found.value;
      var participants := event.participants;
      var idx := FindIndex(participants, IsUser(userId));
      if idx >= 0 {
        participants := participants[..idx] + participants[idx + 1..];
      } else {
        participants := participants + [Participant(userId, userName, at)];
      }
      event := event.(participants := participants);
      events := Put(events, eventId, event);
      r := Some(event);
    }

    /** `deleteEvent`: false, changing nothing, for an unknown event; otherwise removes only it. */
    method DeleteEvent(eventId: string) returns (ok: bool)
      requires Valid()
      modifies this
      ensures Valid()
      ensures ok <==> old(Lookup(eventId)).Some?
      ensures !ok ==> events == old(events)
      ensures events == Remove(old(events), eventId)
      ensures Lookup(eventId).None?
    {
      if Get(events, eventId).None? {
        return false;
      }
      events := Remove(events, eventId);
      ok := true;
    }

    /**
     * `checkAndNotify`: one pass over every event in stored order. The ids of the events whose
     * reminder went out are returned in that order; sending the messages is not modelled.
     */
    method CheckAndNotify(now: int) returns (reminded: seq<string>, changed: bool)
      requires Valid()
      modifies this
      ensures Valid()
      ensures Keys(events) == Keys(old(events))
      ensures forall i :: 0 <= i < |events| ==> events[i].value == Step(old(events)[i].value, now).event
      ensures reminded == RemindedIds(old(events), now)
      ensures changed <==> events != old(events)
    {
      reminded := [];
      changed := false;
      ghost var before := events;
      var es := events;
      for i := 0 to |es|
        invariant PassedUpTo(es, before, i, now)
        invariant reminded == RemindedIds(before[..i], now)
        invariant changed <==> es != before
      {
        var event, sent, eventChanged := NotifyOne(es[i].value, now);
        if sent {
          reminded := reminded + [es[i].key];
        }
        RemindedSnoc(before, i, now);
        ReplaceChanges(es, before, i, Entry(es[i].key, event));
        PassStep(es, before, i, now);
        es := es[i := Entry(es[i].key, event)];
        changed := changed || eventChanged;
      }
      assert before[..|before|] == before;
      SameKeys(es, before);
      events := es;
    }
  }

  /** Two lists with the same key at every place have the same keys, and one is valid when the other is. */
  lemma SameKeys<V>(a: Dict<V>, b: Dict<V>)
    requires |a| == |b| && forall k :: 0 <= k < |a| ==> a[k].key == b[k].key
    ensures Keys(a) == Keys(b)
    ensures OrderedDict.Valid(b) ==> OrderedDict.Valid(a)
  {
  }

  /** The first `i` events of `before` have been stepped, the rest are untouched, and no key moved. */
  ghost predicate PassedUpTo(es: Dict<Event>, before: Dict<Event>, i: nat, now: int) {
    && i <= |es| == |before|
    && (forall k :: 0 <= k < |es| ==> es[k].key == before[k].key)
    && (forall k :: 0 <= k < i ==> es[k].value == Step(before[k].value, now).event)
    && (forall k :: i <= k < |es| ==> es[k] == before[k])
  }

  lemma PassStep(es: Dict<Event>, before: Dict<Event>, i: nat, now: int)
    requires PassedUpTo(es, before, i, now) && i < |es|
    ensures PassedUpTo(es[i := Entry(es[i].key, Step(es[i].value, now).event)], before, i + 1, now)
  {
  }

  /** One more event in the pass. */
  lemma RemindedSnoc(events: Dict<Event>, i: nat, now: int)
    requires i < |events|
    ensures RemindedIds(events[..i + 1], now)
         == RemindedIds(events[..i], now) + (if Step(events[i].value, now).reminded then [events[i].key] else [])
  {
    assert events[..i + 1][..i] == events[..i];
  }

  /** Replacing an untouched entry changes the list exactly when it was changed already or the entry differs. */
  lemma ReplaceChanges<T>(current: seq<T>, before: seq<T>, i: nat, x: T)
    requires |current| == |before| && i < |current| && current[i] == before[i]
    ensures current[i := x] != before <==> current != before || x != before[i]
  {
    if current[i := x] == before {
      assert x == before[i];
      assert current == current[i := x];
    }
  }

  /** The ids of the events one pass reminds, in stored order. */
  function RemindedIds(events: Dict<Event>, now: int): seq<string> {
    if |events| == 0 then []
    else
      var last := events[|events| - 1];
      RemindedIds(events[..|events| - 1], now) + (if Step(last.value, now).reminded then [last.key] else [])
  }

  /** The pass reminds exactly the un-notified events inside the window. */
  lemma {:induction false} RemindedIdsAre(events: Dict<Event>, now: int, id: string)
    requires OrderedDict.Valid(events)
    ensures id in RemindedIds(events, now) <==>
      exists i :: 0 <= i < |events| && events[i].key == id && InReminderWindow(events[i].value.datetime, now)
                  && !events[i].value.notified
    decreases |events|
  {
    if |events| > 0 {
      var n := |events| - 1;
      var init := events[..n];
      assert OrderedDict.Valid(init);
      RemindedIdsAre(init, now, id);
      if exists i :: 0 <= i < n && init[i].key == id && InReminderWindow(init[i].value.datetime, now)
                     && !init[i].value.notified {
        var i :| 0 <= i < n && init[i].key == id && InReminderWindow(init[i].value.datetime, now)
                 && !init[i].value.notified;
        assert events[i] == init[i];
      }
      if exists i :: 0 <= i < |events| && events[i].key == id && InReminderWindow(events[i].value.datetime, now)
                     && !events[i].value.notified {
        var i :| 0 <= i < |events| && events[i].key == id && InReminderWindow(events[i].value.datetime, now)
                 && !events[i].value.notified;
        if i < n {
          assert init[i] == events[i];
        }
      }
    }
  }
}
