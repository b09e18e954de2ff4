/** The map screen (src/pages/EventsMap.tsx): the list of events shown as
    markers, refreshed by a fetch that keeps only upcoming events, and the
    footer that counts them. Date parsing is the `timestamp` parameter:
    the milliseconds of a `dateTime` text, or None where the text does not
    parse (JavaScript's NaN, which no comparison keeps). */
module EventsMap {
  import opened EventTypes
  import opened Decimal

  const FooterSuffix: string := " event(s) found"

  /** The filter's test: the event's time is known and not before `now`. */
  predicate IsUpcoming(e: Event, now: int, timestamp: string -> Option<int>) {
    timestamp(e.dateTime).Some? && timestamp(e.dateTime).value >= now
  }

  /** `xs` is `ys` with some elements dropped, the rest in their order. */
  predicate SubsequenceOf<T(==)>(xs: seq<T>, ys: seq<T>)
    decreases |ys|
  {
    if ys == [] then xs == []
    else (xs != [] && xs[0] == ys[0] && SubsequenceOf(xs[1..], ys[1..])) || SubsequenceOf(xs, ys[1..])
  }

  /** `fetchedEvents.filter(...)`: the upcoming events, in fetched order. An
      event is kept exactly when it is upcoming, so one whose time equals
      `now` is kept, and it is kept as many times as it was fetched. */
  function UpcomingEvents(events: seq<Event>, now: int, timestamp: string -> Option<int>): (kept: seq<Event>)
    ensures |kept| <= |events|
    ensures forall i :: 0 <= i < |kept| ==> IsUpcoming(kept[i], now, timestamp)
    ensures forall e :: e in kept ==> e in events
    ensures forall e :: e in events && IsUpcoming(e, now, timestamp) ==> e in kept
    ensures SubsequenceOf(kept, events)
    ensures forall e :: multiset(kept)[e] == if IsUpcoming(e, now, timestamp) then multiset(events)[e] else 0
    decreases |events|
  {
    if events == [] then []
    else
      var rest := UpcomingEvents(events[1..], now, timestamp);
      assert events == [events[0]] + events[1..];
      assert multiset(events) == multiset{events[0]} + multiset(events[1..]);
      assert forall e :: e in events[1..] ==> e in events;
      assert forall e :: e in events ==> e == events[0] || e in events[1..];
      if IsUpcoming(events[0], now, timestamp) then
        var kept := [events[0]] + rest;
        assert kept[1..] == rest;
        kept
      else
        rest
  }

  /** Filtering an already filtered list changes nothing. */
  lemma {:induction false} UpcomingEventsIdempotent(events: seq<Event>, now: int, timestamp: string -> Option<int>)
    ensures UpcomingEvents(UpcomingEvents(events, now, timestamp), now, timestamp)
         == UpcomingEvents(events, now, timestamp)
    decreases |events|
  {
    if events != [] {
      UpcomingEventsIdempotent(events[1..], now, timestamp);
      var rest := UpcomingEvents(events[1..], now, timestamp);
      if IsUpcoming(events[0], now, timestamp) {
        var kept := [events[0]] + rest;
        assert kept[0] == events[0] && kept[1..] == rest;
      }
    }
  }

  /** A list whose events are all upcoming is shown whole. */
  lemma {:induction false} UpcomingEventsKeepsAll(events: seq<Event>, now: int, timestamp: string -> Option<int>)
    requires forall i :: 0 <= i < |events| ==> IsUpcoming(events[i], now, timestamp)
    ensures UpcomingEvents(events, now, timestamp) == events
    decreases |events|
  {
    if events != [] {
      assert IsUpcoming(events[0], now, timestamp);
      UpcomingEventsKeepsAll(events[1..], now, timestamp);
      assert [events[0]] + events[1..] == events;
    }
  }

  /** A later clock shows no event an earlier one hid: what is kept at
      `later` is kept, in order, at `earlier`. */
  lemma {:induction false} UpcomingEventsShrinkOverTime(events: seq<Event>, earlier: int, later: int, timestamp: string -> Option<int>)
    requires earlier <= later
    ensures SubsequenceOf(UpcomingEvents(events, later, timestamp), UpcomingEvents(events, earlier, timestamp))
    decreases |events|
  {
    if events != [] {
      var restLater := UpcomingEvents(events[1..], later, timestamp);
      var restEarlier := UpcomingEvents(events[1..], earlier, timestamp);
      UpcomingEventsShrinkOverTime(events[1..], earlier, later, timestamp);
      if IsUpcoming(events[0], later, timestamp) {
        var a := [events[0]] + restLater;
        var b := [events[0]] + restEarlier;
        assert a[1..] == restLater && b[1..] == restEarlier;
      } else if IsUpcoming(events[0], earlier, timestamp) {
        var b := [events[0]] + restEarlier;
        assert b[1..] == restEarlier;
      }
    }
  }

  /** The footer text: the number of events on the map, in digits without
      a leading zero (unless it is zero) that read back as that number,
      followed by " event(s) found". */
  function FooterText(events: seq<Event>): (r: string)
    ensures |r| > |FooterSuffix| && r[|r| - |FooterSuffix|..] == FooterSuffix
    ensures AllDigits(r[..|r| - |FooterSuffix|]) && ParseNat(r[..|r| - |FooterSuffix|]) == |events|
    ensures r[0] == '0' <==> |events| == 0
    ensures |events| == 0 ==> r == "0" + FooterSuffix
  {
    var count := NatText(|events|);
    ParseNatText(|events|);
    var r := count + FooterSuffix;
    assert r[..|r| - |FooterSuffix|] == count;
    r
  }

  /** The screen's state: the `events` list, empty until a fetch succeeds. */
  class EventsMapScreen {
    var events: seq<Event>

    constructor ()
      ensures events == []
    {
      events := [];
    }

    /** `fetchEvents`. `fetched` is what the network-first cache read
        resolved with (or its rejection), `now` the clock at filtering. A
        successful fetch replaces the list by its upcoming events; a failed
        one is only logged and leaves the list as it was. */
    method FetchEvents(fetched: Result<seq<Event>, ApiError>, now: int, timestamp: string -> Option<int>)
      modifies this
      ensures fetched.Ok? ==> events == UpcomingEvents(fetched.value, now, timestamp)
      ensures fetched.Err? ==> events == old(events)
    {
      match fetched
      case Ok(all) =>
        events := UpcomingEvents(all, now, timestamp);
      case Err(_) =>
    }
  }
}
