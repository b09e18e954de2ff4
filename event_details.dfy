/** The event-details screen (src/pages/EventDetails.tsx): a signup state
    made of the list of volunteer ids and the number of remaining spots,
    the "Volunteer" action with its three outcomes, the status line and
    the condition under which the Volunteer button is rendered. */
module EventDetails {
  import opened EventTypes
  import opened Decimal

  /** The three alerts `handleVolunteer` can raise. */
  datatype VolunteerOutcome = Volunteered | AlreadyVolunteered | EventFull

  /** The two pieces of screen state: `volunteersIds` and `remainingSpots`. */
  datatype Signup = Signup(volunteersIds: seq<string>, remainingSpots: int)

  /** What one press of the Volunteer button yields: the alert and the new state. */
  datatype Step = Step(outcome: VolunteerOutcome, after: Signup)

  /** The signed-in user is a placeholder constant in the screen. */
  const PlaceholderUserId: string := "ibgyDDd"

  const FullText: string := "Team is full"
  const NeededSuffix: string := " Volunteer(s) needed"

  predicate NoDuplicates(ids: seq<string>) {
    forall i, j :: 0 <= i < j < |ids| ==> ids[i] != ids[j]
  }

  /** Capacity accounting: every spot is either taken or still free. */
  predicate Accounts(s: Signup, volunteersNeeded: int) {
    s.remainingSpots + |s.volunteersIds| == volunteersNeeded
  }

  /** The state the screen starts from, taken from the event it shows. */
  function InitialSignup(event: Event): (s: Signup)
    ensures s.volunteersIds == event.volunteersIds
    ensures Accounts(s, event.volunteersNeeded)
  {
    Signup(event.volunteersIds, event.volunteersNeeded - |event.volunteersIds|)
  }

  /** One press of the Volunteer button by `userId`. The presence check
      comes before the capacity check, so a user already on the list is
      told so even when the event is full. */
  function Volunteer(s: Signup, userId: string): (r: Step)
    ensures r.outcome == Volunteered <==> s.remainingSpots > 0 && userId !in s.volunteersIds
    ensures r.outcome == AlreadyVolunteered <==> userId in s.volunteersIds
    ensures r.outcome == EventFull <==> s.remainingSpots <= 0 && userId !in s.volunteersIds
    ensures r.outcome == Volunteered ==>
      r.after.volunteersIds == s.volunteersIds + [userId] &&
      r.after.remainingSpots == s.remainingSpots - 1 >= 0
    ensures r.outcome != Volunteered ==> r.after == s
    ensures r.after.remainingSpots + |r.after.volunteersIds| == s.remainingSpots + |s.volunteersIds|
    ensures r.after.remainingSpots <= s.remainingSpots
    ensures NoDuplicates(s.volunteersIds) ==> NoDuplicates(r.after.volunteersIds)
  {
    if s.remainingSpots > 0 && userId !in s.volunteersIds then
      var ids := s.volunteersIds + [userId];
      assert forall i :: 0 <= i < |s.volunteersIds| ==> ids[i] == s.volunteersIds[i];
      Step(Volunteered, Signup(ids, s.remainingSpots - 1))
    else if userId in s.volunteersIds then
      Step(AlreadyVolunteered, s)
    else
      Step(EventFull, s)
  }

  /** The status line shown next to the date. */
  function EventStatus(s: Signup, volunteersNeeded: int): (r: string)
    ensures r == FullText <==> s.remainingSpots <= 0
    ensures s.remainingSpots > 0 ==>
      r == NatText(|s.volunteersIds|) + " of " + IntText(volunteersNeeded) + NeededSuffix
  {
    if s.remainingSpots <= 0 then FullText
    else
      var r := NatText(|s.volunteersIds|) + " of " + IntText(volunteersNeeded) + NeededSuffix;
      assert |r| > |FullText|;
      r
  }

  /** The Volunteer button is rendered only while spots remain. */
  predicate VolunteerButtonShown(s: Signup) {
    s.remainingSpots > 0
  }

  /** While the button is shown no press can end in "Event is full" or
      leave a negative spot count; while it is hidden no press changes the
      state. */
  lemma ButtonGuardsVolunteer(s: Signup)
    ensures VolunteerButtonShown(s) ==>
      forall u :: Volunteer(s, u).outcome != EventFull && Volunteer(s, u).after.remainingSpots >= 0
    ensures !VolunteerButtonShown(s) ==> forall u :: Volunteer(s, u).after == s
  {
  }

  /** The button and the status line never disagree: the button is offered
      exactly when the status is not "Team is full". */
  lemma ButtonMatchesStatus(s: Signup, volunteersNeeded: int)
    ensures VolunteerButtonShown(s) <==> EventStatus(s, volunteersNeeded) != FullText
  {
  }

  /** The state after a series of presses, one per user id, in order. */
  function VolunteerAll(s: Signup, userIds: seq<string>): Signup
    decreases |userIds|
  {
    if userIds == [] then s else VolunteerAll(Volunteer(s, userIds[0]).after, userIds[1..])
  }

  /** Capacity accounting over any series of presses: the sum of taken and
      free spots is kept, free spots never grow and never go below zero
      from a non-negative start, a full event is never changed, nobody is
      removed, every id on the list was there before or pressed, and no
      id is ever listed twice. */
  lemma {:induction false} VolunteerAllAccounting(s: Signup, userIds: seq<string>)
    ensures VolunteerAll(s, userIds).remainingSpots + |VolunteerAll(s, userIds).volunteersIds|
         == s.remainingSpots + |s.volunteersIds|
    ensures VolunteerAll(s, userIds).remainingSpots <= s.remainingSpots
    ensures s.remainingSpots >= 0 ==> VolunteerAll(s, userIds).remainingSpots >= 0
    ensures s.remainingSpots <= 0 ==> VolunteerAll(s, userIds) == s
    ensures s.volunteersIds <= VolunteerAll(s, userIds).volunteersIds
    ensures forall u :: u in VolunteerAll(s, userIds).volunteersIds ==> u in s.volunteersIds || u in userIds
    ensures NoDuplicates(s.volunteersIds) ==> NoDuplicates(VolunteerAll(s, userIds).volunteersIds)
    decreases |userIds|
  {
    if userIds != [] {
      var s1 := Volunteer(s, userIds[0]).after;
      VolunteerAllAccounting(s1, userIds[1..]);
      forall u | u in VolunteerAll(s, userIds).volunteersIds
        ensures u in s.volunteersIds || u in userIds
      {
        assert u in s1.volunteersIds || u in userIds[1..];
      }
    }
  }

  /** `n` presses by the same user. */
  function Presses(userId: string, n: nat): seq<string>
  {
    if n == 0 then [] else [userId] + Presses(userId, n - 1)
  }

  /** Pressing repeatedly with the same id is the same as pressing once:
      the id is added at most once and spots are taken at most once. */
  lemma {:induction false} RepeatedPressesActOnce(s: Signup, userId: string, n: nat)
    requires n >= 1
    ensures VolunteerAll(s, Presses(userId, n)) == Volunteer(s, userId).after
  {
    var s1 := Volunteer(s, userId).after;
    assert Presses(userId, n)[1..] == Presses(userId, n - 1);
    assert userId in s1.volunteersIds || s1.remainingSpots <= 0;
    PressesAtFixpoint(s1, userId, n - 1);
  }

  lemma {:induction false} PressesAtFixpoint(s: Signup, userId: string, n: nat)
    requires userId in s.volunteersIds || s.remainingSpots <= 0
    ensures VolunteerAll(s, Presses(userId, n)) == s
    decreases n
  {
    if n > 0 {
      assert Presses(userId, n)[1..] == Presses(userId, n - 1);
      PressesAtFixpoint(s, userId, n - 1);
    }
  }

  /** The screen's state holder. `event` is the route parameter and never
      changes; `volunteersIds` and `remainingSpots` are the two `useState`
      fields. */
  class EventDetailsScreen {
    const event: Event
    var volunteersIds: seq<string>
    var remainingSpots: int

    function State(): Signup
      reads this
    {
      Signup(volunteersIds, remainingSpots)
    }

    predicate Valid()
      reads this
    {
      Accounts(State(), event.volunteersNeeded)
    }

    constructor (event: Event)
      ensures this.event == event
      ensures State() == InitialSignup(event)
      ensures Valid()
    {
      this.event := event;
      volunteersIds := event.volunteersIds;
      remainingSpots := event.volunteersNeeded - |event.volunteersIds|;
    }

    /** `handleVolunteer`, run for the placeholder user. */
    method HandleVolunteer() returns (outcome: VolunteerOutcome)
      modifies this
      ensures Step(outcome, State()) == Volunteer(old(State()), PlaceholderUserId)
      ensures old(Valid()) ==> Valid()
    {
      var userId := PlaceholderUserId;
      if remainingSpots > 0 && userId !in volunteersIds {
        volunteersIds := volunteersIds + [userId];
        remainingSpots := remainingSpots - 1;
        outcome := Volunteered;
      } else if userId in volunteersIds {
        outcome := AlreadyVolunteered;
      } else {
        outcome := EventFull;
      }
    }
  }
}
