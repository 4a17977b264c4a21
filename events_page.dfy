/** The events page (src/pages/EventsPage.tsx): the search and type filter,
    the list of event types offered in the filter, the RSVP tallies on each
    card and the event the Create Event action submits. */
module EventsPage {
  import opened Common
  import opened SchoolTypes
  import opened Text

  /** The type choice: 'all', or one event type. */
  datatype TypeFilter = AllTypes | OnlyType(eventType: SchoolEventType)

  /** The lower-cased title or description contains the lower-cased term,
      and the type is the chosen one. */
  predicate MatchesEvent(e: SchoolEvent, term: string, filter: TypeFilter) {
    && (Includes(Lower(e.title), Lower(term)) || Includes(Lower(e.description), Lower(term)))
    && (filter.AllTypes? || e.eventType == filter.eventType)
  }

  /** The event test of `filteredEvents`. */
  function EventMatcher(term: string, filter: TypeFilter): SchoolEvent -> bool {
    (e: SchoolEvent) => MatchesEvent(e, term, filter)
  }

  /** `filteredEvents`: the matching events, in their order. */
  function FilteredEvents(events: seq<SchoolEvent>, term: string, filter: TypeFilter): (r: seq<SchoolEvent>)
    ensures IsSubsequence(r, events)
    ensures forall i :: 0 <= i < |r| ==> MatchesEvent(r[i], term, filter)
    ensures forall i :: 0 <= i < |events| && MatchesEvent(events[i], term, filter) ==> events[i] in r
    ensures forall e :: multiset(r)[e] == if MatchesEvent(e, term, filter) then multiset(events)[e] else 0
  {
    Filter(events, EventMatcher(term, filter))
  }

  /** With 'all', the type never excludes an event: the filter keeps
      exactly what the search alone keeps. */
  lemma AllTypesExcludesNothing(e: SchoolEvent, term: string)
    ensures MatchesEvent(e, term, AllTypes) <==>
      (Includes(Lower(e.title), Lower(term)) || Includes(Lower(e.description), Lower(term)))
  {
  }

  /** With one type chosen, every kept event has that type. */
  lemma OnlyTypeKeepsThatType(events: seq<SchoolEvent>, term: string, t: SchoolEventType)
    ensures forall i :: 0 <= i < |FilteredEvents(events, term, OnlyType(t))| ==>
      FilteredEvents(events, term, OnlyType(t))[i].eventType == t
  {
  }

  /** `[...new Set(types)]`: each type once, in the order it first occurs. */
  function Distinct(xs: seq<SchoolEventType>): (r: seq<SchoolEventType>)
    ensures forall i, j :: 0 <= i < j < |r| ==> r[i] != r[j]
    ensures forall x :: x in r <==> x in xs
    decreases |xs|
  {
    if xs == [] then []
    else
      var seen := Distinct(xs[..|xs| - 1]);
      var last := xs[|xs| - 1];
      assert forall x :: x in xs <==> x in xs[..|xs| - 1] || x == last by {
        assert xs == xs[..|xs| - 1] + [last];
      }
      if last in seen then seen else seen + [last]
  }

  /** `a` first occurs in `xs` before `b` does. */
  ghost predicate FirstOccursBefore(xs: seq<SchoolEventType>, a: SchoolEventType, b: SchoolEventType) {
    exists p :: 0 <= p < |xs| && xs[p] == a && forall q :: 0 <= q < |xs| && xs[q] == b ==> p < q
  }

  /** The distinct values come in first-occurrence order. */
  lemma {:induction false} DistinctKeepsFirstOccurrenceOrder(xs: seq<SchoolEventType>)
    ensures forall i, j :: 0 <= i < j < |Distinct(xs)| ==> FirstOccursBefore(xs, Distinct(xs)[i], Distinct(xs)[j])
    decreases |xs|
  {
    if xs != [] {
      var front := xs[..|xs| - 1];
      var last := xs[|xs| - 1];
      var seen := Distinct(front);
      var r := Distinct(xs);
      DistinctKeepsFirstOccurrenceOrder(front);
      forall i, j | 0 <= i < j < |r|
        ensures FirstOccursBefore(xs, r[i], r[j])
      {
        assert r[i] == seen[i];
        if j < |seen| {
          assert r[j] == seen[j];
          assert FirstOccursBefore(front, seen[i], seen[j]);
          var p :| 0 <= p < |front| && front[p] == r[i] && forall q :: 0 <= q < |front| && front[q] == r[j] ==> p < q;
          assert xs[p] == r[i];
          forall q | 0 <= q < |xs| && xs[q] == r[j]
            ensures p < q
          {
            if q == |xs| - 1 {
            } else {
              assert front[q] == r[j];
            }
          }
        } else {
          assert r[j] == last && last !in front;
          assert r[i] in front;
          var p :| 0 <= p < |front| && front[p] == r[i];
          assert xs[p] == r[i];
          forall q | 0 <= q < |xs| && xs[q] == r[j]
            ensures p < q
          {
          }
        }
      }
    }
  }

  /** `eventTypes`: the types occurring among the events, once each. */
  function EventTypes(events: seq<SchoolEvent>): (r: seq<SchoolEventType>)
    ensures forall i, j :: 0 <= i < j < |r| ==> r[i] != r[j]
    ensures forall t :: t in r <==> exists k :: 0 <= k < |events| && events[k].eventType == t
  {
    var types := seq(|events|, k requires 0 <= k < |events| => events[k].eventType);
    assert forall t :: t in types <==> exists k :: 0 <= k < |events| && events[k].eventType == t by {
      forall t | t in types ensures exists k :: 0 <= k < |events| && events[k].eventType == t {
        var k :| 0 <= k < |types| && types[k] == t;
      }
      forall t | exists k :: 0 <= k < |events| && events[k].eventType == t ensures t in types {
        var k :| 0 <= k < |events| && events[k].eventType == t;
        assert types[k] == t;
      }
    }
    Distinct(types)
  }

  /** `participants.filter(p => p.status === s).length`. */
  function CountStatus(ps: seq<EventParticipation>, s: ParticipationStatus): (r: nat)
    ensures r <= |ps|
    decreases |ps|
  {
    if ps == [] then 0
    else CountStatus(ps[..|ps| - 1], s) + (if ps[|ps| - 1].status == s then 1 else 0)
  }

  /** The five status counts add up to the number of participants, so the
      Yes, No and Pending tallies together never exceed it: 'attended' and
      'no-show' are counted in none of them. */
  lemma {:induction false} TalliesPartitionParticipants(ps: seq<EventParticipation>)
    ensures CountStatus(ps, Confirmed) + CountStatus(ps, Declined) + CountStatus(ps, Invited)
          + CountStatus(ps, Attended) + CountStatus(ps, NoShow) == |ps|
    ensures CountStatus(ps, Confirmed) + CountStatus(ps, Declined) + CountStatus(ps, Invited) <= |ps|
    decreases |ps|
  {
    if ps != [] {
      TalliesPartitionParticipants(ps[..|ps| - 1]);
    }
  }

  /** The Yes / No / Pending tallies of a card. */
  datatype RsvpTallies = RsvpTallies(yes: nat, no: nat, pending: nat)

  /** The RSVP box of a card: shown only for an event that asks for RSVPs. */
  function RsvpSummary(e: SchoolEvent): (r: Option<RsvpTallies>)
    ensures r.Some? <==> e.requiresRsvp
    ensures r.Some? ==> r.value == RsvpTallies(CountStatus(e.participants, Confirmed),
                                               CountStatus(e.participants, Declined),
                                               CountStatus(e.participants, Invited))
    ensures r.Some? ==> r.value.yes + r.value.no + r.value.pending <= |e.participants|
  {
    TalliesPartitionParticipants(e.participants);
    if e.requiresRsvp then
      Some(RsvpTallies(CountStatus(e.participants, Confirmed),
                       CountStatus(e.participants, Declined),
                       CountStatus(e.participants, Invited)))
    else None
  }

  /** The Create Event action's payload: a draft academic event for
      students' parents and students that asks for RSVPs. The id and the
      participant list are left for the service to set. */
  function NewEventDraft(startDate: string, endDate: string): (r: SchoolEvent)
    ensures r.status == Draft && r.requiresRsvp
    ensures r.eventType == Academic
    ensures r.targetAudience == [Parents, Students]
    ensures r.startDate == startDate && r.endDate == endDate
    ensures r.capacity.None? && r.participants == []
  {
    SchoolEvent("", "New School Event", "Event description", Academic, startDate, endDate,
                "School Campus", None, true, [Parents, Students], "School Administration", Draft, [])
  }

  /** A freshly created draft shows an RSVP box with every tally at zero. */
  lemma NewDraftShowsEmptyTallies(startDate: string, endDate: string, newId: string)
    ensures RsvpSummary(NewEventDraft(startDate, endDate).(id := newId, participants := [])) == Some(RsvpTallies(0, 0, 0))
  {
  }
}
