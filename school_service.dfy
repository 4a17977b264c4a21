/** The school service (src/services/schoolService.ts): the students and
    school events held in memory and the operations that change them in
    place. Ids (`att…`, `hw…`, `e…`, `rsvp…`) and the ISO time stamp are
    parameters; the artificial delays are left out, so every call is one
    atomic step. */
module SchoolService {
  import opened Common
  import opened SchoolTypes

  // ---------------------------------------------------------------------
  // The new states, as functions of the old ones

  /** The students after `markAttendance`: the first student with the id
      gets the record at the end of its attendance and takes its status;
      everyone else is untouched, and an unknown id changes nobody. */
  function AttendanceMarked(students: seq<Student>, studentId: string, rec: AttendanceRecord): (r: seq<Student>)
    ensures |r| == |students|
    ensures forall k :: 0 <= k < |students| && IsFirst(StudentIds(students), studentId, k) ==>
      r[k] == students[k].(attendance := students[k].attendance + [rec], status := rec.status)
    ensures forall k :: 0 <= k < |students| && !IsFirst(StudentIds(students), studentId, k) ==>
      r[k] == students[k]
    ensures studentId !in StudentIds(students) ==> r == students
  {
    match FirstIndex(StudentIds(students), studentId)
    case None => students
    case Some(k) =>
      students[k := students[k].(attendance := students[k].attendance + [rec], status := rec.status)]
  }

  /** The students after `createHomework`: the same assignment at the end of
      every student's homework, and nothing else changed. */
  function HomeworkAddedToAll(students: seq<Student>, hw: HomeworkAssignment): (r: seq<Student>)
    ensures |r| == |students|
    ensures forall k :: 0 <= k < |students| ==>
      r[k] == students[k].(homework := students[k].homework + [hw])
  {
    if |students| == 0 then []
    else [students[0].(homework := students[0].homework + [hw])] + HomeworkAddedToAll(students[1..], hw)
  }

  /** `updateHomework` as a function: the students afterwards and what the
      call returns or throws. Only the first student (in list order) that
      holds the id is touched, and in it only the first entry with the id,
      which is replaced by the field-wise merge. */
  function HomeworkUpdate(students: seq<Student>, id: string, p: HomeworkPatch): (r: (seq<Student>, Result<HomeworkAssignment>))
    ensures |r.0| == |students|
    ensures r.1.Err? <==> forall i :: 0 <= i < |students| ==> id !in HomeworkIds(students[i].homework)
    ensures r.1.Err? ==> r.1.message == "Homework not found" && r.0 == students
    ensures forall i, j ::
      (IsFirstHolder(HomeworkIdLists(students), id, i) && IsFirst(HomeworkIds(students[i].homework), id, j)) ==>
      && r.1 == Ok(MergeHomework(students[i].homework[j], p))
      && r.0[i] == students[i].(homework := students[i].homework[j := MergeHomework(students[i].homework[j], p)])
    ensures forall k :: 0 <= k < |students| && !IsFirstHolder(HomeworkIdLists(students), id, k) ==>
      r.0[k] == students[k]
  {
    match FirstHolding(HomeworkIdLists(students), id)
    case None =>
      assert forall i :: 0 <= i < |students| ==> HomeworkIdLists(students)[i] == HomeworkIds(students[i].homework);
      (students, Err("Homework not found"))
    case Some(i) =>
      assert HomeworkIdLists(students)[i] == HomeworkIds(students[i].homework);
      var j := FirstIndex(HomeworkIds(students[i].homework), id).value;
      FirstHolderIsUnique(HomeworkIdLists(students), id, i);
      FirstIsUnique(HomeworkIds(students[i].homework), id, j);
      var merged := MergeHomework(students[i].homework[j], p);
      (students[i := students[i].(homework := students[i].homework[j := merged])], Ok(merged))
  }

  /** The participant list after an RSVP: an upsert keyed by studentId. An
      existing participant keeps everything but status and rsvpDate; a new
      one is appended. */
  function RsvpUpserted(ps: seq<EventParticipation>, eventId: string, studentId: string,
                        status: ParticipationStatus, rsvpId: string, now: string): (r: seq<EventParticipation>)
    ensures studentId in ParticipantStudentIds(ps) ==>
      && |r| == |ps|
      && (forall q :: 0 <= q < |ps| && IsFirst(ParticipantStudentIds(ps), studentId, q) ==>
            r[q] == ps[q].(status := status, rsvpDate := Some(now)))
      && (forall q :: 0 <= q < |ps| && !IsFirst(ParticipantStudentIds(ps), studentId, q) ==> r[q] == ps[q])
    ensures studentId !in ParticipantStudentIds(ps) ==>
      r == ps + [EventParticipation(rsvpId, eventId, studentId, status, Some(now), None)]
  {
    match FirstIndex(ParticipantStudentIds(ps), studentId)
    case Some(q) => ps[q := ps[q].(status := status, rsvpDate := Some(now))]
    case None => ps + [EventParticipation(rsvpId, eventId, studentId, status, Some(now), None)]
  }

  /** The events after `rsvpEvent`: only the first event with the id has
      its participants upserted, whatever its `requiresRsvp` flag or status;
      an unknown event id changes nothing. */
  function RsvpRecorded(events: seq<SchoolEvent>, eventId: string, studentId: string,
                        status: ParticipationStatus, rsvpId: string, now: string): (r: seq<SchoolEvent>)
    ensures |r| == |events|
    ensures forall k :: 0 <= k < |events| && IsFirst(EventIds(events), eventId, k) ==>
      r[k] == events[k].(participants := RsvpUpserted(events[k].participants, eventId, studentId, status, rsvpId, now))
    ensures forall k :: 0 <= k < |events| && !IsFirst(EventIds(events), eventId, k) ==> r[k] == events[k]
    ensures eventId !in EventIds(events) ==> r == events
  {
    match FirstIndex(EventIds(events), eventId)
    case None => events
    case Some(k) =>
      events[k := events[k].(participants := RsvpUpserted(events[k].participants, eventId, studentId, status, rsvpId, now))]
  }

  // ---------------------------------------------------------------------
  // Properties of the transitions

  /** Answering an RSVP keeps studentIds unique among an event's participants. */
  lemma RsvpKeepsStudentsUnique(ps: seq<EventParticipation>, eventId: string, studentId: string,
                                status: ParticipationStatus, rsvpId: string, now: string)
    requires NoDuplicates(ParticipantStudentIds(ps))
    ensures NoDuplicates(ParticipantStudentIds(RsvpUpserted(ps, eventId, studentId, status, rsvpId, now)))
  {
    var r := RsvpUpserted(ps, eventId, studentId, status, rsvpId, now);
    var before, after := ParticipantStudentIds(ps), ParticipantStudentIds(r);
    if studentId in before {
      forall i | 0 <= i < |r| ensures after[i] == before[i] {
        assert r[i].studentId == ps[i].studentId;
      }
    } else {
      forall i, j | 0 <= i < j < |after| ensures after[i] != after[j] {
        if j == |ps| {
          assert after[j] == studentId;
          assert after[i] == before[i];
        } else {
          assert after[i] == before[i] && after[j] == before[j];
        }
      }
    }
  }

  /** A homework assignment created for everyone and then updated is changed
      only in the first student's list: the second student keeps the old
      entry, so the copies drift apart. */
  lemma {:induction false} UpdateAfterCreateTouchesFirstStudentOnly(
    students: seq<Student>, hw: HomeworkAssignment, p: HomeworkPatch)
    requires |students| >= 2
    requires forall i :: 0 <= i < |students| ==> hw.id !in HomeworkIds(students[i].homework)
    ensures var added := HomeworkAddedToAll(students, hw);
            var r := HomeworkUpdate(added, hw.id, p);
            && r.1 == Ok(MergeHomework(hw, p))
            && r.0[0].homework == students[0].homework + [MergeHomework(hw, p)]
            && r.0[1] == added[1]
            && r.0[1].homework == students[1].homework + [hw]
  {
    var added := HomeworkAddedToAll(students, hw);
    var lists := HomeworkIdLists(added);
    var n0 := |students[0].homework|;
    assert added[0].homework == students[0].homework + [hw];
    assert HomeworkIds(added[0].homework)[n0] == hw.id;
    assert lists[0] == HomeworkIds(added[0].homework);
    assert IsFirstHolder(lists, hw.id, 0);
    forall j | 0 <= j < n0 ensures HomeworkIds(added[0].homework)[j] != hw.id {
      assert HomeworkIds(added[0].homework)[j] == HomeworkIds(students[0].homework)[j];
    }
    assert IsFirst(HomeworkIds(added[0].homework), hw.id, n0);
    assert !IsFirstHolder(lists, hw.id, 1);
    assert added[0].homework[n0 := MergeHomework(hw, p)] == students[0].homework + [MergeHomework(hw, p)];
  }

  // ---------------------------------------------------------------------
  // The store

  class SchoolStore {
    var students: seq<Student>
    var events: seq<SchoolEvent>

    constructor (initialStudents: seq<Student>, initialEvents: seq<SchoolEvent>)
      ensures students == initialStudents && events == initialEvents
    {
      students := initialStudents;
      events := initialEvents;
    }

    /** `getStudent`: the first student with the id, or null. */
    function GetStudent(id: string): (r: Option<Student>)
      reads this
      ensures r.None? <==> id !in StudentIds(students)
      ensures r.Some? ==> exists k :: IsFirst(StudentIds(students), id, k) && r.value == students[k]
    {
      match FirstIndex(StudentIds(students), id)
      case None => None
      case Some(k) => Some(students[k])
    }

    /** `markAttendance`: the returned record is the input with the new id,
        whether or not the student exists. */
    method MarkAttendance(studentId: string, record: AttendanceRecord, newId: string) returns (r: AttendanceRecord)
      modifies this
      ensures r == record.(id := newId)
      ensures students == AttendanceMarked(old(students), studentId, r)
      ensures events == old(events)
    {
      r := record.(id := newId);
      var found := FirstIndex(StudentIds(students), studentId);
      if found.Some? {
        var k := found.value;
        students := students[k := students[k].(attendance := students[k].attendance + [r])];
        students := students[k := students[k].(status := record.status)];
      }
    }

    /** `createHomework`: one shared assignment pushed onto every student's
        list, in a `forEach` over the students. */
    method CreateHomework(assignment: HomeworkAssignment, newId: string) returns (r: HomeworkAssignment)
      modifies this
      ensures r == assignment.(id := newId)
      ensures students == HomeworkAddedToAll(old(students), r)
      ensures events == old(events)
    {
      r := assignment.(id := newId);
      var i := 0;
      while i < |students|
        invariant 0 <= i <= |students| == |old(students)|
        invariant forall k :: 0 <= k < i ==> students[k] == old(students)[k].(homework := old(students)[k].homework + [r])
        invariant forall k :: i <= k < |students| ==> students[k] == old(students)[k]
        invariant events == old(events)
      {
        students := students[i := students[i].(homework := students[i].homework + [r])];
        i := i + 1;
      }
      assert students == HomeworkAddedToAll(old(students), r);
    }

    /** `updateHomework`: a `for..of` scan of the students that stops at the
        first one holding the id, or throws 'Homework not found'. */
    method UpdateHomework(id: string, updates: HomeworkPatch) returns (r: Result<HomeworkAssignment>)
      modifies this
      ensures (students, r) == HomeworkUpdate(old(students), id, updates)
      ensures events == old(events)
    {
      var i := 0;
      while i < |students|
        invariant 0 <= i <= |students|
        invariant students == old(students) && events == old(events)
        invariant forall k :: 0 <= k < i ==> id !in HomeworkIds(students[k].homework)
      {
        var hwIndex := FirstIndex(HomeworkIds(students[i].homework), id);
        if hwIndex.Some? {
          var j := hwIndex.value;
          var merged := MergeHomework(students[i].homework[j], updates);
          assert IsFirstHolder(HomeworkIdLists(students), id, i);
          students := students[i := students[i].(homework := students[i].homework[j := merged])];
          r := Ok(merged);
          return;
        }
        i := i + 1;
      }
      r := Err("Homework not found");
    }

    /** `createEvent`: the new event has the given id and no participants. */
    method CreateEvent(event: SchoolEvent, newId: string) returns (r: SchoolEvent)
      modifies this
      ensures r == event.(id := newId, participants := [])
      ensures events == old(events) + [r]
      ensures students == old(students)
    {
      r := event.(id := newId, participants := []);
      events := events + [r];
    }

    /** `rsvpEvent`: the answer is 'confirmed' or 'declined', as the
        parameter's type demands. */
    method RsvpEvent(eventId: string, studentId: string, status: ParticipationStatus, rsvpId: string, now: string)
      requires status == Confirmed || status == Declined
      modifies this
      ensures events == RsvpRecorded(old(events), eventId, studentId, status, rsvpId, now)
      ensures students == old(students)
    {
      var found := FirstIndex(EventIds(events), eventId);
      if found.Some? {
        var k := found.value;
        var ps := events[k].participants;
        var existing := FirstIndex(ParticipantStudentIds(ps), studentId);
        if existing.Some? {
          var q := existing.value;
          ps := ps[q := ps[q].(status := status, rsvpDate := Some(now))];
        } else {
          ps := ps + [EventParticipation(rsvpId, eventId, studentId, status, Some(now), None)];
        }
        events := events[k := events[k].(participants := ps)];
      }
    }
  }
}
