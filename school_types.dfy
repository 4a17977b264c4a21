/** The school domain's records (src/types/school.ts), used by the school
    service, the fees page and the events page. Dates are the ISO strings the
    source stores; numbers that are only stored are `real`, fee amounts are
    `int` because the fees page adds them up. */
module SchoolTypes {
  import opened Common

  datatype AttendanceStatus = Present | Absent | Late | Excused
  datatype AttendanceMethod = Qr | Location | Manual

  datatype GeoPoint = GeoPoint(latitude: real, longitude: real, accuracy: real)

  datatype AttendanceRecord = AttendanceRecord(
    id: string,
    studentId: string,
    date: string,
    status: AttendanceStatus,
    checkInTime: Option<string>,
    checkOutTime: Option<string>,
    checkMethod: AttendanceMethod,
    location: Option<GeoPoint>,
    notes: Option<string>)

  datatype HomeworkStatus = Assigned | InProgress | Submitted | Graded | Overdue
  datatype HomeworkPriority = Low | Medium | High

  datatype HomeworkSubmission = HomeworkSubmission(submittedAt: string, files: seq<string>, notes: Option<string>)
  datatype HomeworkGrade = HomeworkGrade(score: real, maxScore: real, feedback: string, gradedAt: string)

  datatype HomeworkAssignment = HomeworkAssignment(
    id: string,
    title: string,
    description: string,
    subject: string,
    assignedDate: string,
    dueDate: string,
    status: HomeworkStatus,
    priority: HomeworkPriority,
    estimatedTime: real,
    attachments: seq<string>,
    submission: Option<HomeworkSubmission>,
    grade: Option<HomeworkGrade>)

  /** `Partial<HomeworkAssignment>`: a field is either given or absent. */
  datatype HomeworkPatch = HomeworkPatch(
    id: Option<string>,
    title: Option<string>,
    description: Option<string>,
    subject: Option<string>,
    assignedDate: Option<string>,
    dueDate: Option<string>,
    status: Option<HomeworkStatus>,
    priority: Option<HomeworkPriority>,
    estimatedTime: Option<real>,
    attachments: Option<seq<string>>,
    submission: Option<HomeworkSubmission>,
    grade: Option<HomeworkGrade>)

  /** `{ ...hw, ...updates }`: every given field replaces the old one. */
  function MergeHomework(hw: HomeworkAssignment, p: HomeworkPatch): HomeworkAssignment {
    HomeworkAssignment(
      p.id.GetOr(hw.id),
      p.title.GetOr(hw.title),
      p.description.GetOr(hw.description),
      p.subject.GetOr(hw.subject),
      p.assignedDate.GetOr(hw.assignedDate),
      p.dueDate.GetOr(hw.dueDate),
      p.status.GetOr(hw.status),
      p.priority.GetOr(hw.priority),
      p.estimatedTime.GetOr(hw.estimatedTime),
      p.attachments.GetOr(hw.attachments),
      if p.submission.Some? then p.submission else hw.submission,
      if p.grade.Some? then p.grade else hw.grade)
  }

  datatype FeeType = Tuition | Transport | Meals | Activities | Materials
  datatype FeeStatus = FeePending | Paid | FeeOverdue | Partial
  datatype ReminderChannel = Email | WhatsApp | Sms
  datatype ReminderStatus = Sent | Delivered | Read | Failed

  datatype ReminderRecord = ReminderRecord(id: string, sentAt: string, channel: ReminderChannel, status: ReminderStatus)

  /** A fee. `status` is stored as given; nothing derives it from the dates
      or from `paidAmount`. */
  datatype FeeRecord = FeeRecord(
    id: string,
    studentId: string,
    feeType: FeeType,
    amount: int,
    currency: string,
    dueDate: string,
    status: FeeStatus,
    paidAmount: Option<int>,
    paidDate: Option<string>,
    paymentMethod: Option<string>,
    reminders: seq<ReminderRecord>)

  /** The lower-case name the source stores for a fee type. */
  function FeeTypeName(t: FeeType): string {
    match t
    case Tuition => "tuition"
    case Transport => "transport"
    case Meals => "meals"
    case Activities => "activities"
    case Materials => "materials"
  }

  datatype ParticipationStatus = Invited | Confirmed | Declined | Attended | NoShow

  datatype EventParticipation = EventParticipation(
    id: string,
    eventId: string,
    studentId: string,
    status: ParticipationStatus,
    rsvpDate: Option<string>,
    notes: Option<string>)

  datatype SchoolEventType = Academic | Sports | Cultural | Meeting | Trip
  datatype Audience = Students | Parents | Teachers
  datatype EventStatus = Draft | Published | Ongoing | Completed | Cancelled

  datatype SchoolEvent = SchoolEvent(
    id: string,
    title: string,
    description: string,
    eventType: SchoolEventType,
    startDate: string,
    endDate: string,
    location: string,
    capacity: Option<int>,
    requiresRsvp: bool,
    targetAudience: seq<Audience>,
    organizer: string,
    status: EventStatus,
    participants: seq<EventParticipation>)

  datatype Student = Student(
    id: string,
    name: string,
    grade: string,
    className: string,
    parentId: string,
    avatar: string,
    status: AttendanceStatus,
    attendance: seq<AttendanceRecord>,
    homework: seq<HomeworkAssignment>,
    fees: seq<FeeRecord>,
    events: seq<EventParticipation>)

  function StudentIds(s: seq<Student>): seq<string> {
    seq(|s|, k requires 0 <= k < |s| => s[k].id)
  }

  function HomeworkIds(s: seq<HomeworkAssignment>): seq<string> {
    seq(|s|, k requires 0 <= k < |s| => s[k].id)
  }

  function EventIds(s: seq<SchoolEvent>): seq<string> {
    seq(|s|, k requires 0 <= k < |s| => s[k].id)
  }

  /** Participants are looked up by the student they stand for. */
  function ParticipantStudentIds(s: seq<EventParticipation>): seq<string> {
    seq(|s|, k requires 0 <= k < |s| => s[k].studentId)
  }

  /** For each student, the ids of its homework, in student order. */
  function HomeworkIdLists(s: seq<Student>): seq<seq<string>> {
    seq(|s|, k requires 0 <= k < |s| => HomeworkIds(s[k].homework))
  }
}
