/** The family-assistant records (src/types/family.ts), used by the family
    service, the goal and task cards, the member page and the calendar.
    Creation and update stamps are the ISO strings the source stores. The two
    dates that the views compare are kept already parsed: an actionable
    item's due date as an instant in milliseconds, a calendar event's start
    and end as local calendar date and time. */
module FamilyTypes {
  import opened Common

  /** A local calendar day, what `Date.toDateString()` compares. */
  datatype CivilDate = CivilDate(year: int, month: int, day: int)

  /** A local date and time of day (minutes after midnight). */
  datatype LocalDateTime = LocalDateTime(date: CivilDate, minuteOfDay: int)

  datatype MemberRole = ParentRole | ChildRole | GuardianRole
  datatype MemberStatus = MemberActive | MemberInactive | MemberBusy

  datatype GoalCategory = Health | Education | Lifestyle | Financial | Personal
  datatype GoalPriority = GoalLow | GoalMedium | GoalHigh
  datatype GoalStatus = GoalActive | GoalCompleted | GoalPaused

  datatype Milestone = Milestone(
    id: string,
    title: string,
    completed: bool,
    completedAt: Option<string>,
    dueDate: Option<string>)

  datatype Goal = Goal(
    id: string,
    title: string,
    description: string,
    category: GoalCategory,
    priority: GoalPriority,
    progress: int,
    targetDate: string,
    status: GoalStatus,
    milestones: seq<Milestone>,
    createdAt: string,
    updatedAt: string)

  /** `Partial<Goal>`. */
  datatype GoalPatch = GoalPatch(
    id: Option<string>,
    title: Option<string>,
    description: Option<string>,
    category: Option<GoalCategory>,
    priority: Option<GoalPriority>,
    progress: Option<int>,
    targetDate: Option<string>,
    status: Option<GoalStatus>,
    milestones: Option<seq<Milestone>>,
    createdAt: Option<string>,
    updatedAt: Option<string>)

  const EmptyGoalPatch := GoalPatch(None, None, None, None, None, None, None, None, None, None, None)

  /** `{ ...goal, ...updates }`. */
  function MergeGoal(g: Goal, p: GoalPatch): Goal {
    Goal(
      p.id.GetOr(g.id),
      p.title.GetOr(g.title),
      p.description.GetOr(g.description),
      p.category.GetOr(g.category),
      p.priority.GetOr(g.priority),
      p.progress.GetOr(g.progress),
      p.targetDate.GetOr(g.targetDate),
      p.status.GetOr(g.status),
      p.milestones.GetOr(g.milestones),
      p.createdAt.GetOr(g.createdAt),
      p.updatedAt.GetOr(g.updatedAt))
  }

  datatype ItemPriority = ItemLow | ItemMedium | ItemHigh | ItemUrgent
  datatype ItemStatus = ItemPending | ItemInProgress | ItemCompleted | ItemOverdue

  datatype ActionableItem = ActionableItem(
    id: string,
    title: string,
    description: string,
    priority: ItemPriority,
    category: string,
    assignedRole: Option<string>,
    dueDate: Option<int>,
    status: ItemStatus,
    estimatedTime: int,
    dependencies: Option<seq<string>>,
    createdAt: string,
    updatedAt: string)

  /** `Partial<ActionableItem>`. */
  datatype ItemPatch = ItemPatch(
    id: Option<string>,
    title: Option<string>,
    description: Option<string>,
    priority: Option<ItemPriority>,
    category: Option<string>,
    assignedRole: Option<string>,
    dueDate: Option<int>,
    status: Option<ItemStatus>,
    estimatedTime: Option<int>,
    dependencies: Option<seq<string>>,
    createdAt: Option<string>,
    updatedAt: Option<string>)

  const EmptyItemPatch := ItemPatch(None, None, None, None, None, None, None, None, None, None, None, None)

  /** `{ ...item, ...updates }`. */
  function MergeItem(a: ActionableItem, p: ItemPatch): ActionableItem {
    ActionableItem(
      p.id.GetOr(a.id),
      p.title.GetOr(a.title),
      p.description.GetOr(a.description),
      p.priority.GetOr(a.priority),
      p.category.GetOr(a.category),
      if p.assignedRole.Some? then p.assignedRole else a.assignedRole,
      if p.dueDate.Some? then p.dueDate else a.dueDate,
      p.status.GetOr(a.status),
      p.estimatedTime.GetOr(a.estimatedTime),
      if p.dependencies.Some? then p.dependencies else a.dependencies,
      p.createdAt.GetOr(a.createdAt),
      p.updatedAt.GetOr(a.updatedAt))
  }

  datatype CalendarEventType = Appointment | Reminder | GoalEvent | TaskEvent | EventEvent
  datatype CalendarPriority = CalLow | CalMedium | CalHigh
  datatype CalendarStatus = Scheduled | CalCompleted | CalCancelled | Rescheduled
  datatype Frequency = Daily | Weekly | Monthly | Yearly

  datatype Recurrence = Recurrence(frequency: Frequency, interval: int, endDate: Option<string>)

  datatype CalendarEvent = CalendarEvent(
    id: string,
    title: string,
    description: Option<string>,
    startTime: LocalDateTime,
    endTime: LocalDateTime,
    eventType: CalendarEventType,
    category: string,
    priority: CalendarPriority,
    status: CalendarStatus,
    attendees: Option<seq<string>>,
    location: Option<string>,
    recurring: Option<Recurrence>)

  datatype FamilyMember = FamilyMember(
    id: string,
    name: string,
    role: MemberRole,
    avatar: string,
    age: Option<int>,
    preferences: map<string, string>,
    activeRoles: seq<string>,
    status: MemberStatus,
    lastActive: string,
    goals: seq<Goal>,
    actionableItems: seq<ActionableItem>,
    calendar: seq<CalendarEvent>)

  /** `Partial<FamilyMember>`. */
  datatype FamilyMemberPatch = FamilyMemberPatch(
    id: Option<string>,
    name: Option<string>,
    role: Option<MemberRole>,
    avatar: Option<string>,
    age: Option<int>,
    preferences: Option<map<string, string>>,
    activeRoles: Option<seq<string>>,
    status: Option<MemberStatus>,
    lastActive: Option<string>,
    goals: Option<seq<Goal>>,
    actionableItems: Option<seq<ActionableItem>>,
    calendar: Option<seq<CalendarEvent>>)

  /** `{ ...member, ...updates }`. */
  function MergeMember(m: FamilyMember, p: FamilyMemberPatch): FamilyMember {
    FamilyMember(
      p.id.GetOr(m.id),
      p.name.GetOr(m.name),
      p.role.GetOr(m.role),
      p.avatar.GetOr(m.avatar),
      if p.age.Some? then p.age else m.age,
      p.preferences.GetOr(m.preferences),
      p.activeRoles.GetOr(m.activeRoles),
      p.status.GetOr(m.status),
      p.lastActive.GetOr(m.lastActive),
      p.goals.GetOr(m.goals),
      p.actionableItems.GetOr(m.actionableItems),
      p.calendar.GetOr(m.calendar))
  }

  function MemberIds(s: seq<FamilyMember>): seq<string> {
    seq(|s|, k requires 0 <= k < |s| => s[k].id)
  }

  function GoalIds(s: seq<Goal>): seq<string> {
    seq(|s|, k requires 0 <= k < |s| => s[k].id)
  }

  function ItemIds(s: seq<ActionableItem>): seq<string> {
    seq(|s|, k requires 0 <= k < |s| => s[k].id)
  }

  /** For each member, the ids of its goals, in member order. */
  function GoalIdLists(s: seq<FamilyMember>): seq<seq<string>> {
    seq(|s|, k requires 0 <= k < |s| => GoalIds(s[k].goals))
  }

  /** For each member, the ids of its actionable items, in member order. */
  function ItemIdLists(s: seq<FamilyMember>): seq<seq<string>> {
    seq(|s|, k requires 0 <= k < |s| => ItemIds(s[k].actionableItems))
  }
}
