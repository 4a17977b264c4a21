/** The API service (src/services/api.ts). Every call builds and returns a
    fresh record from defaults and its argument; nothing is ever stored, so
    the mock user list, the two family roles and the bot settings are
    constants that every call starts from again. Generated ids and clock
    readings are parameters. */
module Api {
  import opened Common
  import opened ApiTypes

  /** The three users `getUsers` returns; no call ever writes them. */
  const MockUsers: seq<User> := [
    User("1", "Sarah Johnson", "+1-555-123-4567", Some("sarah@example.com"), Parent, None, Active,
         "2024-01-15T10:30:00Z", ["view_children", "receive_notifications"], "2024-01-01T00:00:00Z", None),
    User("2", "Ahmed Al-Rashid", "+966-50-123-4567", Some("ahmed@example.com"), Parent, None, Active,
         "2024-01-15T09:15:00Z", ["view_children", "receive_notifications"], "2024-01-02T00:00:00Z", None),
    User("3", "Ms. Emily Davis", "+1-555-987-6543", Some("emily.davis@school.edu"), Teacher, None, Active,
         "2024-01-15T11:00:00Z", ["manage_homework", "mark_attendance", "send_broadcasts"], "2024-01-01T00:00:00Z", None)
  ]

  /** The roles for which the permission table has an entry. */
  const KnownRoles: set<string> := {"admin", "teacher", "parent", "student"}

  /** `getDefaultPermissions`: a lookup in a four-entry table; a role with
      no entry gets no permissions. Only an admin gets the wildcard. */
  function GetDefaultPermissions(role: string): (r: seq<string>)
    ensures "*" in r <==> role == "admin"
    ensures r == [] <==> role !in KnownRoles
    ensures role == "admin" ==> r == ["*"]
    ensures role == "teacher" ==> |r| == 4
    ensures role == "parent" ==> |r| == 3
    ensures role == "student" ==> |r| == 2
  {
    if role == "admin" then ["*"]
    else if role == "teacher" then ["manage_homework", "mark_attendance", "send_broadcasts", "view_students"]
    else if role == "parent" then ["view_children", "receive_notifications", "rsvp_events"]
    else if role == "student" then ["view_homework", "submit_assignments"]
    else []
  }

  /** `createUser`: an active user whose role defaults to parent and whose
      permissions are that role's defaults, so never empty. The caller's
      status, permissions, avatar and metadata are not used. */
  function CreateUser(data: UserPatch, newId: string, now: string): (r: User)
    ensures r.id == newId && r.createdAt == now && r.lastSeen == now
    ensures r.status == Active
    ensures r.role == data.role.GetOr(Parent)
    ensures r.permissions == GetDefaultPermissions(RoleName(r.role)) && r.permissions != []
    ensures r.name == data.name.GetOr("") && r.phone == data.phone.GetOr("") && r.email == data.email
    ensures r.avatar.None? && r.metadata.None?
  {
    var role := data.role.GetOr(Parent);
    User(newId, data.name.GetOr(""), data.phone.GetOr(""), data.email, role, None, Active,
         now, GetDefaultPermissions(RoleName(role)), now, None)
  }

  /** `updateUser`: the merge of the first mock user with the id, returned
      and not stored; an unknown id throws. */
  function UpdateUser(id: string, data: UserPatch): (r: Result<User>)
    ensures r.Ok? <==> id == "1" || id == "2" || id == "3"
    ensures r.Err? ==> r.message == "User not found"
    ensures r.Ok? ==> exists k :: IsFirst(UserIds(MockUsers), id, k) && r.value == MergeUser(MockUsers[k], data)
  {
    assert UserIds(MockUsers) == ["1", "2", "3"];
    match FirstIndex(UserIds(MockUsers), id)
    case None => Err("User not found")
    case Some(k) => Ok(MergeUser(MockUsers[k], data))
  }

  /** `createBroadcastTemplate`: always 'pending', whatever status the
      caller gives; language, category and variables have defaults. */
  function CreateBroadcastTemplate(t: TemplatePatch, newId: string, now: string): (r: BroadcastTemplate)
    ensures r.id == newId && r.createdAt == now
    ensures r.status == TemplatePending
    ensures r.language == t.language.GetOr(En) && r.category == t.category.GetOr(General)
    ensures r.variables == t.variables.GetOr([])
    ensures r.name == t.name.GetOr("") && r.content == t.content.GetOr("")
  {
    BroadcastTemplate(newId, t.name.GetOr(""), t.content.GetOr(""), t.language.GetOr(En),
                      t.category.GetOr(General), t.variables.GetOr([]), TemplatePending, now)
  }

  /** The statistics of a campaign that has sent nothing. */
  const ZeroStats := CampaignStats(0, 0, 0, 0)

  /** `createBroadcastCampaign`: always a 'draft' with all counters zero and
      neither a schedule nor a send time, whatever the caller gives. */
  function CreateBroadcastCampaign(c: CampaignPatch, newId: string): (r: BroadcastCampaign)
    ensures r.id == newId
    ensures r.status == Draft
    ensures r.stats.sent == 0 && r.stats.delivered == 0 && r.stats.read == 0 && r.stats.failed == 0
    ensures r.recipients == c.recipients.GetOr([])
    ensures r.scheduledAt.None? && r.sentAt.None?
    ensures r.name == c.name.GetOr("") && r.templateId == c.templateId.GetOr("")
  {
    BroadcastCampaign(newId, c.name.GetOr(""), c.templateId.GetOr(""), c.recipients.GetOr([]),
                      None, None, Draft, ZeroStats)
  }

  /** `createHomework`: always 'active' with no submissions; text fields
      default to empty. */
  function CreateHomework(h: HomeworkPatch, newId: string, now: string): (r: Homework)
    ensures r.id == newId && r.createdAt == now
    ensures r.status == HomeworkActive && r.submissions == []
    ensures r.title == h.title.GetOr("") && r.description == h.description.GetOr("")
    ensures r.subject == h.subject.GetOr("") && r.grade == h.grade.GetOr("")
    ensures r.className == h.className.GetOr("") && r.dueDate == h.dueDate.GetOr("")
  {
    Homework(newId, h.title.GetOr(""), h.description.GetOr(""), h.subject.GetOr(""),
             h.grade.GetOr(""), h.className.GetOr(""), h.dueDate.GetOr(""), now,
             HomeworkActive, [])
  }

  /** The user the event builder records as the creator. */
  const CurrentUserId := "1"

  /** `createEvent`: no attendees; the type defaults to meeting and RSVP to
      off; the creator is always the current user. */
  function CreateEvent(e: EventPatch, newId: string, now: string): (r: Event)
    ensures r.id == newId && r.createdAt == now
    ensures r.attendees == []
    ensures r.eventType == e.eventType.GetOr(Meeting)
    ensures r.rsvpEnabled <==> e.rsvpEnabled == Some(true)
    ensures r.createdBy == CurrentUserId
    ensures r.location == e.location && r.rsvpDeadline == e.rsvpDeadline
    ensures r.title == e.title.GetOr("") && r.description == e.description.GetOr("") && r.date == e.date.GetOr("")
  {
    Event(newId, e.title.GetOr(""), e.description.GetOr(""), e.date.GetOr(""), e.location,
          e.eventType.GetOr(Meeting), e.rsvpEnabled.GetOr(false), e.rsvpDeadline, [],
          CurrentUserId, now)
  }

  /** The two roles `getFamilyRoles` returns. */
  const FamilyRoles: seq<FamilyRole> := [
    FamilyRole("nanny", "Nanny/Governess", "Child care and developmental support", "\U{1F476}", true,
               map["maxChildren" := Number(5.0), "ageRange" := Text("0-12"),
                   "services" := TextList(["feeding", "activities", "education"])],
               RoleUsage(245, 12, 189, 4.8)),
    FamilyRole("tutor", "Private Tutor", "Educational support and homework assistance", "\U{1F4DA}", true,
               map["subjects" := TextList(["math", "science", "english", "arabic"]),
                   "grades" := TextList(["1-12"]), "sessionDuration" := Number(60.0)],
               RoleUsage(156, 8, 134, 4.7))
  ]

  /** `updateFamilyRole`: the first role with the id, with the argument
      merged into its configuration (the argument's keys win) and every
      other field as it was; an unknown id throws. */
  function UpdateFamilyRole(id: string, config: map<string, ConfigValue>): (r: Result<FamilyRole>)
    ensures r.Ok? <==> id == "nanny" || id == "tutor"
    ensures r.Err? ==> r.message == "Role not found"
    ensures r.Ok? ==> exists k ::
      && IsFirst(FamilyRoleIds(FamilyRoles), id, k)
      && r.value.(config := FamilyRoles[k].config) == FamilyRoles[k]
      && r.value.config.Keys == FamilyRoles[k].config.Keys + config.Keys
      && (forall key :: key in config ==> r.value.config[key] == config[key])
      && (forall key :: key in FamilyRoles[k].config && key !in config ==>
            r.value.config[key] == FamilyRoles[k].config[key])
  {
    assert FamilyRoleIds(FamilyRoles) == ["nanny", "tutor"];
    match FirstIndex(FamilyRoleIds(FamilyRoles), id)
    case None => Err("Role not found")
    case Some(k) => Ok(FamilyRoles[k].(config := FamilyRoles[k].config + config))
  }

  /** The settings `getBotSettings` returns. */
  const DefaultBotSettings := BotSettings(
    GeneralSettings("FamilyBot Assistant", BotEn, "UTC+3",
                    WorkingWindow("08:00", "18:00", ["monday", "tuesday", "wednesday", "thursday", "friday"])),
    AISettings("gpt-4", 0.7, 2048, "You are a helpful family assistant and school management bot."),
    TranslationSettings(true, ["en-ar", "ar-en"], 0.8),
    ComplianceSettings(true, 365, true, ["stop", "unsubscribe", "opt-out"]))

  /** `updateBotSettings`: the defaults with each section the argument names
      replaced whole; earlier updates are not remembered. */
  function UpdateBotSettings(p: BotSettingsPatch): (r: BotSettings)
    ensures p.general.Some? ==> r.general == p.general.value
    ensures p.general.None? ==> r.general == DefaultBotSettings.general
    ensures p.ai.Some? ==> r.ai == p.ai.value
    ensures p.ai.None? ==> r.ai == DefaultBotSettings.ai
    ensures p.translation.Some? ==> r.translation == p.translation.value
    ensures p.translation.None? ==> r.translation == DefaultBotSettings.translation
    ensures p.compliance.Some? ==> r.compliance == p.compliance.value
    ensures p.compliance.None? ==> r.compliance == DefaultBotSettings.compliance
  {
    BotSettings(p.general.GetOr(DefaultBotSettings.general), p.ai.GetOr(DefaultBotSettings.ai),
                p.translation.GetOr(DefaultBotSettings.translation),
                p.compliance.GetOr(DefaultBotSettings.compliance))
  }

  /** A patch that names no field. */
  const EmptyUserPatch := UserPatch(None, None, None, None, None, None, None, None, None, None, None)

  /** Updating a known user with an empty patch returns that user as it is:
      the merge only takes what the patch names. */
  lemma EmptyUserUpdateIsLookup(id: string)
    requires id in UserIds(MockUsers)
    ensures UpdateUser(id, EmptyUserPatch).Ok?
    ensures exists k :: IsFirst(UserIds(MockUsers), id, k) && UpdateUser(id, EmptyUserPatch).value == MockUsers[k]
  {
    var k :| IsFirst(UserIds(MockUsers), id, k) && UpdateUser(id, EmptyUserPatch).value == MergeUser(MockUsers[k], EmptyUserPatch);
  }
}
