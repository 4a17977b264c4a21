/** The shared records of src/types/index.ts, which the API service
    (src/services/api.ts) builds. They are a different set of shapes from the
    per-domain ones in the school, broadcast and family types, and are kept
    apart from them. */
module ApiTypes {
  import opened Common

  datatype UserRole = Admin | Teacher | Parent | StudentUser
  datatype UserStatus = Active | Inactive | Suspended

  /** The string the source stores for a role. */
  function RoleName(role: UserRole): string {
    match role
    case Admin => "admin"
    case Teacher => "teacher"
    case Parent => "parent"
    case StudentUser => "student"
  }

  datatype User = User(
    id: string,
    name: string,
    phone: string,
    email: Option<string>,
    role: UserRole,
    avatar: Option<string>,
    status: UserStatus,
    lastSeen: string,
    permissions: seq<string>,
    createdAt: string,
    metadata: Option<map<string, string>>)

  /** `Partial<User>`. */
  datatype UserPatch = UserPatch(
    id: Option<string>,
    name: Option<string>,
    phone: Option<string>,
    email: Option<string>,
    role: Option<UserRole>,
    avatar: Option<string>,
    status: Option<UserStatus>,
    lastSeen: Option<string>,
    permissions: Option<seq<string>>,
    createdAt: Option<string>,
    metadata: Option<map<string, string>>)

  /** `{ ...user, ...data }`. */
  function MergeUser(u: User, p: UserPatch): User {
    User(
      p.id.GetOr(u.id),
      p.name.GetOr(u.name),
      p.phone.GetOr(u.phone),
      if p.email.Some? then p.email else u.email,
      p.role.GetOr(u.role),
      if p.avatar.Some? then p.avatar else u.avatar,
      p.status.GetOr(u.status),
      p.lastSeen.GetOr(u.lastSeen),
      p.permissions.GetOr(u.permissions),
      p.createdAt.GetOr(u.createdAt),
      if p.metadata.Some? then p.metadata else u.metadata)
  }

  function UserIds(s: seq<User>): seq<string> {
    seq(|s|, k requires 0 <= k < |s| => s[k].id)
  }

  datatype TemplateLanguage = En | Ar | Both
  datatype TemplateCategory = School | Emergency | General | Marketing
  datatype TemplateStatus = TemplateActive | TemplatePending | TemplateRejected

  datatype BroadcastTemplate = BroadcastTemplate(
    id: string,
    name: string,
    content: string,
    language: TemplateLanguage,
    category: TemplateCategory,
    variables: seq<string>,
    status: TemplateStatus,
    createdAt: string)

  /** `Partial<BroadcastTemplate>`. */
  datatype TemplatePatch = TemplatePatch(
    id: Option<string>,
    name: Option<string>,
    content: Option<string>,
    language: Option<TemplateLanguage>,
    category: Option<TemplateCategory>,
    variables: Option<seq<string>>,
    status: Option<TemplateStatus>,
    createdAt: Option<string>)

  datatype CampaignStatus = Draft | Scheduled | Sending | Sent | Failed

  datatype CampaignStats = CampaignStats(sent: int, delivered: int, read: int, failed: int)

  datatype BroadcastCampaign = BroadcastCampaign(
    id: string,
    name: string,
    templateId: string,
    recipients: seq<string>,
    scheduledAt: Option<string>,
    sentAt: Option<string>,
    status: CampaignStatus,
    stats: CampaignStats)

  /** `Partial<BroadcastCampaign>`. */
  datatype CampaignPatch = CampaignPatch(
    id: Option<string>,
    name: Option<string>,
    templateId: Option<string>,
    recipients: Option<seq<string>>,
    scheduledAt: Option<string>,
    sentAt: Option<string>,
    status: Option<CampaignStatus>,
    stats: Option<CampaignStats>)

  datatype HomeworkStatus = HomeworkActive | HomeworkCompleted | HomeworkOverdue
  datatype SubmissionStatus = SubmissionPending | SubmissionSubmitted | SubmissionGraded

  datatype Submission = Submission(studentId: string, submittedAt: Option<string>, status: SubmissionStatus, grade: Option<real>)

  datatype Homework = Homework(
    id: string,
    title: string,
    description: string,
    subject: string,
    grade: string,
    className: string,
    dueDate: string,
    createdAt: string,
    status: HomeworkStatus,
    submissions: seq<Submission>)

  /** `Partial<Homework>`. */
  datatype HomeworkPatch = HomeworkPatch(
    id: Option<string>,
    title: Option<string>,
    description: Option<string>,
    subject: Option<string>,
    grade: Option<string>,
    className: Option<string>,
    dueDate: Option<string>,
    createdAt: Option<string>,
    status: Option<HomeworkStatus>,
    submissions: Option<seq<Submission>>)

  datatype EventType = Meeting | Exam | Holiday | Sports | Cultural
  datatype AttendeeStatus = AttendeePending | Accepted | Declined

  datatype Attendee = Attendee(userId: string, status: AttendeeStatus, respondedAt: Option<string>)

  datatype Event = Event(
    id: string,
    title: string,
    description: string,
    date: string,
    location: Option<string>,
    eventType: EventType,
    rsvpEnabled: bool,
    rsvpDeadline: Option<string>,
    attendees: seq<Attendee>,
    createdBy: string,
    createdAt: string)

  /** `Partial<Event>`. */
  datatype EventPatch = EventPatch(
    id: Option<string>,
    title: Option<string>,
    description: Option<string>,
    date: Option<string>,
    location: Option<string>,
    eventType: Option<EventType>,
    rsvpEnabled: Option<bool>,
    rsvpDeadline: Option<string>,
    attendees: Option<seq<Attendee>>,
    createdBy: Option<string>,
    createdAt: Option<string>)

  /** A value of the free-form `Record<string, any>` role configuration. */
  datatype ConfigValue = Number(n: real) | Text(s: string) | TextList(items: seq<string>) | Flag(b: bool)

  datatype RoleUsage = RoleUsage(totalSessions: int, activeUsers: int, completedTasks: int, satisfaction: real)

  datatype FamilyRole = FamilyRole(
    id: string,
    name: string,
    description: string,
    icon: string,
    isActive: bool,
    config: map<string, ConfigValue>,
    usage: RoleUsage)

  function FamilyRoleIds(s: seq<FamilyRole>): seq<string> {
    seq(|s|, k requires 0 <= k < |s| => s[k].id)
  }

  datatype WorkingWindow = WorkingWindow(start: string, end: string, days: seq<string>)
  datatype BotLanguage = BotEn | BotAr

  datatype GeneralSettings = GeneralSettings(botName: string, defaultLanguage: BotLanguage, timezone: string, workingHours: WorkingWindow)
  datatype AISettings = AISettings(model: string, temperature: real, maxTokens: int, systemPrompt: string)
  datatype TranslationSettings = TranslationSettings(autoDetect: bool, defaultPairs: seq<string>, confidence: real)
  datatype ComplianceSettings = ComplianceSettings(gdprEnabled: bool, dataRetention: int, auditLogging: bool, optOutKeywords: seq<string>)

  datatype BotSettings = BotSettings(
    general: GeneralSettings,
    ai: AISettings,
    translation: TranslationSettings,
    compliance: ComplianceSettings)

  /** `Partial<BotSettings>`: whole sections, given or absent. */
  datatype BotSettingsPatch = BotSettingsPatch(
    general: Option<GeneralSettings>,
    ai: Option<AISettings>,
    translation: Option<TranslationSettings>,
    compliance: Option<ComplianceSettings>)
}
