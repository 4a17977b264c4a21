/** The AI-role records (src/types/aiRoles.ts) used by the AI-roles service.
    Stored scores and rates are `real`. */
module AIRoleTypes {
  import opened Common

  datatype RoleType =
    | Nanny | Psychologist | Nutritionist | Trainer | Tutor | Coach | FinancialRole
    | TravelRole | Designer | Stylist | Yoga | Physician | Pet | Assistant

  datatype AutonomyLevel = Full | Assisted | ProfessionalRequired

  datatype AICapability = AICapability(
    id: string,
    name: string,
    description: string,
    autonomyLevel: AutonomyLevel,
    confidence: real,
    examples: seq<string>)

  datatype ContactInfo = ContactInfo(phone: Option<string>, email: Option<string>, website: Option<string>)
  datatype PricingPackage = PricingPackage(name: string, description: string, price: real, duration: string, sessions: int)
  datatype Pricing = Pricing(hourlyRate: Option<real>, sessionRate: Option<real>, packageDeals: Option<seq<PricingPackage>>)
  datatype Review = Review(id: string, rating: real, comment: string, date: string, verified: bool)

  datatype ProfessionalContact = ProfessionalContact(
    id: string,
    name: string,
    profession: string,
    specialization: seq<string>,
    rating: real,
    location: string,
    availability: string,
    contactInfo: ContactInfo,
    credentials: seq<string>,
    languages: seq<string>,
    pricing: Pricing,
    reviews: seq<Review>,
    lastContacted: Option<string>)

  datatype WorkingHours = WorkingHours(start: string, end: string)

  datatype AvailabilitySchedule = AvailabilitySchedule(
    timezone: string,
    workingHours: WorkingHours,
    workingDays: seq<string>,
    emergencyAvailable: bool,
    responseTime: string)

  datatype AIPerformanceMetrics = AIPerformanceMetrics(
    tasksCompleted: int,
    successRate: real,
    averageResponseTime: real,
    userSatisfaction: real,
    professionalReferrals: int,
    autonomousResolutions: int,
    lastActive: string)

  datatype CommunicationStyle = Formal | Casual | Friendly | Professional

  datatype AIRoleConfiguration = AIRoleConfiguration(
    personalityTraits: seq<string>,
    communicationStyle: CommunicationStyle,
    proactivityLevel: int,
    escalationThreshold: int,
    learningEnabled: bool,
    memoryRetention: int,
    customInstructions: string)

  datatype AIRole = AIRole(
    id: string,
    name: string,
    roleType: RoleType,
    description: string,
    capabilities: seq<AICapability>,
    autonomyLevel: AutonomyLevel,
    professionalNetwork: seq<ProfessionalContact>,
    aiModel: string,
    specializations: seq<string>,
    languages: seq<string>,
    availability: AvailabilitySchedule,
    performance: AIPerformanceMetrics,
    configuration: AIRoleConfiguration)

  /** `Partial<AIRole>`. */
  datatype AIRolePatch = AIRolePatch(
    id: Option<string>,
    name: Option<string>,
    roleType: Option<RoleType>,
    description: Option<string>,
    capabilities: Option<seq<AICapability>>,
    autonomyLevel: Option<AutonomyLevel>,
    professionalNetwork: Option<seq<ProfessionalContact>>,
    aiModel: Option<string>,
    specializations: Option<seq<string>>,
    languages: Option<seq<string>>,
    availability: Option<AvailabilitySchedule>,
    performance: Option<AIPerformanceMetrics>,
    configuration: Option<AIRoleConfiguration>)

  /** `{ ...role, ...updates }`: nested objects are replaced whole. */
  function MergeRole(r: AIRole, p: AIRolePatch): AIRole {
    AIRole(
      p.id.GetOr(r.id),
      p.name.GetOr(r.name),
      p.roleType.GetOr(r.roleType),
      p.description.GetOr(r.description),
      p.capabilities.GetOr(r.capabilities),
      p.autonomyLevel.GetOr(r.autonomyLevel),
      p.professionalNetwork.GetOr(r.professionalNetwork),
      p.aiModel.GetOr(r.aiModel),
      p.specializations.GetOr(r.specializations),
      p.languages.GetOr(r.languages),
      p.availability.GetOr(r.availability),
      p.performance.GetOr(r.performance),
      p.configuration.GetOr(r.configuration))
  }

  datatype TaskPriority = TaskLow | TaskMedium | TaskHigh | TaskUrgent
  datatype TaskStatus = TaskPending | TaskInProgress | TaskCompleted | TaskEscalated | TaskFailed
  datatype StepStatus = StepPending | StepInProgress | StepCompleted | StepFailed

  datatype AITaskStep = AITaskStep(
    id: string,
    description: string,
    status: StepStatus,
    autonomyLevel: AutonomyLevel,
    confidence: real,
    result: Option<string>,
    timestamp: Option<string>)

  datatype TaskFeedback = TaskFeedback(rating: real, comment: string, improvements: seq<string>, timestamp: string)

  datatype AITask = AITask(
    id: string,
    title: string,
    description: string,
    category: string,
    priority: TaskPriority,
    status: TaskStatus,
    assignedRole: string,
    familyMemberId: string,
    autonomyLevel: AutonomyLevel,
    estimatedDuration: real,
    actualDuration: Option<real>,
    confidence: real,
    steps: seq<AITaskStep>,
    professionalRequired: bool,
    professionalAssigned: Option<string>,
    createdAt: string,
    completedAt: Option<string>,
    feedback: Option<TaskFeedback>)

  datatype DecisionKind = Autonomous | FindProfessional | Escalate

  datatype AIDecision = AIDecision(
    id: string,
    taskId: string,
    decision: DecisionKind,
    confidence: real,
    reasoning: string,
    alternatives: seq<string>,
    timestamp: string)

  function RoleIds(s: seq<AIRole>): seq<string> {
    seq(|s|, k requires 0 <= k < |s| => s[k].id)
  }
}
