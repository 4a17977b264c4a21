/** The AI-roles service (src/services/aiRolesService.ts). Only
    `updateAIRole` changes the stored roles; task creation, the decision and
    the professional search build values and store nothing. The decision is
    a fixed answer: nothing here looks at autonomy levels, confidence or the
    professional network. */
module AIRolesService {
  import opened Common
  import opened AIRoleTypes

  /** `updateAIRole`: the first role with the id is replaced by the
      field-wise merge; an unknown id throws and changes nothing. */
  function RoleUpdate(roles: seq<AIRole>, id: string, p: AIRolePatch): (r: (seq<AIRole>, Result<AIRole>))
    ensures |r.0| == |roles|
    ensures r.1.Err? <==> id !in RoleIds(roles)
    ensures r.1.Err? ==> r.1.message == "AI Role not found" && r.0 == roles
    ensures forall k :: 0 <= k < |roles| && IsFirst(RoleIds(roles), id, k) ==>
      r.1 == Ok(MergeRole(roles[k], p)) && r.0[k] == MergeRole(roles[k], p)
    ensures forall k :: 0 <= k < |roles| && !IsFirst(RoleIds(roles), id, k) ==> r.0[k] == roles[k]
  {
    match FirstIndex(RoleIds(roles), id)
    case None => (roles, Err("AI Role not found"))
    case Some(k) => (roles[k := MergeRole(roles[k], p)], Ok(MergeRole(roles[k], p)))
  }

  /** `findProfessionals`: the search is a stub that never finds anyone. */
  function FindProfessionals(roleType: string, requirements: map<string, string>): (r: seq<ProfessionalContact>)
    ensures |r| == 0
  {
    []
  }

  /** `createTask`: the task as given, with only its id and creation stamp
      replaced. */
  function CreateTask(task: AITask, newId: string, now: string): (r: AITask)
    ensures r.id == newId && r.createdAt == now
    ensures r.(id := task.id, createdAt := task.createdAt) == task
  {
    task.(id := newId, createdAt := now)
  }

  /** `makeAIDecision`: whatever the context, the same autonomous decision
      at confidence 85 with the two fixed alternatives. */
  function MakeAIDecision(decisionId: string, taskId: string, context: map<string, string>, now: string): (r: AIDecision)
    ensures r.taskId == taskId
    ensures r.decision == Autonomous && r.confidence == 85.0
    ensures r.alternatives == ["find_professional", "escalate"]
  {
    AIDecision(decisionId, taskId, Autonomous, 85.0,
               "Task can be handled autonomously with high confidence",
               ["find_professional", "escalate"], now)
  }

  /** The context given to the decision has no effect on it. */
  lemma DecisionIgnoresContext(decisionId: string, taskId: string, c1: map<string, string>, c2: map<string, string>, now: string)
    ensures MakeAIDecision(decisionId, taskId, c1, now) == MakeAIDecision(decisionId, taskId, c2, now)
  {
  }

  class AIRoleStore {
    var roles: seq<AIRole>

    constructor (initialRoles: seq<AIRole>)
      ensures roles == initialRoles
    {
      roles := initialRoles;
    }

    /** `getAIRole`: the first role with the id, or null. */
    function GetAIRole(id: string): (r: Option<AIRole>)
      reads this
      ensures r.None? <==> id !in RoleIds(roles)
      ensures r.Some? ==> exists k :: IsFirst(RoleIds(roles), id, k) && r.value == roles[k]
    {
      match FirstIndex(RoleIds(roles), id)
      case None => None
      case Some(k) => Some(roles[k])
    }

    method UpdateAIRole(id: string, updates: AIRolePatch) returns (r: Result<AIRole>)
      modifies this
      ensures (roles, r) == RoleUpdate(old(roles), id, updates)
    {
      var roleIndex := FirstIndex(RoleIds(roles), id);
      if roleIndex.Some? {
        var k := roleIndex.value;
        roles := roles[k := MergeRole(roles[k], updates)];
        r := Ok(roles[k]);
      } else {
        r := Err("AI Role not found");
      }
    }
  }
}
