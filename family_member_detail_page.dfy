/** The member detail page (src/pages/FamilyMemberDetailPage.tsx): after the
    service accepts a goal or item update, the page patches its own copy of
    the member by mapping over the list; and the overview shows a few goals
    and pending items. The page's member is a value here: the live object
    the service hands out is not shared with the store in this model. */
module FamilyMemberDetailPage {
  import opened Common
  import opened FamilyTypes
  import FamilyService

  /** `goals.map(goal => goal.id === goalId ? { ...goal, ...updates } : goal)`:
      every goal with the id is merged (not only the first); the map itself
      adds no `updatedAt` stamp. */
  function MergeGoalsById(goals: seq<Goal>, goalId: string, p: GoalPatch): (r: seq<Goal>)
    ensures |r| == |goals|
    ensures forall i :: 0 <= i < |goals| && goals[i].id == goalId ==> r[i] == MergeGoal(goals[i], p)
    ensures forall i :: 0 <= i < |goals| && goals[i].id != goalId ==> r[i] == goals[i]
    decreases |goals|
  {
    if goals == [] then []
    else
      var last := goals[|goals| - 1];
      MergeGoalsById(goals[..|goals| - 1], goalId, p) + [if last.id == goalId then MergeGoal(last, p) else last]
  }

  /** The same map over actionable items. */
  function MergeItemsById(items: seq<ActionableItem>, itemId: string, p: ItemPatch): (r: seq<ActionableItem>)
    ensures |r| == |items|
    ensures forall i :: 0 <= i < |items| && items[i].id == itemId ==> r[i] == MergeItem(items[i], p)
    ensures forall i :: 0 <= i < |items| && items[i].id != itemId ==> r[i] == items[i]
    decreases |items|
  {
    if items == [] then []
    else
      var last := items[|items| - 1];
      MergeItemsById(items[..|items| - 1], itemId, p) + [if last.id == itemId then MergeItem(last, p) else last]
  }

  /** `handleGoalUpdate`: the page's member (None before it has loaded)
      after the service call returned `outcome`. A failed call leaves the
      page as it was; a successful one changes only the goal list. */
  function HandleGoalUpdate(member: Option<FamilyMember>, outcome: Result<Goal>, goalId: string, p: GoalPatch): (r: Option<FamilyMember>)
    ensures outcome.Err? || member.None? ==> r == member
    ensures r.Some? <==> member.Some?
    ensures outcome.Ok? && member.Some? ==>
      && r.value.(goals := member.value.goals) == member.value
      && r.value.goals == MergeGoalsById(member.value.goals, goalId, p)
  {
    if outcome.Err? then member
    else match member
      case None => None
      case Some(m) => Some(m.(goals := MergeGoalsById(m.goals, goalId, p)))
  }

  /** `handleActionableItemUpdate`: the same on the actionable items. */
  function HandleItemUpdate(member: Option<FamilyMember>, outcome: Result<ActionableItem>, itemId: string, p: ItemPatch): (r: Option<FamilyMember>)
    ensures outcome.Err? || member.None? ==> r == member
    ensures r.Some? <==> member.Some?
    ensures outcome.Ok? && member.Some? ==>
      && r.value.(actionableItems := member.value.actionableItems) == member.value
      && r.value.actionableItems == MergeItemsById(member.value.actionableItems, itemId, p)
  {
    if outcome.Err? then member
    else match member
      case None => None
      case Some(m) => Some(m.(actionableItems := MergeItemsById(m.actionableItems, itemId, p)))
  }

  /** When the member is the one the store updates and its goal ids are
      distinct, the page's copy of the goals, taken as a value separate from
      the store, agrees with the store's in everything but the `updatedAt` of
      the edited goal. The value model does not carry the store's stamp into
      the page's copy; in the program the first update after loading does,
      because the page's list is then the store's own array. */
  lemma PageGoalsMatchStore(members: seq<FamilyMember>, k: nat, goalId: string, p: GoalPatch, now: string)
    requires IsFirstHolder(GoalIdLists(members), goalId, k)
    requires NoDuplicates(GoalIds(members[k].goals))
    ensures var stored := FamilyService.GoalUpdate(members, goalId, p, now).0[k].goals;
            var shown := MergeGoalsById(members[k].goals, goalId, p);
            && |shown| == |stored|
            && forall i :: 0 <= i < |shown| ==> shown[i].(updatedAt := stored[i].updatedAt) == stored[i]
  {
    var goals := members[k].goals;
    assert GoalIdLists(members)[k] == GoalIds(goals);
    var j := FirstIndex(GoalIds(goals), goalId).value;
    assert IsFirst(GoalIds(goals), goalId, j);
    var stored := FamilyService.GoalUpdate(members, goalId, p, now).0[k].goals;
    assert stored == goals[j := MergeGoal(goals[j], p).(updatedAt := now)];
    forall i | 0 <= i < |goals| && i != j
      ensures goals[i].id != goalId
    {
      assert GoalIds(goals)[i] != GoalIds(goals)[j];
    }
  }

  /** The same agreement for actionable items, with the same proviso: the
      value model does not carry the store's stamp into the page's copy. */
  lemma PageItemsMatchStore(members: seq<FamilyMember>, k: nat, itemId: string, p: ItemPatch, now: string)
    requires IsFirstHolder(ItemIdLists(members), itemId, k)
    requires NoDuplicates(ItemIds(members[k].actionableItems))
    ensures var stored := FamilyService.ItemUpdate(members, itemId, p, now).0[k].actionableItems;
            var shown := MergeItemsById(members[k].actionableItems, itemId, p);
            && |shown| == |stored|
            && forall i :: 0 <= i < |shown| ==> shown[i].(updatedAt := stored[i].updatedAt) == stored[i]
  {
    var items := members[k].actionableItems;
    assert ItemIdLists(members)[k] == ItemIds(items);
    var j := FirstIndex(ItemIds(items), itemId).value;
    assert IsFirst(ItemIds(items), itemId, j);
    var stored := FamilyService.ItemUpdate(members, itemId, p, now).0[k].actionableItems;
    assert stored == items[j := MergeItem(items[j], p).(updatedAt := now)];
    forall i | 0 <= i < |items| && i != j
      ensures items[i].id != itemId
    {
      assert ItemIds(items)[i] != ItemIds(items)[j];
    }
  }

  /** How many entries the overview shows of each list. */
  const OverviewSize := 3

  /** `goals.slice(0, 3)`: the first three goals, or all when fewer. */
  function RecentGoals(goals: seq<Goal>): (r: seq<Goal>)
    ensures |r| <= OverviewSize
    ensures |r| == if |goals| < OverviewSize then |goals| else OverviewSize
    ensures r == goals[..|r|]
  {
    if |goals| < OverviewSize then goals else goals[..OverviewSize]
  }

  /** The item test of the pending list. */
  function IsPending(item: ActionableItem): bool {
    item.status == ItemPending
  }

  /** `items.filter(item => item.status === 'pending')`: exactly the pending
      items, in their order. */
  function PendingItems(items: seq<ActionableItem>): (r: seq<ActionableItem>)
    ensures IsSubsequence(r, items)
    ensures forall i :: 0 <= i < |r| ==> r[i].status == ItemPending
    ensures forall i :: 0 <= i < |items| && items[i].status == ItemPending ==> items[i] in r
    ensures forall x :: multiset(r)[x] == if x.status == ItemPending then multiset(items)[x] else 0
  {
    Filter(items, IsPending)
  }

  /** The overview's pending tasks: the first three pending items. */
  function PendingTasks(items: seq<ActionableItem>): (r: seq<ActionableItem>)
    ensures |r| <= OverviewSize
    ensures forall i :: 0 <= i < |r| ==> r[i].status == ItemPending
    ensures |r| <= |PendingItems(items)| && r == PendingItems(items)[..|r|]
    ensures |r| < OverviewSize ==> r == PendingItems(items)
  {
    var pending := PendingItems(items);
    if |pending| < OverviewSize then pending else pending[..OverviewSize]
  }
}
