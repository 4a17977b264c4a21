/** The family service (src/services/familyService.ts): family members held
    in memory, with goals, actionable items and calendar events updated in
    place. Ids (`g…`, `a…`, `c…`) and the ISO stamp of "now" are parameters;
    each call is one atomic step. */
module FamilyService {
  import opened Common
  import opened FamilyTypes

  // ---------------------------------------------------------------------
  // The new states, as functions of the old ones

  /** `updateFamilyMember`: the first member with the id is replaced by the
      field-wise merge; an unknown id throws and changes nothing. */
  function MemberUpdate(members: seq<FamilyMember>, id: string, p: FamilyMemberPatch): (r: (seq<FamilyMember>, Result<FamilyMember>))
    ensures |r.0| == |members|
    ensures r.1.Err? <==> id !in MemberIds(members)
    ensures r.1.Err? ==> r.1.message == "Family member not found" && r.0 == members
    ensures forall k :: 0 <= k < |members| && IsFirst(MemberIds(members), id, k) ==>
      r.1 == Ok(MergeMember(members[k], p)) && r.0[k] == MergeMember(members[k], p)
    ensures forall k :: 0 <= k < |members| && !IsFirst(MemberIds(members), id, k) ==> r.0[k] == members[k]
  {
    match FirstIndex(MemberIds(members), id)
    case None => (members, Err("Family member not found"))
    case Some(k) => (members[k := MergeMember(members[k], p)], Ok(MergeMember(members[k], p)))
  }

  /** `createGoal`: the goal goes to the end of the first matching member's
      goals; nothing else changes, and an unknown member changes nothing. */
  function GoalAppended(members: seq<FamilyMember>, memberId: string, g: Goal): (r: seq<FamilyMember>)
    ensures |r| == |members|
    ensures forall k :: 0 <= k < |members| && IsFirst(MemberIds(members), memberId, k) ==>
      r[k] == members[k].(goals := members[k].goals + [g])
    ensures forall k :: 0 <= k < |members| && !IsFirst(MemberIds(members), memberId, k) ==> r[k] == members[k]
    ensures memberId !in MemberIds(members) ==> r == members
  {
    match FirstIndex(MemberIds(members), memberId)
    case None => members
    case Some(k) => members[k := members[k].(goals := members[k].goals + [g])]
  }

  /** `createActionableItem`, with the same shape as GoalAppended. */
  function ItemAppended(members: seq<FamilyMember>, memberId: string, a: ActionableItem): (r: seq<FamilyMember>)
    ensures |r| == |members|
    ensures forall k :: 0 <= k < |members| && IsFirst(MemberIds(members), memberId, k) ==>
      r[k] == members[k].(actionableItems := members[k].actionableItems + [a])
    ensures forall k :: 0 <= k < |members| && !IsFirst(MemberIds(members), memberId, k) ==> r[k] == members[k]
    ensures memberId !in MemberIds(members) ==> r == members
  {
    match FirstIndex(MemberIds(members), memberId)
    case None => members
    case Some(k) => members[k := members[k].(actionableItems := members[k].actionableItems + [a])]
  }

  /** `createCalendarEvent`, with the same shape as GoalAppended. */
  function CalendarEventAppended(members: seq<FamilyMember>, memberId: string, e: CalendarEvent): (r: seq<FamilyMember>)
    ensures |r| == |members|
    ensures forall k :: 0 <= k < |members| && IsFirst(MemberIds(members), memberId, k) ==>
      r[k] == members[k].(calendar := members[k].calendar + [e])
    ensures forall k :: 0 <= k < |members| && !IsFirst(MemberIds(members), memberId, k) ==> r[k] == members[k]
    ensures memberId !in MemberIds(members) ==> r == members
  {
    match FirstIndex(MemberIds(members), memberId)
    case None => members
    case Some(k) => members[k := members[k].(calendar := members[k].calendar + [e])]
  }

  /** `updateGoal`: the first member (in order) holding the goal id has its
      first such goal merged with the updates and stamped with `now`, which
      wins over any `updatedAt` in the updates. */
  function GoalUpdate(members: seq<FamilyMember>, goalId: string, p: GoalPatch, now: string): (r: (seq<FamilyMember>, Result<Goal>))
    ensures |r.0| == |members|
    ensures r.1.Err? <==> forall i :: 0 <= i < |members| ==> goalId !in GoalIds(members[i].goals)
    ensures r.1.Err? ==> r.1.message == "Goal not found" && r.0 == members
    ensures r.1.Ok? ==> r.1.value.updatedAt == now
    ensures forall i, j ::
      (IsFirstHolder(GoalIdLists(members), goalId, i) && IsFirst(GoalIds(members[i].goals), goalId, j)) ==>
      && r.1 == Ok(MergeGoal(members[i].goals[j], p).(updatedAt := now))
      && r.0[i] == members[i].(goals := members[i].goals[j := MergeGoal(members[i].goals[j], p).(updatedAt := now)])
    ensures forall k :: 0 <= k < |members| && !IsFirstHolder(GoalIdLists(members), goalId, k) ==> r.0[k] == members[k]
  {
    match FirstHolding(GoalIdLists(members), goalId)
    case None =>
      assert forall i :: 0 <= i < |members| ==> GoalIdLists(members)[i] == GoalIds(members[i].goals);
      (members, Err("Goal not found"))
    case Some(i) =>
      assert GoalIdLists(members)[i] == GoalIds(members[i].goals);
      var j := FirstIndex(GoalIds(members[i].goals), goalId).value;
      FirstHolderIsUnique(GoalIdLists(members), goalId, i);
      FirstIsUnique(GoalIds(members[i].goals), goalId, j);
      var merged := MergeGoal(members[i].goals[j], p).(updatedAt := now);
      (members[i := members[i].(goals := members[i].goals[j := merged])], Ok(merged))
  }

  /** `updateActionableItem`: the same first-match, merge-and-stamp rule on
      actionable items. */
  function ItemUpdate(members: seq<FamilyMember>, itemId: string, p: ItemPatch, now: string): (r: (seq<FamilyMember>, Result<ActionableItem>))
    ensures |r.0| == |members|
    ensures r.1.Err? <==> forall i :: 0 <= i < |members| ==> itemId !in ItemIds(members[i].actionableItems)
    ensures r.1.Err? ==> r.1.message == "Actionable item not found" && r.0 == members
    ensures r.1.Ok? ==> r.1.value.updatedAt == now
    ensures forall i, j ::
      (IsFirstHolder(ItemIdLists(members), itemId, i) && IsFirst(ItemIds(members[i].actionableItems), itemId, j)) ==>
      && r.1 == Ok(MergeItem(members[i].actionableItems[j], p).(updatedAt := now))
      && r.0[i] == members[i].(actionableItems := members[i].actionableItems[j := MergeItem(members[i].actionableItems[j], p).(updatedAt := now)])
    ensures forall k :: 0 <= k < |members| && !IsFirstHolder(ItemIdLists(members), itemId, k) ==> r.0[k] == members[k]
  {
    match FirstHolding(ItemIdLists(members), itemId)
    case None =>
      assert forall i :: 0 <= i < |members| ==> ItemIdLists(members)[i] == ItemIds(members[i].actionableItems);
      (members, Err("Actionable item not found"))
    case Some(i) =>
      assert ItemIdLists(members)[i] == ItemIds(members[i].actionableItems);
      var j := FirstIndex(ItemIds(members[i].actionableItems), itemId).value;
      FirstHolderIsUnique(ItemIdLists(members), itemId, i);
      FirstIsUnique(ItemIds(members[i].actionableItems), itemId, j);
      var merged := MergeItem(members[i].actionableItems[j], p).(updatedAt := now);
      (members[i := members[i].(actionableItems := members[i].actionableItems[j := merged])], Ok(merged))
  }

  // ---------------------------------------------------------------------
  // The store

  class FamilyStore {
    var members: seq<FamilyMember>

    constructor (initialMembers: seq<FamilyMember>)
      ensures members == initialMembers
    {
      members := initialMembers;
    }

    /** `getFamilyMember`: the first member with the id, or null. */
    function GetFamilyMember(id: string): (r: Option<FamilyMember>)
      reads this
      ensures r.None? <==> id !in MemberIds(members)
      ensures r.Some? ==> exists k :: IsFirst(MemberIds(members), id, k) && r.value == members[k]
    {
      match FirstIndex(MemberIds(members), id)
      case None => None
      case Some(k) => Some(members[k])
    }

    method UpdateFamilyMember(id: string, updates: FamilyMemberPatch) returns (r: Result<FamilyMember>)
      modifies this
      ensures (members, r) == MemberUpdate(old(members), id, updates)
    {
      var memberIndex := FirstIndex(MemberIds(members), id);
      if memberIndex.Some? {
        var k := memberIndex.value;
        members := members[k := MergeMember(members[k], updates)];
        r := Ok(members[k]);
      } else {
        r := Err("Family member not found");
      }
    }

    /** `createGoal`: the stored and returned goal carries the new id and
        `now` as both stamps. */
    method CreateGoal(memberId: string, goal: Goal, newId: string, now: string) returns (r: Goal)
      modifies this
      ensures r == goal.(id := newId, createdAt := now, updatedAt := now)
      ensures members == GoalAppended(old(members), memberId, r)
    {
      r := goal.(id := newId, createdAt := now, updatedAt := now);
      var found := FirstIndex(MemberIds(members), memberId);
      if found.Some? {
        var k := found.value;
        members := members[k := members[k].(goals := members[k].goals + [r])];
      }
    }

    /** `updateGoal`: a `for..of` scan over the members. */
    method UpdateGoal(goalId: string, updates: GoalPatch, now: string) returns (r: Result<Goal>)
      modifies this
      ensures (members, r) == GoalUpdate(old(members), goalId, updates, now)
    {
      var i := 0;
      while i < |members|
        invariant 0 <= i <= |members|
        invariant members == old(members)
        invariant forall k :: 0 <= k < i ==> goalId !in GoalIds(members[k].goals)
      {
        var goalIndex := FirstIndex(GoalIds(members[i].goals), goalId);
        if goalIndex.Some? {
          var j := goalIndex.value;
          var merged := MergeGoal(members[i].goals[j], updates).(updatedAt := now);
          assert IsFirstHolder(GoalIdLists(members), goalId, i);
          members := members[i := members[i].(goals := members[i].goals[j := merged])];
          r := Ok(merged);
          return;
        }
        i := i + 1;
      }
      r := Err("Goal not found");
    }

    method CreateActionableItem(memberId: string, item: ActionableItem, newId: string, now: string) returns (r: ActionableItem)
      modifies this
      ensures r == item.(id := newId, createdAt := now, updatedAt := now)
      ensures members == ItemAppended(old(members), memberId, r)
    {
      r := item.(id := newId, createdAt := now, updatedAt := now);
      var found := FirstIndex(MemberIds(members), memberId);
      if found.Some? {
        var k := found.value;
        members := members[k := members[k].(actionableItems := members[k].actionableItems + [r])];
      }
    }

    /** `updateActionableItem`: a `for..of` scan over the members. */
    method UpdateActionableItem(itemId: string, updates: ItemPatch, now: string) returns (r: Result<ActionableItem>)
      modifies this
      ensures (members, r) == ItemUpdate(old(members), itemId, updates, now)
    {
      var i := 0;
      while i < |members|
        invariant 0 <= i <= |members|
        invariant members == old(members)
        invariant forall k :: 0 <= k < i ==> itemId !in ItemIds(members[k].actionableItems)
      {
        var itemIndex := FirstIndex(ItemIds(members[i].actionableItems), itemId);
        if itemIndex.Some? {
          var j := itemIndex.value;
          var merged := MergeItem(members[i].actionableItems[j], updates).(updatedAt := now);
          assert IsFirstHolder(ItemIdLists(members), itemId, i);
          members := members[i := members[i].(actionableItems := members[i].actionableItems[j := merged])];
          r := Ok(merged);
          return;
        }
        i := i + 1;
      }
      r := Err("Actionable item not found");
    }

    /** `createCalendarEvent`: only the id is generated. */
    method CreateCalendarEvent(memberId: string, event: CalendarEvent, newId: string) returns (r: CalendarEvent)
      modifies this
      ensures r == event.(id := newId)
      ensures members == CalendarEventAppended(old(members), memberId, r)
    {
      r := event.(id := newId);
      var found := FirstIndex(MemberIds(members), memberId);
      if found.Some? {
        var k := found.value;
        members := members[k := members[k].(calendar := members[k].calendar + [r])];
      }
    }
  }
}
