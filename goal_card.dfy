/** The business rules of the goal card (src/components/family/GoalCard.tsx):
    the completed-milestone count and the request sent by Update Progress. */
module GoalCard {
  import opened Common
  import opened FamilyTypes

  /** `milestones.filter(m => m.completed).length`. */
  function CompletedMilestones(ms: seq<Milestone>): (r: nat)
    ensures r <= |ms|
    ensures r == |ms| <==> forall i :: 0 <= i < |ms| ==> ms[i].completed
    ensures r == 0 <==> forall i :: 0 <= i < |ms| ==> !ms[i].completed
    decreases |ms|
  {
    if ms == [] then 0
    else (if ms[|ms| - 1].completed then 1 else 0) + CompletedMilestones(ms[..|ms| - 1])
  }

  /** `Math.min(progress + 10, 100)`. */
  function BumpedProgress(progress: int): int {
    if progress + 10 < 100 then progress + 10 else 100
  }

  /** The Update Progress click: the goal's own id and a patch naming only
      the bumped progress. */
  function ProgressRequest(goal: Goal): (r: (string, GoalPatch))
    ensures r.0 == goal.id
    ensures r.1.progress == Some(BumpedProgress(goal.progress))
    ensures r.1.(progress := None) == EmptyGoalPatch
  {
    (goal.id, EmptyGoalPatch.(progress := Some(BumpedProgress(goal.progress))))
  }

  /** The request never asks for more than 100. */
  lemma BumpIsCapped(progress: int)
    ensures BumpedProgress(progress) <= 100
  {
  }

  /** Up to 90 the request is exactly ten more. */
  lemma BumpAddsTen(progress: int)
    requires progress <= 90
    ensures BumpedProgress(progress) == progress + 10
  {
  }

  /** From 90 on the request is 100, so clicking at 100 asks for 100 again. */
  lemma BumpSaturates(progress: int)
    requires progress >= 90
    ensures BumpedProgress(progress) == 100
    ensures BumpedProgress(BumpedProgress(progress)) == 100
  {
  }

  /** Within 0..100 the requested value never goes below the current one
      and stays within 0..100. */
  lemma BumpNeverLowers(progress: int)
    requires 0 <= progress <= 100
    ensures progress <= BumpedProgress(progress) <= 100
  {
  }

  /** Merged into the goal, the request changes the progress only, and after
      n clicks from p the progress is min(p + 10n, 100). */
  lemma {:induction false} RepeatedClicks(goal: Goal, n: nat)
    ensures n == 0 ==> Clicked(goal, n) == goal
    ensures n > 0 ==> Clicked(goal, n) == goal.(progress := if goal.progress + 10 * n < 100 then goal.progress + 10 * n else 100)
    decreases n
  {
    if n > 0 {
      RepeatedClicks(goal, n - 1);
    }
  }

  /** The goal after n Update Progress clicks, each merged as the page merges
      it. */
  function Clicked(goal: Goal, n: nat): Goal
    decreases n
  {
    if n == 0 then goal
    else var g := Clicked(goal, n - 1); MergeGoal(g, ProgressRequest(g).1)
  }
}
