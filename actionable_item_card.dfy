/** The business rules of the actionable-item card
    (src/components/family/ActionableItemCard.tsx): when an item counts as
    overdue, and which status change each of its two buttons requests.
    Time is an integer timestamp (milliseconds); a due date that is absent,
    empty or unparsable is `None`, and none of those is ever overdue. */
module ActionableItemCard {
  import opened Common
  import opened FamilyTypes

  /** An item is overdue when its due date lies strictly before `now` and it
      is not completed. An 'overdue' status by itself does not make it so. */
  predicate IsOverdue(item: ActionableItem, now: int) {
    item.dueDate.Some? && item.dueDate.value < now && item.status != ItemCompleted
  }

  /** The two buttons the card can show. */
  datatype CardAction = Start | Complete

  /** The buttons shown for an item: Start only on a pending item, Complete
      only on one in progress, none otherwise. */
  function OfferedActions(item: ActionableItem): (r: seq<CardAction>)
    ensures Start in r <==> item.status == ItemPending
    ensures Complete in r <==> item.status == ItemInProgress
    ensures |r| <= 1
    ensures item.status == ItemCompleted || item.status == ItemOverdue ==> r == []
  {
    match item.status
    case ItemPending => [Start]
    case ItemInProgress => [Complete]
    case _ => []
  }

  /** The status a button asks for. */
  function TargetStatus(a: CardAction): ItemStatus {
    match a
    case Start => ItemInProgress
    case Complete => ItemCompleted
  }

  /** `handleStatusChange`: the request a button sends up, the item's own id
      and a patch that names the status and nothing else. */
  function StatusRequest(item: ActionableItem, a: CardAction): (r: (string, ItemPatch))
    ensures r.0 == item.id
    ensures r.1.status == Some(TargetStatus(a))
    ensures r.1.(status := None) == EmptyItemPatch
  {
    (item.id, EmptyItemPatch.(status := Some(TargetStatus(a))))
  }

  /** How many more button presses an item in this status can take. */
  function RemainingSteps(s: ItemStatus): nat {
    match s
    case ItemPending => 2
    case ItemInProgress => 1
    case _ => 0
  }

  /** The item after a sequence of presses, each merged into the item as the
      page merges the request; None as soon as a press is on a button the
      card does not show. */
  function AfterPresses(item: ActionableItem, presses: seq<CardAction>): Option<ActionableItem>
    decreases |presses|
  {
    if presses == [] then Some(item)
    else if presses[0] !in OfferedActions(item) then None
    else AfterPresses(MergeItem(item, StatusRequest(item, presses[0]).1), presses[1..])
  }

  /** A shown button changes the status only, and moves it one step along
      pending, in-progress, completed. */
  lemma PressAdvances(item: ActionableItem, a: CardAction)
    requires a in OfferedActions(item)
    ensures MergeItem(item, StatusRequest(item, a).1) == item.(status := TargetStatus(a))
    ensures RemainingSteps(TargetStatus(a)) + 1 == RemainingSteps(item.status)
  {
  }

  /** No item takes more presses than its status allows: at most two from
      pending, one from in progress, none from completed or overdue. */
  lemma {:induction false} PressesAreBounded(item: ActionableItem, presses: seq<CardAction>)
    requires AfterPresses(item, presses).Some?
    ensures |presses| <= RemainingSteps(item.status)
    ensures AfterPresses(item, presses).value ==
      item.(status := if presses == [] then item.status else TargetStatus(presses[|presses| - 1]))
    decreases |presses|
  {
    if presses != [] {
      var next := MergeItem(item, StatusRequest(item, presses[0]).1);
      PressAdvances(item, presses[0]);
      PressesAreBounded(next, presses[1..]);
    }
  }

  /** A completed item is never overdue, whatever its due date. */
  lemma CompletedIsNeverOverdue(item: ActionableItem, now: int)
    requires item.status == ItemCompleted
    ensures !IsOverdue(item, now)
  {
  }

  /** An item without a due date is never overdue, whatever its status. */
  lemma NoDueDateIsNeverOverdue(item: ActionableItem, now: int)
    requires item.dueDate.None?
    ensures !IsOverdue(item, now)
  {
  }

  /** Once overdue, an item stays overdue as time passes, until its status
      becomes completed. */
  lemma OverdueStaysOverdue(item: ActionableItem, t1: int, t2: int)
    requires IsOverdue(item, t1) && t1 <= t2
    ensures IsOverdue(item, t2)
  {
  }

  /** Pressing Complete clears the overdue mark for good. */
  lemma CompleteClearsOverdue(item: ActionableItem, now: int)
    requires Complete in OfferedActions(item)
    ensures !IsOverdue(MergeItem(item, StatusRequest(item, Complete).1), now)
  {
  }
}
