/** The action-item list shared by the role dashboards (src/components/action-center.tsx):
    the item record, the priority ordering of the displayed list, the per-priority styles
    and the empty state. */
module ActionCenter {
  import opened Types
  import Sorting

  datatype Priority = High | Medium | Low

  datatype Status = ActionRequired | NeedsAttention | Monitor | Completed

  datatype ActionItem = ActionItem(id: string, itemType: string, title: string, description: string, status: Status, priority: Priority)

  function PriorityValue(p: Priority): string {
    match p
    case High => "High"
    case Medium => "Medium"
    case Low => "Low"
  }

  function StatusValue(s: Status): string {
    match s
    case ActionRequired => "Action Required"
    case NeedsAttention => "Needs Attention"
    case Monitor => "Monitor"
    case Completed => "Completed"
  }

  /** `priorityOrder[item.priority]`: High 1, Medium 2, Low 3. */
  function ItemRank(item: ActionItem): real {
    match item.priority
    case High => 1.0
    case Medium => 2.0
    case Low => 3.0
  }

  /** `[...items].sort(by priority order)`: a sorted copy; the caller's list is a value and stays as it was. */
  function SortedItems(items: seq<ActionItem>): seq<ActionItem> {
    Sorting.SortBy(items, ItemRank)
  }

  /** The items of one priority, in list order. */
  function WithPriority(items: seq<ActionItem>, p: Priority): seq<ActionItem> {
    Sorting.KeyFilter(items, ItemRank, ItemRank(ActionItem("", "", "", "", Completed, p)))
  }

  /** The displayed list is a permutation of the items, every High item comes before every
      Medium item, which comes before every Low item, and items of one priority keep their
      relative order. */
  lemma SortedItemsSpec(items: seq<ActionItem>, p: Priority)
    ensures |SortedItems(items)| == |items|
    ensures multiset(SortedItems(items)) == multiset(items)
    ensures forall i, j :: 0 <= i < j < |items| && SortedItems(items)[j].priority == High ==>
      SortedItems(items)[i].priority == High
    ensures forall i, j :: 0 <= i < j < |items| && SortedItems(items)[j].priority == Medium ==>
      SortedItems(items)[i].priority != Low
    ensures WithPriority(SortedItems(items), p) == WithPriority(items, p)
  {
    var probe := ActionItem("", "", "", "", Completed, p);
    Sorting.SortSpec(items, ItemRank, ItemRank(probe));
    var r := SortedItems(items);
    forall i, j | 0 <= i < j < |items| && r[j].priority == High ensures r[i].priority == High {
      assert ItemRank(r[i]) <= ItemRank(r[j]);
    }
    forall i, j | 0 <= i < j < |items| && r[j].priority == Medium ensures r[i].priority != Low {
      assert ItemRank(r[i]) <= ItemRank(r[j]);
    }
  }

  /** The icon colour class and border class of an item card. */
  datatype PriorityStyle = PriorityStyle(iconColor: string, borderColor: string)

  /** The switch on the priority string; a value outside the three falls to the muted default. */
  function GetPriorityStyles(priority: string): (r: PriorityStyle)
    ensures priority == "High" ==> r.borderColor == "border-destructive"
    ensures priority == "Medium" ==> r.borderColor == "border-yellow-500"
    ensures priority == "Low" ==> r.borderColor == "border-blue-500"
    ensures priority !in {"High", "Medium", "Low"} ==> r.borderColor == "border-muted"
  {
    if priority == "High" then PriorityStyle("text-destructive", "border-destructive")
    else if priority == "Medium" then PriorityStyle("text-yellow-500", "border-yellow-500")
    else if priority == "Low" then PriorityStyle("text-blue-500", "border-blue-500")
    else PriorityStyle("text-muted-foreground", "border-muted")
  }

  /** Each priority has its own border, and none of them shows the default one. */
  lemma PriorityStylesDistinct(p: Priority, q: Priority)
    ensures p != q ==> GetPriorityStyles(PriorityValue(p)).borderColor != GetPriorityStyles(PriorityValue(q)).borderColor
    ensures GetPriorityStyles(PriorityValue(p)).borderColor != "border-muted"
  {
  }

  /** The priority badge: destructive for High, secondary otherwise. */
  function BadgeVariant(p: Priority): (r: string)
    ensures r == "destructive" <==> p == High
  {
    if p == High then "destructive" else "secondary"
  }

  const DefaultEmptyStateMessage: string := "No items requiring immediate action."

  datatype View = ItemList(items: seq<ActionItem>) | EmptyState(message: string)

  /** What the card shows: the sorted items, or the empty-state message (the default one
      unless the caller passes its own). */
  function Render(items: seq<ActionItem>, emptyStateMessage: Option<string>): (v: View)
    ensures v.EmptyState? <==> items == []
    ensures v.ItemList? ==> v.items == SortedItems(items)
    ensures v.EmptyState? && emptyStateMessage == None ==> v.message == DefaultEmptyStateMessage
    ensures v.EmptyState? && emptyStateMessage.Some? ==> v.message == emptyStateMessage.value
  {
    var sorted := SortedItems(items);
    Sorting.SortSpec(items, ItemRank, 0.0);
    if |sorted| > 0 then ItemList(sorted) else EmptyState(emptyStateMessage.GetOr(DefaultEmptyStateMessage))
  }
}
