/**
 * The card of one technology (src/components/TechnologyCard.jsx): the badge
 * shown for its status and the status a click moves it to.
 */
module TechnologyCard {

  import opened Sequences
  import opened Catalog

  /** What the card shows for a status: an icon, a caption and a CSS class. */
  datatype Badge = Badge(icon: string, text: string, cssClass: string)

  /** The badge of a status; an unrecognised status leaves all three undefined. */
  function StatusBadge(status: Status): (b: Option<Badge>)
    ensures b.Some? <==> IsKnown(status)
    ensures b.Some? ==> b.value.cssClass == StatusName(status)
  {
    match status
    case Completed => Some(Badge("✅", "Пройдено", "completed"))
    case InProgress => Some(Badge("📚", "В процессе", "in-progress"))
    case NotStarted => Some(Badge("⏳", "Не начато", "not-started"))
    case Unrecognized(_) => None
  }

  /** Different statuses never share an icon, a caption or a class. */
  lemma BadgesDistinct(s1: Status, s2: Status)
    requires IsKnown(s1) && IsKnown(s2) && s1 != s2
    ensures StatusBadge(s1).value.icon != StatusBadge(s2).value.icon
    ensures StatusBadge(s1).value.text != StatusBadge(s2).value.text
    ensures StatusBadge(s1).value.cssClass != StatusBadge(s2).value.cssClass
  {
  }

  /** The status one click moves to; an unrecognised status has none. */
  function NextStatus(status: Status): (next: Option<Status>)
    ensures next.Some? <==> IsKnown(status)
    ensures next.Some? ==> IsKnown(next.value) && next.value != status
    ensures status == NotStarted ==> next == Some(InProgress)
    ensures status == InProgress ==> next == Some(Completed)
    ensures status == Completed ==> next == Some(NotStarted)
  {
    match status
    case NotStarted => Some(InProgress)
    case InProgress => Some(Completed)
    case Completed => Some(NotStarted)
    case Unrecognized(_) => None
  }

  /**
   * The click cycle has length three: three clicks bring a card back to its
   * status, two never do, and the three statuses met on the way are all
   * different.
   */
  lemma CycleOfThree(s: Status)
    requires IsKnown(s)
    ensures var s1 := NextStatus(s).value;
      var s2 := NextStatus(s1).value;
      NextStatus(s2).value == s && s2 != s && s1 != s && s1 != s2
  {
  }

  /** `handleClick`: the card reports its own id and its next status (undefined for an unrecognised one). */
  function HandleClick(id: int, status: Status): (change: (int, Option<Status>))
    ensures change.0 == id
    ensures change.1.Some? <==> IsKnown(status)
    ensures change.1.Some? ==> change.1.value != status
    ensures change.1 == NextStatus(status)
  {
    (id, NextStatus(status))
  }

  /** A click on a card of a catalog with distinct ids changes that card's status and no other record. */
  lemma ClickChangesOnlyItsCard(ts: seq<Technology>, i: nat)
    requires UniqueIds(ts) && i < |ts| && IsKnown(ts[i].status)
    ensures var change := HandleClick(ts[i].id, ts[i].status);
      var after := WithStatus(ts, change.0, change.1.value);
      |after| == |ts| && after[i].status != ts[i].status
      && forall j :: 0 <= j < |ts| && j != i ==> after[j] == ts[j]
  {
  }
}
