/**
 * The stand-alone roadmap page (src/App.js): its own list of eight topics,
 * the status handlers it passes to the cards and quick actions, the status
 * filter, and the sidebar's counts, progress, recommendation and remaining
 * count.
 */
module App {

  import opened Sequences
  import opened Catalog
  import UseTechnologies
  import ProgressHeader

  /**
   * The page's eight topics: the hook's initial titles and descriptions, not
   * started, with no category. The page's objects have no `notes` member;
   * here their notes are the empty string.
   */
  function AppInitialTechnologies(): (ts: seq<Technology>)
    ensures |ts| == 8 && UniqueIds(ts) && AllKnown(ts)
    ensures forall i :: 0 <= i < |ts| ==> ts[i].id == i + 1 && ts[i].status == NotStarted && ts[i].category == None
    ensures forall i :: 0 <= i < |ts| ==>
      ts[i] == UseTechnologies.InitialTechnologies()[i].(category := None)
  {
    seq(8, i requires 0 <= i < 8 =>
      Technology(i + 1, UseTechnologies.InitialTitles[i], UseTechnologies.InitialDescriptions[i], NotStarted, "",
                 None, None, None, None, None, None, None, None, None, None))
  }

  /** The filter tab's test: everything for `'all'`, else an equal status. */
  function FilterKeeps(filter: StatusFilter): Technology -> bool {
    (t: Technology) => filter.All? || t.status == filter.status
  }

  /** `filteredTechnologies`. */
  function FilteredTechnologies(ts: seq<Technology>, filter: StatusFilter): (r: seq<Technology>)
    ensures filter.All? ==> r == ts
    ensures IsOrderedSelection(r, ts, FilterKeeps(filter))
  {
    FilterIsOrderedSelection(ts, FilterKeeps(filter));
    FilterKeepsAll(ts, FilterKeeps(All));
    Filter(ts, FilterKeeps(filter))
  }

  /** The page filters exactly as the hook's `getTechnologiesByStatus` does. */
  lemma FilteredAgreesWithHook(ts: seq<Technology>, filter: StatusFilter)
    ensures FilteredTechnologies(ts, filter) == UseTechnologies.GetTechnologiesByStatus(ts, filter)
  {
    if filter.Only? {
      FilterAgree(ts, FilterKeeps(filter), StatusIs(filter.status));
    }
  }

  /** The sidebar's progress: the same unguarded rounding as the progress banner. */
  function AppProgress(ts: seq<Technology>): (p: Option<nat>)
    ensures p.Some? <==> ts != []
    ensures p.Some? ==> p.value <= 100
    ensures p.Some? ==> 2 * |ts| * p.value <= 200 * CountStatus(ts, Completed) + |ts| < 2 * |ts| * (p.value + 1)
  {
    ProgressHeader.Percentage(CountStatus(ts, Completed), |ts|)
  }

  /** On a non-empty list the page's progress is the hook's `calculateProgress`. */
  lemma AppProgressAgreesWithHook(ts: seq<Technology>)
    requires ts != []
    ensures AppProgress(ts) == Some(UseTechnologies.CalculateProgress(ts))
  {
  }

  /** The four recommendations. */
  datatype Recommendation = RoadmapDone | KeepGoing(inProgress: nat) | GreatStart | PickAny

  /** The recommendation chain: all completed, else some in progress, else some completed, else none begun. */
  function RecommendationFor(ts: seq<Technology>): (r: Recommendation)
    ensures r == RoadmapDone <==> CountStatus(ts, Completed) == |ts|
    ensures r.KeepGoing? ==> r.inProgress == CountStatus(ts, InProgress) > 0
    ensures r == GreatStart ==> CountStatus(ts, InProgress) == 0 && CountStatus(ts, Completed) > 0
    ensures r == PickAny ==> CountStatus(ts, InProgress) == 0 && CountStatus(ts, Completed) == 0
  {
    var completed, inProgress := CountStatus(ts, Completed), CountStatus(ts, InProgress);
    if completed == |ts| then RoadmapDone
    else if inProgress > 0 then KeepGoing(inProgress)
    else if completed > 0 then GreatStart
    else PickAny
  }

  /** The caption for the number of topics in progress: `тема` for one, `темы` otherwise. */
  function TopicWord(n: nat): (word: string)
    ensures word == "тема" <==> n == 1
    ensures word == "темы" <==> n != 1
  {
    if n == 1 then "тема" else "темы"
  }

  /** `notStartedCount + inProgressCount`. */
  function Remaining(ts: seq<Technology>): (n: nat)
    ensures n <= |ts| - CountStatus(ts, Completed)
    ensures AllKnown(ts) <==> n == |ts| - CountStatus(ts, Completed)
  {
    StatusCountsCover(ts);
    CountStatus(ts, NotStarted) + CountStatus(ts, InProgress)
  }

  /**
   * With known statuses, "start with any topic" means nothing is begun, and
   * nothing remaining means the roadmap is done.
   */
  lemma RecommendationAndRemaining(ts: seq<Technology>)
    requires AllKnown(ts)
    ensures RecommendationFor(ts) == PickAny ==> CountStatus(ts, NotStarted) == |ts| > 0
    ensures Remaining(ts) == 0 <==> RecommendationFor(ts) == RoadmapDone
  {
    StatusCountsCover(ts);
  }

  /** The page's state. */
  class AppState {
    var technologies: seq<Technology>
    var activeFilter: StatusFilter

    /** Distinct ids and only the three known statuses. */
    predicate Valid()
      reads this
    {
      UniqueIds(technologies) && AllKnown(technologies)
    }

    constructor ()
      ensures technologies == AppInitialTechnologies() && activeFilter == All
      ensures Valid()
    {
      technologies := AppInitialTechnologies();
      activeFilter := All;
    }

    method SetActiveFilter(filter: StatusFilter)
      modifies this
      ensures activeFilter == filter && technologies == old(technologies)
    {
      activeFilter := filter;
    }

    /** `handleStatusChange`: the status of every record with the id, and nothing else. */
    method HandleStatusChange(id: int, newStatus: Status)
      modifies this
      ensures technologies == WithStatus(old(technologies), id, newStatus) && activeFilter == old(activeFilter)
      ensures old(Valid()) && IsKnown(newStatus) ==> Valid()
    {
      StatusChangesKeepIds(technologies, id, newStatus);
      technologies := WithStatus(technologies, id, newStatus);
    }

    /** `handleMarkAllComplete`. */
    method HandleMarkAllComplete()
      modifies this
      ensures technologies == AllWithStatus(old(technologies), Completed) && activeFilter == old(activeFilter)
      ensures CountStatus(technologies, Completed) == |technologies| && RecommendationFor(technologies) == RoadmapDone
      ensures old(Valid()) ==> Valid()
    {
      AllWithStatusCounts(technologies, Completed, NotStarted);
      technologies := AllWithStatus(technologies, Completed);
    }

    /** `handleResetAll`. */
    method HandleResetAll()
      modifies this
      ensures technologies == AllWithStatus(old(technologies), NotStarted) && activeFilter == old(activeFilter)
      ensures CountStatus(technologies, NotStarted) == |technologies|
      ensures old(Valid()) ==> Valid()
    {
      AllWithStatusCounts(technologies, NotStarted, Completed);
      technologies := AllWithStatus(technologies, NotStarted);
    }

    /** `handleRandomSelect`, with `r` standing for the random draw. */
    method HandleRandomSelect(r: nat)
      modifies this
      ensures technologies == AfterRandomPick(old(technologies), r) && activeFilter == old(activeFilter)
      ensures old(Valid()) ==> Valid()
      ensures old(Valid()) ==> CountStatus(technologies, Completed) == CountStatus(old(technologies), Completed)
    {
      var ts := technologies;
      if UniqueIds(ts) {
        RandomPickEffect(ts, r);
      }
      var notStartedTechs := Filter(ts, StatusIs(NotStarted));
      if |notStartedTechs| > 0 {
        var randomTech := notStartedTechs[r % |notStartedTechs|];
        assert RandomPick(ts, r) == Some(randomTech);
        HandleStatusChange(randomTech.id, InProgress);
      } else {
        var notCompletedTechs := Filter(ts, StatusIsNot(Completed));
        if |notCompletedTechs| > 0 {
          var randomTech := notCompletedTechs[r % |notCompletedTechs|];
          assert RandomPick(ts, r) == Some(randomTech);
          HandleStatusChange(randomTech.id, InProgress);
        } else {
          assert RandomPick(ts, r).None?;
        }
      }
    }
  }
}
