/**
 * The local catalog hook (src/hooks/useTechnologies.js): the catalog held
 * under the storage key `techTrackerData`, its update operations, and the
 * views computed from it.
 */
module UseTechnologies {

  import opened Sequences
  import opened Catalog
  import opened BrowserStorage
  import Text

  /** The key the hook passes to `useLocalStorage`. */
  const StorageKey := "techTrackerData"

  /** Titles of the eight React topics the catalog starts with, in id order. */
  const InitialTitles: seq<string> := [
    "React Components", "JSX Syntax", "State Management", "Props и PropTypes",
    "Lifecycle Methods", "React Router", "Context API", "Custom Hooks"]

  /** Their descriptions, in the same order. */
  const InitialDescriptions: seq<string> := [
    "Изучение базовых компонентов, функциональные и классовые компоненты",
    "Освоение синтаксиса JSX, встраивание JavaScript выражений",
    "Работа с состоянием компонентов, useState хук",
    "Передача данных между компонентами через props",
    "Жизненный цикл компонентов, useEffect хук",
    "Маршрутизация в приложении, навигация между страницами",
    "Глобальное управление состоянием с помощью Context API",
    "Создание собственных хуков для переиспользования логики"]

  /** The eight topics: ids 1 to 8, not started, no notes, all in `frontend`. */
  function InitialTechnologies(): (ts: seq<Technology>)
    ensures |ts| == 8 && UniqueIds(ts)
    ensures forall i :: 0 <= i < |ts| ==> ts[i].id == i + 1 && ts[i].status == NotStarted && ts[i].notes == ""
    ensures forall i :: 0 <= i < |ts| ==>
      ts[i].title == InitialTitles[i] && ts[i].description == InitialDescriptions[i]
    ensures forall i :: 0 <= i < |ts| ==> ts[i].category == Some("frontend")
  {
    seq(8, i requires 0 <= i < 8 => Seed(i + 1, InitialTitles[i], InitialDescriptions[i], "frontend"))
  }

  /** What the hook starts with: the saved catalog, or the eight topics. */
  function LoadCatalog(storage: Storage): (ts: seq<Technology>)
    ensures StorageKey in storage && storage[StorageKey].Saved? ==> ts == storage[StorageKey].technologies
    ensures !(StorageKey in storage && storage[StorageKey].Saved?) ==> ts == InitialTechnologies()
  {
    ReadOrDefault(storage, StorageKey, InitialTechnologies())
  }

  /** The hook's state and its update operations. */
  class TechnologiesHook {
    var technologies: seq<Technology>

    constructor (storage: Storage)
      ensures technologies == LoadCatalog(storage)
    {
      technologies := LoadCatalog(storage);
    }

    /** Every record carrying `techId` gets `newStatus`; nothing else changes. */
    method UpdateStatus(techId: int, newStatus: Status)
      modifies this
      ensures technologies == WithStatus(old(technologies), techId, newStatus)
      ensures UniqueIds(old(technologies)) ==> UniqueIds(technologies)
    {
      StatusChangesKeepIds(technologies, techId, newStatus);
      technologies := WithStatus(technologies, techId, newStatus);
    }

    /** Every record carrying `techId` gets `newNotes`; nothing else changes. */
    method UpdateNotes(techId: int, newNotes: string)
      modifies this
      ensures technologies == WithNotes(old(technologies), techId, newNotes)
      ensures UniqueIds(old(technologies)) ==> UniqueIds(technologies)
    {
      WithNotesKeepsIds(technologies, techId, newNotes);
      technologies := WithNotes(technologies, techId, newNotes);
    }

    method MarkAllCompleted()
      modifies this
      ensures technologies == AllWithStatus(old(technologies), Completed)
      ensures CountStatus(technologies, Completed) == |technologies| == |old(technologies)|
    {
      AllWithStatusCounts(technologies, Completed, NotStarted);
      technologies := AllWithStatus(technologies, Completed);
    }

    method ResetAllStatuses()
      modifies this
      ensures technologies == AllWithStatus(old(technologies), NotStarted)
      ensures CountStatus(technologies, NotStarted) == |technologies| == |old(technologies)|
    {
      AllWithStatusCounts(technologies, NotStarted, Completed);
      technologies := AllWithStatus(technologies, NotStarted);
    }

    /**
     * Sets a random not-started record in progress, or failing that a random
     * record that is not completed; `r` stands for the random draw.
     */
    method SelectRandomTechnology(r: nat)
      modifies this
      ensures technologies == AfterRandomPick(old(technologies), r)
      ensures UniqueIds(old(technologies)) ==>
        CountStatus(technologies, Completed) == CountStatus(old(technologies), Completed)
    {
      if UniqueIds(technologies) {
        RandomPickEffect(technologies, r);
      }
      var notStartedTechs := Filter(technologies, StatusIs(NotStarted));
      if |notStartedTechs| > 0 {
        var randomTech := notStartedTechs[r % |notStartedTechs|];
        UpdateStatus(randomTech.id, InProgress);
      } else {
        var notCompletedTechs := Filter(technologies, StatusIsNot(Completed));
        if |notCompletedTechs| > 0 {
          var randomTech := notCompletedTechs[r % |notCompletedTechs|];
          UpdateStatus(randomTech.id, InProgress);
        }
      }
    }
  }

  // ---------------------------------------------------------------- views

  /** `calculateProgress`: 0 for an empty catalog, else the rounded share of completed records. */
  function CalculateProgress(ts: seq<Technology>): (p: nat)
    ensures p <= 100
    ensures |ts| > 0 ==> 2 * |ts| * p <= 200 * CountStatus(ts, Completed) + |ts| < 2 * |ts| * (p + 1)
    ensures ts == [] || CountStatus(ts, Completed) == 0 ==> p == 0
    ensures ts != [] && CountStatus(ts, Completed) == |ts| ==> p == 100
  {
    if |ts| == 0 then 0
    else
      var completed, whole := CountStatus(ts, Completed), |ts|;
      RoundedPercentZero(completed, whole);
      RoundedPercentFull(completed, whole);
      RoundedPercent(completed, whole)
  }

  /** `getStatistics`: the status counts and the progress. */
  function GetStatistics(ts: seq<Technology>): (s: Statistics)
    ensures s.total == |ts|
    ensures s.completed + s.inProgress + s.notStarted <= s.total
    ensures s.completed + s.inProgress + s.notStarted == s.total <==> AllKnown(ts)
    ensures s.progress <= 100 && (s.total == 0 ==> s.progress == 0)
  {
    StatusCountsCover(ts);
    Statistics(|ts|, CountStatus(ts, Completed), CountStatus(ts, InProgress),
               CountStatus(ts, NotStarted), CalculateProgress(ts))
  }

  /** `getTechnologiesByStatus`: everything for `'all'`, else the records with that status in order. */
  function GetTechnologiesByStatus(ts: seq<Technology>, filter: StatusFilter): (r: seq<Technology>)
    ensures filter.All? ==> r == ts
    ensures filter.Only? ==> IsOrderedSelection(r, ts, StatusIs(filter.status))
    ensures filter.Only? ==> |r| == CountStatus(ts, filter.status)
  {
    match filter
    case All => ts
    case Only(st) =>
      FilterIsOrderedSelection(ts, StatusIs(st));
      Filter(ts, StatusIs(st))
  }

  /**
   * `searchTechnologies`: the records whose title or description contains
   * the query, ignoring case, in order; the empty query keeps everything.
   */
  function SearchTechnologies(ts: seq<Technology>, query: string): (r: seq<Technology>)
    ensures IsOrderedSelection(r, ts, MatchesText(Text.ToLower(query)))
    ensures query == "" ==> r == ts
  {
    var lowerQuery := Text.ToLower(query);
    FilterIsOrderedSelection(ts, MatchesText(lowerQuery));
    EmptyQueryKeepsAll(ts);
    Filter(ts, MatchesText(lowerQuery))
  }

  /** Searching ignores the case of the query. */
  lemma SearchIgnoresQueryCase(ts: seq<Technology>, query: string)
    ensures SearchTechnologies(ts, query) == SearchTechnologies(ts, Text.ToLower(query))
  {
    Text.ToLowerIdempotent(query);
  }
}
