/**
 * The API-backed catalog hook (src/hooks/useTechnologiesApi.js): a list of
 * records fetched from GitHub or added by hand, kept in step with its saved
 * copy under `apiTechnologies`, with append, delete, merge-update and import,
 * and the views computed from it.
 */
module UseTechnologiesApi {

  import opened Sequences
  import opened Catalog
  import opened BrowserStorage
  import Text
  import UseTechnologies

  /** The key under which the hook saves its list. */
  const ApiStorageKey := "apiTechnologies"

  const NotFoundMessage := "Технологии не найдены"
  const BadFormatMessage := "Неверный формат файла"
  const ReadFailedMessage := "Ошибка при чтении файла"

  // ---------------------------------------------------------------- record operations

  /**
   * The members an update object (or the data of a new record) carries; a
   * member that is absent is `None` and leaves the record's value alone.
   */
  datatype Patch = Patch(
    id: Option<int>,
    title: Option<string>,
    description: Option<string>,
    status: Option<Status>,
    notes: Option<string>,
    category: Option<string>,
    language: Option<string>,
    stars: Option<int>,
    forks: Option<int>,
    url: Option<string>,
    owner: Option<string>,
    updatedAt: Option<string>,
    createdAt: Option<string>,
    source: Option<Source>,
    resources: Option<seq<Resource>>)

  /** The patch that carries no member at all. */
  const EmptyPatch := Patch(None, None, None, None, None, None, None, None, None, None, None, None, None, None, None)

  /** A member the patch carries replaces the optional field; otherwise the field stays. */
  function Overlay<T>(update: Option<T>, current: Option<T>): Option<T> {
    if update.Some? then update else current
  }

  /** `{ ...t, ...p }`: every member `p` carries overrides, every other field is kept. */
  function ApplyPatch(t: Technology, p: Patch): (r: Technology)
    ensures r.id == p.id.GetOr(t.id) && r.title == p.title.GetOr(t.title)
    ensures r.description == p.description.GetOr(t.description)
    ensures r.status == p.status.GetOr(t.status) && r.notes == p.notes.GetOr(t.notes)
    ensures p.category.Some? ==> r.category == p.category
    ensures p.category.None? ==> r.category == t.category
    ensures p.language.Some? ==> r.language == p.language
    ensures p.language.None? ==> r.language == t.language
    ensures p.source.Some? ==> r.source == p.source
    ensures p.source.None? ==> r.source == t.source
    ensures p.stars.Some? ==> r.stars == p.stars
    ensures p.stars.None? ==> r.stars == t.stars
    ensures p.forks.Some? ==> r.forks == p.forks
    ensures p.forks.None? ==> r.forks == t.forks
    ensures p.url.Some? ==> r.url == p.url
    ensures p.url.None? ==> r.url == t.url
    ensures p.owner.Some? ==> r.owner == p.owner
    ensures p.owner.None? ==> r.owner == t.owner
    ensures p.updatedAt.Some? ==> r.updatedAt == p.updatedAt
    ensures p.updatedAt.None? ==> r.updatedAt == t.updatedAt
    ensures p.createdAt.Some? ==> r.createdAt == p.createdAt
    ensures p.createdAt.None? ==> r.createdAt == t.createdAt
    ensures p.resources.Some? ==> r.resources == p.resources
    ensures p.resources.None? ==> r.resources == t.resources
  {
    Technology(
      id := p.id.GetOr(t.id),
      title := p.title.GetOr(t.title),
      description := p.description.GetOr(t.description),
      status := p.status.GetOr(t.status),
      notes := p.notes.GetOr(t.notes),
      category := Overlay(p.category, t.category),
      language := Overlay(p.language, t.language),
      stars := Overlay(p.stars, t.stars),
      forks := Overlay(p.forks, t.forks),
      url := Overlay(p.url, t.url),
      owner := Overlay(p.owner, t.owner),
      updatedAt := Overlay(p.updatedAt, t.updatedAt),
      createdAt := Overlay(p.createdAt, t.createdAt),
      source := Overlay(p.source, t.source),
      resources := Overlay(p.resources, t.resources))
  }

  /** Spreading an object with no members copies the record. */
  lemma EmptyPatchIsIdentity(t: Technology)
    ensures ApplyPatch(t, EmptyPatch) == t
  {
  }

  /** Spreading the same update twice is spreading it once. */
  lemma ApplyPatchIdempotent(t: Technology, p: Patch)
    ensures ApplyPatch(ApplyPatch(t, p), p) == ApplyPatch(t, p)
  {
  }

  /** `Math.max(...ts.map(t => t.id || 0), 0)`: the largest id, or 0 if none is positive. */
  function MaxId(ts: seq<Technology>): (m: int)
    ensures m >= 0
    ensures forall i :: 0 <= i < |ts| ==> ts[i].id <= m
    ensures m == 0 || exists i :: 0 <= i < |ts| && ts[i].id == m
  {
    if ts == [] then 0
    else
      var prefix := ts[..|ts| - 1];
      var last := ts[|ts| - 1].id;
      var m := MaxId(prefix);
      assert forall i :: 0 <= i < |prefix| ==> prefix[i] == ts[i];
      if last > m then last else m
  }

  /** The id a new record gets when its data carries none. */
  function NextId(ts: seq<Technology>): (id: int)
    ensures id >= 1
    ensures forall i :: 0 <= i < |ts| ==> ts[i].id < id
    ensures id == 1 || HasId(ts, id - 1)
    ensures !HasId(ts, id)
  {
    MaxId(ts) + 1
  }

  /**
   * The record `addTechnology(techData)` appends: the next id unless the data
   * brings its own, then every member of the data, then the forced status,
   * notes, creation time and source. A title or description the data lacks is
   * the empty string.
   */
  function NewRecord(existing: seq<Technology>, techData: Patch, createdAt: string): (t: Technology)
    ensures t.id == techData.id.GetOr(NextId(existing))
    ensures t.status == NotStarted && t.notes == "" && t.source == Some(Manual) && t.createdAt == Some(createdAt)
    ensures t.title == techData.title.GetOr("") && t.description == techData.description.GetOr("")
    ensures t.category == techData.category && t.language == techData.language && t.resources == techData.resources
    ensures t.stars == techData.stars && t.forks == techData.forks && t.url == techData.url
    ensures t.owner == techData.owner && t.updatedAt == techData.updatedAt
  {
    var base := Technology(NextId(existing), "", "", NotStarted, "", None, None, None, None, None, None, None, None, None, None);
    ApplyPatch(base, techData).(status := NotStarted, notes := "", createdAt := Some(createdAt), source := Some(Manual))
  }

  /** Appending a record whose data brings no id keeps the ids distinct. */
  lemma AddKeepsIdsUnique(existing: seq<Technology>, techData: Patch, createdAt: string)
    requires UniqueIds(existing) && techData.id.None?
    ensures UniqueIds(existing + [NewRecord(existing, techData, createdAt)])
  {
    var t := NewRecord(existing, techData, createdAt);
    var ts := existing + [t];
    forall i, j | 0 <= i < j < |ts| ensures ts[i].id != ts[j].id {
      if j == |existing| {
        assert ts[i] == existing[i];
      } else {
        assert ts[i] == existing[i] && ts[j] == existing[j];
      }
    }
  }

  function IdIsNot(id: int): Technology -> bool {
    (t: Technology) => t.id != id
  }

  /** `filter(tech => tech.id !== id)`: the records with other ids, in order. */
  function WithoutId(ts: seq<Technology>, id: int): (r: seq<Technology>)
    ensures IsOrderedSelection(r, ts, IdIsNot(id))
    ensures !HasId(r, id)
    ensures forall i :: 0 <= i < |ts| && ts[i].id != id ==> ts[i] in r
    ensures !HasId(ts, id) ==> r == ts
    ensures UniqueIds(ts) && HasId(ts, id) ==> |r| == |ts| - 1
  {
    RemoveIdFacts(ts, id);
    Filter(ts, IdIsNot(id))
  }

  lemma RemoveIdFacts(ts: seq<Technology>, id: int)
    ensures IsOrderedSelection(Filter(ts, IdIsNot(id)), ts, IdIsNot(id))
    ensures forall i :: 0 <= i < |ts| && ts[i].id != id ==> ts[i] in Filter(ts, IdIsNot(id))
    ensures !HasId(ts, id) ==> Filter(ts, IdIsNot(id)) == ts
    ensures UniqueIds(ts) && HasId(ts, id) ==> |Filter(ts, IdIsNot(id))| == |ts| - 1
  {
    FilterIsOrderedSelection(ts, IdIsNot(id));
    forall i | 0 <= i < |ts| && ts[i].id != id ensures ts[i] in Filter(ts, IdIsNot(id)) {
      FilterMember(ts, IdIsNot(id), ts[i]);
    }
    if !HasId(ts, id) {
      FilterKeepsAll(ts, IdIsNot(id));
    }
    if UniqueIds(ts) && HasId(ts, id) {
      RemoveUniqueLength(ts, id);
    }
  }

  lemma {:induction false} RemoveUniqueLength(ts: seq<Technology>, id: int)
    requires UniqueIds(ts) && HasId(ts, id)
    ensures |Filter(ts, IdIsNot(id))| == |ts| - 1
  {
    if ts[0].id == id {
      assert !HasId(ts[1..], id);
      FilterKeepsAll(ts[1..], IdIsNot(id));
    } else {
      var k :| 0 <= k < |ts| && ts[k].id == id;
      assert ts[1..][k - 1].id == id;
      RemoveUniqueLength(ts[1..], id);
    }
  }

  /** `map(tech => tech.id === id ? { ...tech, ...updates } : tech)`. */
  function UpdateMatching(ts: seq<Technology>, id: int, updates: Patch): (r: seq<Technology>)
    ensures |r| == |ts|
    ensures forall i :: 0 <= i < |ts| && ts[i].id == id ==> r[i] == ApplyPatch(ts[i], updates)
    ensures forall i :: 0 <= i < |ts| && ts[i].id != id ==> r[i] == ts[i]
  {
    seq(|ts|, i requires 0 <= i < |ts| => if ts[i].id == id then ApplyPatch(ts[i], updates) else ts[i])
  }

  /** An update for an id nobody has changes nothing. */
  lemma UpdateAbsentIsNoOp(ts: seq<Technology>, id: int, updates: Patch)
    requires !HasId(ts, id)
    ensures UpdateMatching(ts, id, updates) == ts
  {
    var r := UpdateMatching(ts, id, updates);
    forall i | 0 <= i < |ts| ensures r[i] == ts[i] {
      assert ts[i].id != id;
    }
  }

  /** Repeating the same update changes nothing more, even one that renumbers the record. */
  lemma UpdateIdempotent(ts: seq<Technology>, id: int, updates: Patch)
    ensures UpdateMatching(UpdateMatching(ts, id, updates), id, updates) == UpdateMatching(ts, id, updates)
  {
    var once := UpdateMatching(ts, id, updates);
    var twice := UpdateMatching(once, id, updates);
    forall i | 0 <= i < |ts| ensures twice[i] == once[i] {
      if ts[i].id == id {
        ApplyPatchIdempotent(ts[i], updates);
      }
    }
  }

  /** An update that does not carry an id keeps every id in place, so distinct ids stay distinct. */
  lemma UpdateKeepsIds(ts: seq<Technology>, id: int, updates: Patch)
    requires updates.id.None?
    ensures forall i :: 0 <= i < |ts| ==> UpdateMatching(ts, id, updates)[i].id == ts[i].id
    ensures UniqueIds(ts) ==> UniqueIds(UpdateMatching(ts, id, updates))
  {
  }

  // ---------------------------------------------------------------- the hook

  /** The hook's state: the list, the loading flag, the error text and the time of the last fetch. */
  class ApiTechnologiesHook {
    var technologies: seq<Technology>
    var loading: bool
    var error: Option<string>
    var lastFetch: Option<string>
    var storage: Storage

    /** The saved copy holds exactly the current list. */
    predicate Persisted()
      reads this
    {
      ApiStorageKey in storage && storage[ApiStorageKey] == Saved(technologies)
    }

    /** Before mounting: no records, loading, no error, no fetch yet. */
    constructor (storage: Storage)
      ensures technologies == [] && loading && error == None && lastFetch == None
      ensures this.storage == storage
    {
      technologies := [];
      loading := true;
      error := None;
      lastFetch := None;
      this.storage := storage;
    }

    /**
     * The mount effect: a non-empty saved list is taken over and loading
     * ends; otherwise the caller must fetch (`mustFetch`).
     */
    method Mount() returns (mustFetch: bool)
      modifies this
      ensures storage == old(storage) && error == old(error) && lastFetch == old(lastFetch)
      ensures !mustFetch <==>
        ApiStorageKey in storage && storage[ApiStorageKey].Saved? && storage[ApiStorageKey].technologies != []
      ensures !mustFetch ==> technologies == storage[ApiStorageKey].technologies && !loading && Persisted()
      ensures mustFetch ==> technologies == old(technologies) && loading == old(loading)
    {
      if ApiStorageKey in storage && storage[ApiStorageKey].Saved? && storage[ApiStorageKey].technologies != [] {
        technologies := storage[ApiStorageKey].technologies;
        loading := false;
        mustFetch := false;
      } else {
        mustFetch := true;
      }
    }

    /**
     * `fetchTechnologies`, given what the service answered: a non-empty list
     * replaces the records and is saved; an empty one, or a failure with its
     * message, only sets the error. Loading always ends.
     */
    method FetchTechnologies(outcome: Result<seq<Technology>, string>, fetchedAt: string)
      returns (data: Option<seq<Technology>>)
      modifies this
      ensures !loading
      ensures outcome.Ok? && outcome.value != [] ==>
        data == Some(outcome.value) && technologies == outcome.value && error == None
        && lastFetch == Some(fetchedAt) && storage == old(storage)[ApiStorageKey := Saved(technologies)]
      ensures outcome.Ok? && outcome.value == [] ==>
        data == None && error == Some(NotFoundMessage)
      ensures outcome.Err? ==>
        data == None && error == Some("Ошибка: " + outcome.error)
      ensures data.None? ==>
        technologies == old(technologies) && lastFetch == old(lastFetch) && storage == old(storage)
    {
      loading := true;
      error := None;
      if outcome.Ok? && outcome.value != [] {
        technologies := outcome.value;
        storage := storage[ApiStorageKey := Saved(technologies)];
        lastFetch := Some(fetchedAt);
        data := Some(outcome.value);
      } else if outcome.Ok? {
        error := Some(NotFoundMessage);
        data := None;
      } else {
        error := Some("Ошибка: " + outcome.error);
        data := None;
      }
      loading := false;
    }

    /** `addTechnology`: one record appended at the end and saved. */
    method AddTechnology(techData: Patch, createdAt: string) returns (newTech: Technology)
      modifies this
      ensures newTech == NewRecord(old(technologies), techData, createdAt)
      ensures technologies == old(technologies) + [newTech]
      ensures storage == old(storage)[ApiStorageKey := Saved(technologies)] && Persisted()
      ensures loading == old(loading) && error == old(error) && lastFetch == old(lastFetch)
      ensures techData.id.None? && UniqueIds(old(technologies)) ==> UniqueIds(technologies)
    {
      newTech := NewRecord(technologies, techData, createdAt);
      if techData.id.None? && UniqueIds(technologies) {
        AddKeepsIdsUnique(technologies, techData, createdAt);
      }
      technologies := technologies + [newTech];
      storage := storage[ApiStorageKey := Saved(technologies)];
    }

    /** `deleteTechnology`: every record with the id removed, the rest kept in order, and saved. */
    method DeleteTechnology(id: int)
      modifies this
      ensures technologies == WithoutId(old(technologies), id)
      ensures storage == old(storage)[ApiStorageKey := Saved(technologies)] && Persisted()
      ensures loading == old(loading) && error == old(error) && lastFetch == old(lastFetch)
    {
      var remaining := WithoutId(technologies, id);
      technologies := remaining;
      storage := storage[ApiStorageKey := Saved(technologies)];
    }

    /** `updateTechnology`: the update spread into every record with the id, and saved. */
    method UpdateTechnology(id: int, updates: Patch)
      modifies this
      ensures technologies == UpdateMatching(old(technologies), id, updates)
      ensures storage == old(storage)[ApiStorageKey := Saved(technologies)] && Persisted()
      ensures loading == old(loading) && error == old(error) && lastFetch == old(lastFetch)
    {
      technologies := UpdateMatching(technologies, id, updates);
      storage := storage[ApiStorageKey := Saved(technologies)];
    }

    /**
     * `importFromJSON`, given what reading the file gave (`None` when the
     * reader failed): a document with a `technologies` array replaces the
     * list and resolves with its length; anything else rejects and changes
     * nothing.
     */
    method ImportFromJson(file: Option<ImportedFile>) returns (r: Result<nat, string>)
      modifies this
      ensures file.None? ==> r == Err(ReadFailedMessage)
      ensures file.Some? && file.value.ParseFailed? ==> r == Err("Ошибка чтения файла: " + file.value.message)
      ensures file.Some? && file.value.Parsed? && ImportedList(file.value).None? ==> r == Err(BadFormatMessage)
      ensures r.Ok? <==> file.Some? && ImportedList(file.value).Some?
      ensures r.Ok? ==>
        technologies == ImportedList(file.value).value && r.value == |technologies|
        && storage == old(storage)[ApiStorageKey := Saved(technologies)]
      ensures r.Err? ==> technologies == old(technologies) && storage == old(storage)
      ensures loading == old(loading) && error == old(error) && lastFetch == old(lastFetch)
    {
      if file.None? {
        r := Err(ReadFailedMessage);
      } else if file.value.ParseFailed? {
        r := Err("Ошибка чтения файла: " + file.value.message);
      } else {
        var list := ImportedList(file.value);
        if list.Some? {
          technologies := list.value;
          storage := storage[ApiStorageKey := Saved(technologies)];
          r := Ok(|technologies|);
        } else {
          r := Err(BadFormatMessage);
        }
      }
    }
  }

  // ---------------------------------------------------------------- export

  /** The document `exportToJSON` writes: the time, the number of records and the records. */
  datatype ApiExportDocument = ApiExportDocument(exportedAt: string, count: nat, technologies: seq<Technology>)

  function ExportDocument(exportedAt: string, ts: seq<Technology>): (doc: ApiExportDocument)
    ensures doc.exportedAt == exportedAt && doc.technologies == ts && doc.count == |ts|
  {
    ApiExportDocument(exportedAt, |ts|, ts)
  }

  /**
   * `JSON.stringify(data, null, 2)` read back by `JSON.parse`: an object with
   * the document's three members by name.
   */
  function ExportJson(doc: ApiExportDocument): (members: map<string, JsonMember>)
    ensures members.Keys == {"exportedAt", "count", "technologies"}
    ensures members["exportedAt"] == JsonText(doc.exportedAt) && members["count"] == JsonNumber(doc.count)
    ensures members["technologies"] == JsonRecords(doc.technologies)
  {
    map["exportedAt" := JsonText(doc.exportedAt), "count" := JsonNumber(doc.count),
        "technologies" := JsonRecords(doc.technologies)]
  }

  /**
   * The file an export writes passes the import's shape check, brings back the
   * same list, and its `count` member is the number the import resolves with.
   */
  lemma ExportImportRoundTrip(exportedAt: string, ts: seq<Technology>)
    ensures var members := ExportJson(ExportDocument(exportedAt, ts));
      ImportedList(Parsed(members)) == Some(ts)
      && members["count"] == JsonNumber(|ImportedList(Parsed(members)).value|)
  {
  }

  // ---------------------------------------------------------------- views

  /** `getStatistics`: the status counts, and the rounded share completed (0 for no records). */
  function GetStatistics(ts: seq<Technology>): (s: Statistics)
    ensures s.total == |ts| && s.completed == CountStatus(ts, Completed)
    ensures s.inProgress == CountStatus(ts, InProgress) && s.notStarted == CountStatus(ts, NotStarted)
    ensures s.total == 0 ==> s.progress == 0
    ensures s.total > 0 ==> 2 * s.total * s.progress <= 200 * s.completed + s.total < 2 * s.total * (s.progress + 1)
    ensures s.progress <= 100
  {
    var total, completed := |ts|, CountStatus(ts, Completed);
    var counts := Statistics(total, completed, CountStatus(ts, InProgress), CountStatus(ts, NotStarted), 0);
    if total > 0 then counts.(progress := RoundedPercent(completed, total)) else counts
  }

  /** Both hooks summarise a list in the same way. */
  lemma StatisticsAgreeWithLocalHook(ts: seq<Technology>)
    ensures GetStatistics(ts) == UseTechnologies.GetStatistics(ts)
  {
  }

  const OtherCategory := "другое"

  /** `t.category || 'другое'` for every record, in order. */
  function CategoryNames(ts: seq<Technology>): (names: seq<string>)
    ensures |names| == |ts|
    ensures forall i :: 0 <= i < |ts| ==> names[i] == OrElse(ts[i].category, OtherCategory)
  {
    seq(|ts|, i requires 0 <= i < |ts| => OrElse(ts[i].category, OtherCategory))
  }

  /**
   * `getCategories`: every record's category (or `другое`) exactly once, in
   * order of first appearance.
   */
  function GetCategories(ts: seq<Technology>): (cs: seq<string>)
    ensures NoDuplicates(cs)
    ensures forall i :: 0 <= i < |ts| ==> OrElse(ts[i].category, OtherCategory) in cs
    ensures forall k :: 0 <= k < |cs| ==> exists i :: 0 <= i < |ts| && OrElse(ts[i].category, OtherCategory) == cs[k]
    ensures forall k, l :: 0 <= k < l < |cs| ==>
      FirstIndex(CategoryNames(ts), cs[k]) < FirstIndex(CategoryNames(ts), cs[l])
  {
    var names := CategoryNames(ts);
    DistinctFirstAppearanceOrder(names);
    var cs := Distinct(names);
    forall k | 0 <= k < |cs|
      ensures exists i :: 0 <= i < |ts| && OrElse(ts[i].category, OtherCategory) == cs[k]
    {
      var i :| 0 <= i < |names| && names[i] == cs[k];
    }
    cs
  }

  function CategoryIs(category: string): Technology -> bool {
    (t: Technology) => t.category == Some(category)
  }

  /** `getTechnologiesByCategory`: all records for `'all'`, else those filed under the category, in order. */
  function GetTechnologiesByCategory(ts: seq<Technology>, category: string): (r: seq<Technology>)
    ensures category == "all" ==> r == ts
    ensures category != "all" ==> IsOrderedSelection(r, ts, CategoryIs(category))
  {
    if category == "all" then ts
    else
      FilterIsOrderedSelection(ts, CategoryIs(category));
      Filter(ts, CategoryIs(category))
  }

  /**
   * `searchTechnologies`: the records whose title, description or language
   * contains the query, ignoring case, in order.
   */
  function SearchTechnologies(ts: seq<Technology>, query: string): (r: seq<Technology>)
    ensures IsOrderedSelection(r, ts, MatchesTextOrLanguage(Text.ToLower(query)))
    ensures query == "" ==> r == ts
  {
    var lowerQuery := Text.ToLower(query);
    FilterIsOrderedSelection(ts, MatchesTextOrLanguage(lowerQuery));
    EmptyQueryKeepsAll(ts);
    Filter(ts, MatchesTextOrLanguage(lowerQuery))
  }

  /** This search finds everything the local hook's search finds, and possibly more. */
  lemma SearchExtendsLocalSearch(ts: seq<Technology>, query: string)
    ensures forall k :: 0 <= k < |UseTechnologies.SearchTechnologies(ts, query)| ==>
      UseTechnologies.SearchTechnologies(ts, query)[k] in SearchTechnologies(ts, query)
  {
    var lowerQuery := Text.ToLower(query);
    var local := UseTechnologies.SearchTechnologies(ts, query);
    forall k | 0 <= k < |local| ensures local[k] in SearchTechnologies(ts, query) {
      assert local[k] in ts && MatchesText(lowerQuery)(local[k]);
      FilterMember(ts, MatchesTextOrLanguage(lowerQuery), local[k]);
    }
  }
}
