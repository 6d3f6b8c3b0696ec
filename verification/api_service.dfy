/**
 * The pure part of the GitHub service (src/services/api.js): the language
 * allow-list with its fallback, the language-to-category table, the mapping
 * of a repository search reply to catalog records with the choice of error,
 * and the table of popular learning resources. The HTTP request itself is a
 * parameter: the reply (or the transport failure) is passed in.
 */
module ApiService {

  import opened Sequences
  import opened Catalog
  import Text

  /** The languages a search may ask for. */
  const ValidLanguages: seq<string> := ["javascript", "python", "typescript", "go", "rust", "java", "cpp", "csharp"]

  /** The language searched for: the lower-cased query if it is allowed, otherwise `javascript`. */
  function NormalizeLanguage(query: string): (lang: string)
    ensures lang in ValidLanguages
    ensures Text.ToLower(query) in ValidLanguages ==> lang == Text.ToLower(query)
    ensures Text.ToLower(query) !in ValidLanguages ==> lang == "javascript"
  {
    var lower := Text.ToLower(query);
    if lower in ValidLanguages then lower else "javascript"
  }

  /** A string with no upper-case letter is its own lower-case form. */
  lemma ToLowerOfLower(s: string)
    requires forall i :: 0 <= i < |s| ==> !Text.IsUpper(s[i])
    ensures Text.ToLower(s) == s
  {
  }

  /** Normalising an already normalised language changes nothing. */
  lemma NormalizeLanguageIdempotent(query: string)
    ensures NormalizeLanguage(NormalizeLanguage(query)) == NormalizeLanguage(query)
  {
    var lang := NormalizeLanguage(query);
    assert forall i :: 0 <= i < |lang| ==> !Text.IsUpper(lang[i]);
    ToLowerOfLower(lang);
  }

  /** Two sample queries: an unsupported language falls back, a capitalised one is folded. */
  lemma NormalizeLanguageExamples()
    ensures NormalizeLanguage("ruby") == "javascript"
    ensures NormalizeLanguage("Python") == "python"
  {
    assert Text.ToLower("ruby") == "ruby";
    assert Text.ToLower("Python") == "python";
  }

  /** `getCategory`: the category the search language files its results under. */
  function Category(language: string): (c: string)
    ensures c in ["frontend", "backend", "systems", "other"]
    ensures c == "frontend" <==> language in ["javascript", "typescript"]
    ensures c == "backend" <==> language in ["python", "java", "go", "rust", "csharp"]
    ensures c == "systems" <==> language == "cpp"
  {
    match language
    case "javascript" => "frontend"
    case "typescript" => "frontend"
    case "python" => "backend"
    case "java" => "backend"
    case "go" => "backend"
    case "rust" => "backend"
    case "cpp" => "systems"
    case "csharp" => "backend"
    case _ => "other"
  }

  /** Every allowed language has a real category, so search results are never filed under `other`. */
  lemma CategoryOfNormalized(query: string)
    ensures Category(NormalizeLanguage(query)) != "other"
  {
  }

  /** The fields of a repository in a search reply that the mapping reads; a missing `id` is 0. */
  datatype Repo = Repo(
    id: int,
    name: string,
    description: Option<string>,
    language: Option<string>,
    stargazersCount: int,
    forksCount: int,
    htmlUrl: string,
    ownerLogin: string,
    updatedAt: string)

  const NoDescription := "Описание отсутствует"

  /** The record made from the repository at position `index` of a search for `lang`. */
  function RepoToTechnology(repo: Repo, index: nat, lang: string): (t: Technology)
    ensures t.id == (if repo.id != 0 then repo.id else index + 1)
    ensures t.title == Text.Capitalize(repo.name)
    ensures t.description == OrElse(repo.description, NoDescription)
    ensures t.status == NotStarted && t.notes == "" && t.source == Some(Github) && t.resources == Some([])
    ensures t.category == Some(Category(lang)) && t.language == Some(OrElse(repo.language, lang))
    ensures t.stars == Some(repo.stargazersCount) && t.forks == Some(repo.forksCount)
    ensures t.url == Some(repo.htmlUrl) && t.owner == Some(repo.ownerLogin) && t.updatedAt == Some(repo.updatedAt)
    ensures t.createdAt == None
  {
    Technology(
      id := if repo.id != 0 then repo.id else index + 1,
      title := Text.Capitalize(repo.name),
      description := OrElse(repo.description, NoDescription),
      status := NotStarted,
      notes := "",
      category := Some(Category(lang)),
      language := Some(OrElse(repo.language, lang)),
      stars := Some(repo.stargazersCount),
      forks := Some(repo.forksCount),
      url := Some(repo.htmlUrl),
      owner := Some(repo.ownerLogin),
      updatedAt := Some(repo.updatedAt),
      createdAt := None,
      source := Some(Github),
      resources := Some([]))
  }

  /** `items.map(...)`: one record per repository, in reply order. */
  function MapRepos(items: seq<Repo>, lang: string): (ts: seq<Technology>)
    ensures |ts| == |items|
    ensures forall i :: 0 <= i < |ts| ==> ts[i] == RepoToTechnology(items[i], i, lang)
  {
    seq(|items|, i requires 0 <= i < |items| => RepoToTechnology(items[i], i, lang))
  }

  /** A freshly mapped reply starts with nothing begun: every record counts as not started. */
  lemma MapReposAllNotStarted(items: seq<Repo>, lang: string)
    ensures CountStatus(MapRepos(items, lang), NotStarted) == |items|
    ensures CountStatus(MapRepos(items, lang), Completed) == 0
  {
    var ts := MapRepos(items, lang);
    forall i | 0 <= i < |ts| ensures StatusIs(NotStarted)(ts[i]) && !StatusIs(Completed)(ts[i]) {
      assert ts[i].status == NotStarted;
    }
    FilterKeepsAll(ts, StatusIs(NotStarted));
    FilterKeepsNone(ts, StatusIs(Completed));
  }

  /** Repositories with distinct non-zero ids give records with distinct ids. */
  lemma MapReposUniqueIds(items: seq<Repo>, lang: string)
    requires forall i :: 0 <= i < |items| ==> items[i].id != 0
    requires forall i, j :: 0 <= i < j < |items| ==> items[i].id != items[j].id
    ensures UniqueIds(MapRepos(items, lang))
  {
  }

  /** Without ids the records are numbered 1, 2, … in reply order. */
  lemma MapReposPositionIds(items: seq<Repo>, lang: string)
    requires forall i :: 0 <= i < |items| ==> items[i].id == 0
    ensures forall i :: 0 <= i < |items| ==> MapRepos(items, lang)[i].id == i + 1
    ensures UniqueIds(MapRepos(items, lang))
  {
  }

  /** Why a load fails; each kind carries what its message mentions. */
  datatype ApiError =
    | RateLimited
    | ValidationFailed(language: string)
    | HttpStatus(status: int)
    | NoRepositories(language: string)
    | Transport(message: string)

  /** The text of the `Error` the service throws. */
  function ErrorMessage(e: ApiError): (msg: string)
    ensures e.Transport? ==> msg == e.message
    ensures e.ValidationFailed? ==> |e.language| <= |msg| && msg[|msg| - |e.language|..] == e.language
    ensures e.HttpStatus? ==> Text.StartsWith(msg, "API ошибка: ")
    ensures e.NoRepositories? ==> Text.Includes(msg, e.language)
  {
    match e
    case RateLimited => "⏱️ Rate limit достигнут (60 запросов/час). Попробуйте позже"
    case ValidationFailed(lang) => "❌ Ошибка валидации (422). Проверьте синтаксис запроса. Язык: " + lang
    case HttpStatus(status) => "API ошибка: " + Text.IntToString(status)
    case NoRepositories(lang) =>
      var prefix := "Репозитории с языком \"";
      var msg := prefix + lang + "\" не найдены";
      assert Text.OccursAt(msg, lang, |prefix|);
      Text.IncludesIffOccurs(msg, lang);
      msg
    case Transport(message) => message
  }

  /** `response.ok`: a status in the 2xx range. */
  predicate IsOk(status: int) { 200 <= status <= 299 }

  /** The error for a reply that is not OK: 403 is the rate limit, 422 a validation failure, anything else generic. */
  function ErrorFor(status: int, lang: string): (e: ApiError)
    requires !IsOk(status)
    ensures status == 403 <==> e.RateLimited?
    ensures status == 422 <==> e.ValidationFailed?
    ensures e.ValidationFailed? ==> e.language == lang
    ensures e.HttpStatus? ==> e.status == status
    ensures !e.NoRepositories? && !e.Transport?
  {
    if status == 403 then RateLimited
    else if status == 422 then ValidationFailed(lang)
    else HttpStatus(status)
  }

  /** What the search endpoint answered: its status and its `items`, if any. */
  datatype Response = Response(status: int, items: Option<seq<Repo>>)

  /**
   * `loadTechnologiesFromAPI(query)`, given the reply to its request or the
   * message of the failure that prevented one.
   */
  function LoadTechnologies(query: string, reply: Result<Response, string>): (r: Result<seq<Technology>, ApiError>)
    ensures reply.Err? ==> r == Err(Transport(reply.error))
    ensures reply.Ok? && !IsOk(reply.value.status) ==> r.Err? && r.error == ErrorFor(reply.value.status, NormalizeLanguage(query))
    ensures reply.Ok? && IsOk(reply.value.status) && (reply.value.items.None? || reply.value.items.value == []) ==>
      r == Err(NoRepositories(NormalizeLanguage(query)))
    ensures r.Ok? <==> reply.Ok? && IsOk(reply.value.status) && reply.value.items.Some? && reply.value.items.value != []
    ensures r.Ok? ==> r.value != [] && r.value == MapRepos(reply.value.items.value, NormalizeLanguage(query))
  {
    var lang := NormalizeLanguage(query);
    match reply
    case Err(message) => Err(Transport(message))
    case Ok(response) =>
      if !IsOk(response.status) then Err(ErrorFor(response.status, lang))
      else if response.items.None? || response.items.value == [] then Err(NoRepositories(lang))
      else Ok(MapRepos(response.items.value, lang))
  }

  /** Every record a successful load returns is a fresh, not-started GitHub record of an allowed language's category. */
  lemma LoadedRecordsAreFresh(query: string, reply: Result<Response, string>)
    requires LoadTechnologies(query, reply).Ok?
    ensures var ts := LoadTechnologies(query, reply).value;
      forall i :: 0 <= i < |ts| ==>
        ts[i].status == NotStarted && ts[i].notes == "" && ts[i].source == Some(Github)
        && ts[i].category.Some? && ts[i].category.value != "other"
  {
    CategoryOfNormalized(query);
  }

  /** The links listed for the four technologies the table knows. */
  const ReactResources: seq<Resource> := [
    Resource("documentation", "React Official Docs", "Официальная документация React", "https://react.dev"),
    Resource("course", "React Course - Scrimba", "Интерактивный курс React", "https://scrimba.com/learn/learnreact")]
  const JavaScriptResources: seq<Resource> := [
    Resource("documentation", "MDN Web Docs", "Полная документация JavaScript", "https://developer.mozilla.org/en-US/docs/Web/JavaScript"),
    Resource("book", "Eloquent JavaScript", "Отличная книга по JavaScript", "https://eloquentjavascript.net/")]
  const TypeScriptResources: seq<Resource> := [
    Resource("documentation", "TypeScript Official Docs", "Официальная документация TypeScript", "https://www.typescriptlang.org/docs/")]
  const PythonResources: seq<Resource> := [
    Resource("documentation", "Python Official Docs", "Официальная документация Python", "https://docs.python.org/")]

  /** `getPopularResources(tech)`: the table entry for the lower-cased name, or nothing. */
  function PopularResources(tech: string): (rs: seq<Resource>)
    ensures rs != [] <==> Text.ToLower(tech) in ["react", "javascript", "typescript", "python"]
    ensures Text.ToLower(tech) == "react" ==> rs == ReactResources
    ensures Text.ToLower(tech) == "javascript" ==> rs == JavaScriptResources
    ensures Text.ToLower(tech) == "typescript" ==> rs == TypeScriptResources
    ensures Text.ToLower(tech) == "python" ==> rs == PythonResources
  {
    match Text.ToLower(tech)
    case "react" => ReactResources
    case "javascript" => JavaScriptResources
    case "typescript" => TypeScriptResources
    case "python" => PythonResources
    case _ => []
  }

  /** The lookup ignores case: a name and its lower-case form list the same links. */
  lemma PopularResourcesIgnoresCase(tech: string)
    ensures PopularResources(tech) == PopularResources(Text.ToLower(tech))
  {
    Text.ToLowerIdempotent(tech);
  }
}
