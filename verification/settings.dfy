/**
 * The settings page (src/pages/Settings.js): the JSON and comma-separated
 * exports of the local catalog, and the import, clear and reset actions that
 * write the browser store and set the page's message.
 *
 * The page writes under the key `technologies`, while the catalog hook reads
 * `techTrackerData` (src/hooks/useTechnologies.js:77). The page is therefore
 * modelled with its key as a parameter: `AsWrittenKey` is what the page uses,
 * and `UseTechnologies.StorageKey` is the key that makes its actions reach
 * the catalog.
 */
module Settings {

  import opened Sequences
  import opened Catalog
  import opened BrowserStorage
  import Text
  import UseTechnologies

  // ---------------------------------------------------------------- JSON export

  const AppVersion := "1.0.0"

  /** The exported object: time of export, application version, and the catalog as it is. */
  datatype ExportDocument = ExportDocument(exportedAt: string, appVersion: string, technologies: seq<Technology>)

  function MakeExport(exportedAt: string, ts: seq<Technology>): (doc: ExportDocument)
    ensures doc.exportedAt == exportedAt && doc.appVersion == AppVersion && doc.technologies == ts
  {
    ExportDocument(exportedAt, AppVersion, ts)
  }

  /**
   * `JSON.stringify(data, null, 2)` read back by `JSON.parse`: an object with
   * the document's three members by name.
   */
  function ExportJson(doc: ExportDocument): (members: map<string, JsonMember>)
    ensures members.Keys == {"exportedAt", "appVersion", "technologies"}
    ensures members["exportedAt"] == JsonText(doc.exportedAt) && members["appVersion"] == JsonText(doc.appVersion)
    ensures members["technologies"] == JsonRecords(doc.technologies)
  {
    map["exportedAt" := JsonText(doc.exportedAt), "appVersion" := JsonText(doc.appVersion),
        "technologies" := JsonRecords(doc.technologies)]
  }

  /** The file a JSON export writes passes the import's shape check and brings back the same list. */
  lemma ExportImportRoundTrip(exportedAt: string, ts: seq<Technology>)
    ensures ImportedList(Parsed(ExportJson(MakeExport(exportedAt, ts)))) == Some(ts)
  {
  }

  // ---------------------------------------------------------------- CSV export

  const CsvColumns: seq<string> := ["ID", "Название", "Описание", "Статус", "Заметки"]

  /** `headers.join(',')`. */
  function CsvHeader(): string {
    Text.Join(",", CsvColumns)
  }

  /** The header line is exactly the five column names separated by commas. */
  lemma CsvHeaderText()
    ensures CsvHeader() == "ID,Название,Описание,Статус,Заметки"
  {
    HeaderTail();
    assert CsvColumns[1..] == ["Название", "Описание", "Статус", "Заметки"];
  }

  lemma HeaderTail()
    ensures Text.Join(",", ["Название", "Описание", "Статус", "Заметки"]) == "Название,Описание,Статус,Заметки"
  {
    HeaderLastTwo();
    assert ["Название", "Описание", "Статус", "Заметки"][1..] == ["Описание", "Статус", "Заметки"];
    assert ["Описание", "Статус", "Заметки"][1..] == ["Статус", "Заметки"];
  }

  lemma HeaderLastTwo()
    ensures Text.Join(",", ["Статус", "Заметки"]) == "Статус,Заметки"
  {
    assert ["Статус", "Заметки"][1..] == ["Заметки"];
  }

  /**
   * The five cells of a record: the id, the title and description in quotes
   * as they are, the raw status, and the notes in quotes with every quote
   * doubled.
   */
  function CsvFields(t: Technology): (fields: seq<string>)
    ensures |fields| == |CsvColumns|
    ensures fields[0] == Text.IntToString(t.id) && fields[3] == StatusName(t.status)
    ensures fields[1] == Text.Quoted(t.title) && fields[2] == Text.Quoted(t.description)
    ensures fields[4] == Text.Quoted(Text.DoubleQuotes(t.notes))
  {
    [Text.IntToString(t.id), Text.Quoted(t.title), Text.Quoted(t.description), StatusName(t.status),
     Text.Quoted(Text.DoubleQuotes(t.notes))]
  }

  /**
   * `row.join(',')`: the record's line starts with its id and a comma, and
   * when no cell holds a comma, splitting the line at its commas gives back
   * the five cells in order.
   */
  function CsvRow(t: Technology): (row: string)
    ensures Text.StartsWith(row, Text.IntToString(t.id) + ",")
    ensures (forall k :: 0 <= k < |CsvFields(t)| ==> ',' !in CsvFields(t)[k]) ==> Text.Split(',', row) == CsvFields(t)
  {
    var fields := CsvFields(t);
    assert fields[1..][0] == fields[1];
    Text.SplitJoin(',', fields);
    Text.Join(",", fields)
  }

  function CsvRows(ts: seq<Technology>): (rows: seq<string>)
    ensures |rows| == |ts| && forall i :: 0 <= i < |ts| ==> rows[i] == CsvRow(ts[i])
  {
    seq(|ts|, i requires 0 <= i < |ts| => CsvRow(ts[i]))
  }

  /** The header line, then one line per record, joined by line breaks. */
  function CsvContent(ts: seq<Technology>): (content: string)
    ensures ts == [] ==> content == CsvHeader()
    ensures ts != [] ==> Text.StartsWith(content, CsvHeader() + "\n")
    ensures (forall i :: 0 <= i < |ts| ==> '\n' !in CsvRow(ts[i])) ==>
      Text.Split('\n', content) == [CsvHeader()] + CsvRows(ts)
  {
    var lines := [CsvHeader()] + CsvRows(ts);
    assert lines[1..] == CsvRows(ts);
    CsvHeaderOneLine();
    Text.SplitJoin('\n', lines);
    Text.Join("\n", lines)
  }

  lemma CsvHeaderOneLine()
    ensures '\n' !in CsvHeader()
  {
    CsvHeaderText();
  }

  /** The notes cell reads back as the notes, whatever quotes they contain. */
  lemma NotesCellRoundTrip(t: Technology)
    ensures Text.ReadQuotedCell(CsvFields(t)[4]) == Some(t.notes)
  {
    Text.QuotedDoubledRoundTrip(t.notes);
  }

  /** A title with a quote in it yields a cell that does not read back at all. */
  lemma TitleQuoteBreaksCell(t: Technology)
    requires t.title == "a\"b"
    ensures Text.ReadQuotedCell(CsvFields(t)[1]) == None
  {
    assert CsvFields(t)[1][1..|CsvFields(t)[1]| - 1] == "a\"b";
    assert "a\"b"[1..] == "\"b";
  }

  /** A record with no line break in its texts gives a row with no line break. */
  lemma CsvRowOneLine(t: Technology)
    requires '\n' !in t.title && '\n' !in t.description && '\n' !in t.notes && '\n' !in StatusName(t.status)
    ensures '\n' !in CsvRow(t)
  {
    Text.DoubleQuotesAvoids('\n', t.notes);
    Text.JoinAvoids('\n', ",", CsvFields(t));
  }

  /** With no line break inside any record, the export holds one line break per record. */
  lemma CsvLineCount(ts: seq<Technology>)
    requires forall i :: 0 <= i < |ts| ==>
      '\n' !in ts[i].title && '\n' !in ts[i].description && '\n' !in ts[i].notes && '\n' !in StatusName(ts[i].status)
    ensures multiset(CsvContent(ts))['\n'] == |ts|
  {
    var lines := [CsvHeader()] + CsvRows(ts);
    forall k | 0 <= k < |lines| ensures '\n' !in lines[k] {
      if k > 0 {
        CsvRowOneLine(ts[k - 1]);
      } else {
        CsvHeaderText();
      }
    }
    Text.JoinSeparatorCount('\n', lines);
    assert CsvContent(ts) == Text.Join("\n", lines);
  }

  /** With no comma in a record's texts, splitting its line at the commas gives its five cells back. */
  lemma CsvRowReadsBack(t: Technology)
    requires ',' !in t.title && ',' !in t.description && ',' !in t.notes && ',' !in StatusName(t.status)
    ensures Text.Split(',', CsvRow(t)) == CsvFields(t)
  {
    Text.DoubleQuotesAvoids(',', t.notes);
  }

  /** With no line break in any record, splitting the file at line breaks gives the header and then each record's line. */
  lemma CsvContentReadsBack(ts: seq<Technology>)
    requires forall i :: 0 <= i < |ts| ==>
      '\n' !in ts[i].title && '\n' !in ts[i].description && '\n' !in ts[i].notes && '\n' !in StatusName(ts[i].status)
    ensures Text.Split('\n', CsvContent(ts)) == [CsvHeader()] + CsvRows(ts)
  {
    forall i | 0 <= i < |ts| ensures '\n' !in CsvRow(ts[i]) {
      CsvRowOneLine(ts[i]);
    }
  }

  /** A row whose texts contain no comma has exactly the four separating commas. */
  lemma CsvRowFiveFields(t: Technology)
    requires ',' !in t.title && ',' !in t.description && ',' !in t.notes && ',' !in StatusName(t.status)
    ensures multiset(CsvRow(t))[','] == 4
  {
    Text.DoubleQuotesAvoids(',', t.notes);
    Text.JoinSeparatorCount(',', CsvFields(t));
  }

  /** The quote doubling of the notes cell applied to every quoted cell. */
  function EscapedCsvFields(t: Technology): (fields: seq<string>)
    ensures |fields| == |CsvColumns|
    ensures fields[0] == CsvFields(t)[0] && fields[3] == CsvFields(t)[3] && fields[4] == CsvFields(t)[4]
  {
    [Text.IntToString(t.id), Text.Quoted(Text.DoubleQuotes(t.title)), Text.Quoted(Text.DoubleQuotes(t.description)),
     StatusName(t.status), Text.Quoted(Text.DoubleQuotes(t.notes))]
  }

  /** With every quoted cell escaped, title, description and notes all read back. */
  lemma EscapedCellsRoundTrip(t: Technology)
    ensures Text.ReadQuotedCell(EscapedCsvFields(t)[1]) == Some(t.title)
    ensures Text.ReadQuotedCell(EscapedCsvFields(t)[2]) == Some(t.description)
    ensures Text.ReadQuotedCell(EscapedCsvFields(t)[4]) == Some(t.notes)
  {
    Text.QuotedDoubledRoundTrip(t.title);
    Text.QuotedDoubledRoundTrip(t.description);
    Text.QuotedDoubledRoundTrip(t.notes);
  }

  /** What the export button produces for the chosen format. */
  datatype Download = JsonFile(document: ExportDocument) | CsvFile(text: string)

  function ExportFor(format: string, exportedAt: string, ts: seq<Technology>): (d: Option<Download>)
    ensures format == "json" ==> d == Some(JsonFile(MakeExport(exportedAt, ts)))
    ensures format == "csv" ==> d == Some(CsvFile(CsvContent(ts)))
    ensures d.None? <==> format != "json" && format != "csv"
  {
    if format == "json" then Some(JsonFile(MakeExport(exportedAt, ts)))
    else if format == "csv" then Some(CsvFile(CsvContent(ts)))
    else None
  }

  // ---------------------------------------------------------------- defaults

  /** The three records a reset restores. */
  function DefaultTechs(): (ts: seq<Technology>)
    ensures |ts| == 3 && UniqueIds(ts)
    ensures forall i :: 0 <= i < |ts| ==> ts[i].id == i + 1 && ts[i].status == NotStarted && ts[i].notes == ""
    ensures ts[0].category == Some("frontend") && ts[1].category == Some("frontend") && ts[2].category == Some("backend")
  {
    [ Seed(1, "React Hooks", "Глубокое изучение React Hooks", "frontend"),
      Seed(2, "Redux", "Управление состоянием приложения", "frontend"),
      Seed(3, "REST API", "Создание и потребление REST API", "backend") ]
  }

  // ---------------------------------------------------------------- store effects

  /** The key the page writes and removes. */
  const AsWrittenKey := "technologies"

  const ImportedMessage := "✅ Данные успешно импортированы! Обновите страницу"
  const BadFormatMessage := "❌ Неверный формат файла"
  const ReadErrorMessage := "❌ Ошибка при чтении файла"
  const ClearedMessage := "✅ Все данные удалены"
  const RestoredMessage := "✅ Данные восстановлены"

  /** The store after importing `file` under `key`: written only when the shape check passes. */
  function StoreAfterImport(storage: Storage, key: string, file: ImportedFile): (s: Storage)
    ensures ImportedList(file).Some? ==> s == storage[key := Saved(ImportedList(file).value)]
    ensures ImportedList(file).None? ==> s == storage
  {
    match ImportedList(file)
    case Some(ts) => storage[key := Saved(ts)]
    case None => storage
  }

  /** The page as it is written: an import never reaches what the catalog hook loads. */
  lemma ImportMissesCatalog(storage: Storage, file: ImportedFile)
    ensures UseTechnologies.LoadCatalog(StoreAfterImport(storage, AsWrittenKey, file))
         == UseTechnologies.LoadCatalog(storage)
  {
  }

  /** The same is true of reset and clear. */
  lemma ResetAndClearMissCatalog(storage: Storage)
    ensures UseTechnologies.LoadCatalog(storage[AsWrittenKey := Saved(DefaultTechs())]) == UseTechnologies.LoadCatalog(storage)
    ensures UseTechnologies.LoadCatalog(storage - {AsWrittenKey}) == UseTechnologies.LoadCatalog(storage)
  {
    ReadIgnoresOtherKeys(storage, UseTechnologies.StorageKey, AsWrittenKey, Saved(DefaultTechs()),
                         UseTechnologies.InitialTechnologies());
  }

  /** Under the hook's own key, an accepted import is exactly what the catalog loads next. */
  lemma ImportReachesCatalog(storage: Storage, file: ImportedFile)
    requires ImportedList(file).Some?
    ensures UseTechnologies.LoadCatalog(StoreAfterImport(storage, UseTechnologies.StorageKey, file))
         == ImportedList(file).value
  {
  }

  /** Under the hook's own key, a reset loads the defaults and a clear loads the eight initial topics. */
  lemma ResetAndClearReachCatalog(storage: Storage)
    ensures UseTechnologies.LoadCatalog(storage[UseTechnologies.StorageKey := Saved(DefaultTechs())]) == DefaultTechs()
    ensures UseTechnologies.LoadCatalog(storage - {UseTechnologies.StorageKey}) == UseTechnologies.InitialTechnologies()
  {
  }

  /** The page's state: the browser store it writes and the message it shows. */
  class SettingsPage {
    const key: string
    var storage: Storage
    var message: string

    constructor (key: string, storage: Storage)
      ensures this.key == key && this.storage == storage && message == ""
    {
      this.key := key;
      this.storage := storage;
      message := "";
    }

    /** `handleExport`: the download for the format, and the success message naming it. */
    method HandleExport(format: string, exportedAt: string, ts: seq<Technology>) returns (download: Option<Download>)
      modifies this
      ensures download == ExportFor(format, exportedAt, ts)
      ensures message == "✅ Данные успешно экспортированы в " + Text.ToUpper(format)
      ensures storage == old(storage)
    {
      download := ExportFor(format, exportedAt, ts);
      message := "✅ Данные успешно экспортированы в " + Text.ToUpper(format);
    }

    /**
     * `handleImport`, given the chosen file (`None` when none was chosen): a
     * document with a `technologies` array is stored under the page's key;
     * anything else leaves the store alone and says why.
     */
    method HandleImport(file: Option<ImportedFile>)
      modifies this
      ensures file.None? ==> storage == old(storage) && message == old(message)
      ensures file.Some? ==> storage == StoreAfterImport(old(storage), key, file.value)
      ensures file.Some? && ImportedList(file.value).Some? ==> message == ImportedMessage
      ensures file.Some? && file.value.Parsed? && ImportedList(file.value).None? ==> message == BadFormatMessage
      ensures file.Some? && file.value.ParseFailed? ==> message == ReadErrorMessage
    {
      if file.Some? {
        match file.value
        case ParseFailed(_) =>
          message := ReadErrorMessage;
        case Parsed(_) =>
          var list := ImportedList(file.value);
          if list.Some? {
            storage := storage[key := Saved(list.value)];
            message := ImportedMessage;
          } else {
            message := BadFormatMessage;
          }
      }
    }

    /** `handleClearAll`: once confirmed, the key is removed. */
    method HandleClearAll(confirmed: bool)
      modifies this
      ensures confirmed ==> storage == old(storage) - {key} && message == ClearedMessage
      ensures !confirmed ==> storage == old(storage) && message == old(message)
    {
      if confirmed {
        storage := storage - {key};
        message := ClearedMessage;
      }
    }

    /** `handleReset`: once confirmed, the three defaults are stored. */
    method HandleReset(confirmed: bool)
      modifies this
      ensures confirmed ==> storage == old(storage)[key := Saved(DefaultTechs())] && message == RestoredMessage
      ensures !confirmed ==> storage == old(storage) && message == old(message)
    {
      if confirmed {
        storage := storage[key := Saved(DefaultTechs())];
        message := RestoredMessage;
      }
    }
  }
}
