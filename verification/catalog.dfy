/**
 * The technology record, its status, and the catalog operations that the
 * local hook (src/hooks/useTechnologies.js) and the stand-alone page
 * (src/App.js) both perform: a status or notes change for one id, a bulk
 * status change, the status counts, rounded progress, and the two-tier
 * random pick.
 */
module Catalog {

  import opened Sequences
  import Text

  /** A status as stored; any string other than the three known ones is `Unrecognized`. */
  datatype Status = NotStarted | InProgress | Completed | Unrecognized(raw: string)

  predicate IsKnown(s: Status) { !s.Unrecognized? }

  /** The string the source stores for a status. */
  function StatusName(s: Status): string {
    match s
    case NotStarted => "not-started"
    case InProgress => "in-progress"
    case Completed => "completed"
    case Unrecognized(raw) => raw
  }

  datatype Source = Manual | Github

  /** A learning link attached to a technology. */
  datatype Resource = Resource(kind: string, title: string, description: string, url: string)

  /**
   * One catalog entry. Fields the source may leave out of the object are
   * `Option`s; `notes` is always present.
   */
  datatype Technology = Technology(
    id: int,
    title: string,
    description: string,
    status: Status,
    notes: string,
    category: Option<string>,
    language: Option<string>,
    stars: Option<int>,
    forks: Option<int>,
    url: Option<string>,
    owner: Option<string>,
    updatedAt: Option<string>,
    createdAt: Option<string>,
    source: Option<Source>,
    resources: Option<seq<Resource>>)

  /** A hand-written seed entry: only id, title, description, status, notes and category. */
  function Seed(id: int, title: string, description: string, category: string): (t: Technology)
    ensures t.id == id && t.title == title && t.description == description
    ensures t.status == NotStarted && t.notes == "" && t.category == Some(category)
  {
    Technology(id, title, description, NotStarted, "", Some(category),
               None, None, None, None, None, None, None, None, None)
  }

  /** JavaScript truthiness of an optional string field: present and non-empty. */
  predicate Truthy(field: Option<string>) {
    field.Some? && field.value != ""
  }

  /** `field || fallback` for an optional string field. */
  function OrElse(field: Option<string>, fallback: string): (r: string)
    ensures Truthy(field) ==> r == field.value
    ensures !Truthy(field) ==> r == fallback
  {
    if Truthy(field) then field.value else fallback
  }

  predicate UniqueIds(ts: seq<Technology>) {
    forall i, j :: 0 <= i < j < |ts| ==> ts[i].id != ts[j].id
  }

  predicate HasId(ts: seq<Technology>, id: int) {
    exists i :: 0 <= i < |ts| && ts[i].id == id
  }

  predicate AllKnown(ts: seq<Technology>) {
    forall i :: 0 <= i < |ts| ==> IsKnown(ts[i].status)
  }

  // ---------------------------------------------------------------- counts

  function StatusIs(st: Status): Technology -> bool {
    (t: Technology) => t.status == st
  }

  function StatusIsNot(st: Status): Technology -> bool {
    (t: Technology) => t.status != st
  }

  /** `ts.filter(t => t.status === st).length`. */
  function CountStatus(ts: seq<Technology>, st: Status): (n: nat)
    ensures n <= |ts|
  {
    |Filter(ts, StatusIs(st))|
  }

  lemma {:induction false} CountStatusCons(t: Technology, ts: seq<Technology>, st: Status)
    ensures CountStatus([t] + ts, st) == (if t.status == st then 1 else 0) + CountStatus(ts, st)
  {
    assert ([t] + ts)[1..] == ts;
  }

  /**
   * The three known statuses never count more records than there are, and
   * account for every record exactly when every status is known.
   */
  lemma {:induction false} StatusCountsCover(ts: seq<Technology>)
    ensures CountStatus(ts, Completed) + CountStatus(ts, InProgress) + CountStatus(ts, NotStarted) <= |ts|
    ensures CountStatus(ts, Completed) + CountStatus(ts, InProgress) + CountStatus(ts, NotStarted) == |ts|
        <==> AllKnown(ts)
  {
    if ts != [] {
      StatusCountsCover(ts[1..]);
      CountStatusCons(ts[0], ts[1..], Completed);
      CountStatusCons(ts[0], ts[1..], InProgress);
      CountStatusCons(ts[0], ts[1..], NotStarted);
      assert [ts[0]] + ts[1..] == ts;
      if AllKnown(ts[1..]) && IsKnown(ts[0].status) {
        forall i | 0 <= i < |ts| ensures IsKnown(ts[i].status) {
          if i > 0 { assert ts[i] == ts[1..][i - 1]; }
        }
      }
      if AllKnown(ts) {
        forall i | 0 <= i < |ts| - 1 ensures IsKnown(ts[1..][i].status) {
          assert ts[1..][i] == ts[i + 1];
        }
      }
    }
  }

  // ---------------------------------------------------------------- views

  /** The summary both hooks return from `getStatistics`. */
  datatype Statistics = Statistics(total: nat, completed: nat, inProgress: nat, notStarted: nat, progress: nat)

  /** The status filter of the list views: `'all'` or one status. */
  datatype StatusFilter = All | Only(status: Status)

  /**
   * Title or description contains the (already lower-cased) query, compared
   * case-insensitively.
   */
  function MatchesText(lowerQuery: string): (m: Technology -> bool)
    ensures lowerQuery == [] ==> forall t: Technology :: m(t)
  {
    forall t: Technology ensures Text.Includes(Text.ToLower(t.title), []) {
      Text.IncludesEmpty(Text.ToLower(t.title));
    }
    (t: Technology) =>
      Text.Includes(Text.ToLower(t.title), lowerQuery) || Text.Includes(Text.ToLower(t.description), lowerQuery)
  }

  /** As `MatchesText`, or a present language contains the query. */
  function MatchesTextOrLanguage(lowerQuery: string): (m: Technology -> bool)
    ensures forall t :: MatchesText(lowerQuery)(t) ==> m(t)
    ensures forall t: Technology :: !Truthy(t.language) ==> (m(t) <==> MatchesText(lowerQuery)(t))
  {
    (t: Technology) =>
      MatchesText(lowerQuery)(t) || (Truthy(t.language) && Text.Includes(Text.ToLower(t.language.value), lowerQuery))
  }

  /** The empty query matches every record. */
  lemma EmptyQueryMatchesAll(t: Technology)
    ensures MatchesText("")(t) && MatchesTextOrLanguage("")(t)
  {
    Text.IncludesEmpty(Text.ToLower(t.title));
  }

  /** Searching for the empty query filters nothing out. */
  lemma EmptyQueryKeepsAll(ts: seq<Technology>)
    ensures Filter(ts, MatchesText(Text.ToLower(""))) == ts
    ensures Filter(ts, MatchesTextOrLanguage(Text.ToLower(""))) == ts
  {
    assert Text.ToLower("") == "";
    forall i | 0 <= i < |ts| ensures MatchesText("")(ts[i]) && MatchesTextOrLanguage("")(ts[i]) {
      EmptyQueryMatchesAll(ts[i]);
    }
    FilterKeepsAll(ts, MatchesText(""));
    FilterKeepsAll(ts, MatchesTextOrLanguage(""));
  }

  // ---------------------------------------------------------------- progress

  lemma MulMonotone(a: nat, b: nat, c: nat)
    requires b <= c
    ensures a * b <= a * c
  {
  }

  /**
   * `Math.round(part / whole * 100)` in exact arithmetic: the nearest whole
   * percentage, halves rounded up.
   */
  function RoundedPercent(part: nat, whole: nat): (p: nat)
    requires whole > 0
    ensures 2 * whole * p <= 200 * part + whole < 2 * whole * (p + 1)
    ensures part <= whole ==> p <= 100
  {
    var d, n := 2 * whole, 200 * part + whole;
    var p := n / d;
    assert n == d * p + n % d;
    assert d * (p + 1) == d * p + d;
    assert part <= whole ==> p <= 100 by {
      if part <= whole && p > 100 {
        MulMonotone(d, 101, p);
      }
    }
    p
  }

  /** Progress reads 0 exactly when fewer than one record in 200 is done. */
  lemma RoundedPercentZero(part: nat, whole: nat)
    requires whole > 0
    ensures RoundedPercent(part, whole) == 0 <==> 200 * part < whole
  {
    var p := RoundedPercent(part, whole);
    if p >= 1 {
      MulMonotone(2 * whole, 1, p);
    }
  }

  /**
   * Progress reads 100 (or more) exactly when at least 199 records in 200
   * are done: it can show 100 while records remain.
   */
  lemma RoundedPercentFull(part: nat, whole: nat)
    requires whole > 0
    ensures RoundedPercent(part, whole) >= 100 <==> 200 * part >= 199 * whole
  {
    var p := RoundedPercent(part, whole);
    if p >= 100 {
      MulMonotone(2 * whole, 100, p);
    } else {
      MulMonotone(2 * whole, p + 1, 100);
    }
  }

  /** More completed records never lower the progress. */
  lemma RoundedPercentMonotone(a: nat, b: nat, whole: nat)
    requires whole > 0 && a <= b
    ensures RoundedPercent(a, whole) <= RoundedPercent(b, whole)
  {
    var pa, pb := RoundedPercent(a, whole), RoundedPercent(b, whole);
    if pa > pb {
      MulMonotone(2 * whole, pb + 1, pa);
    }
  }

  // ---------------------------------------------------------------- record updates

  /** `ts.map(t => t.id === id ? {...t, status: st} : t)`. */
  function WithStatus(ts: seq<Technology>, id: int, st: Status): (r: seq<Technology>)
    ensures |r| == |ts|
    ensures forall i :: 0 <= i < |ts| ==> r[i].(status := ts[i].status) == ts[i]
    ensures forall i :: 0 <= i < |ts| ==> r[i].status == if ts[i].id == id then st else ts[i].status
  {
    if ts == [] then []
    else [if ts[0].id == id then ts[0].(status := st) else ts[0]] + WithStatus(ts[1..], id, st)
  }

  /** `ts.map(t => t.id === id ? {...t, notes: n} : t)`. */
  function WithNotes(ts: seq<Technology>, id: int, n: string): (r: seq<Technology>)
    ensures |r| == |ts|
    ensures forall i :: 0 <= i < |ts| ==> r[i].(notes := ts[i].notes) == ts[i]
    ensures forall i :: 0 <= i < |ts| ==> r[i].notes == if ts[i].id == id then n else ts[i].notes
  {
    if ts == [] then []
    else [if ts[0].id == id then ts[0].(notes := n) else ts[0]] + WithNotes(ts[1..], id, n)
  }

  /** `ts.map(t => ({...t, status: st}))`. */
  function AllWithStatus(ts: seq<Technology>, st: Status): (r: seq<Technology>)
    ensures |r| == |ts|
    ensures forall i :: 0 <= i < |ts| ==> r[i].(status := ts[i].status) == ts[i]
    ensures forall i :: 0 <= i < |ts| ==> r[i].status == st
  {
    if ts == [] then [] else [ts[0].(status := st)] + AllWithStatus(ts[1..], st)
  }

  /** An update for an id no record carries leaves the catalog as it was. */
  lemma {:induction false} WithStatusAbsent(ts: seq<Technology>, id: int, st: Status)
    requires !HasId(ts, id)
    ensures WithStatus(ts, id, st) == ts
  {
    if ts != [] {
      WithStatusAbsent(ts[1..], id, st);
    }
  }

  /** Status changes never touch ids, so they keep ids unique. */
  lemma StatusChangesKeepIds(ts: seq<Technology>, id: int, st: Status)
    ensures forall i :: 0 <= i < |ts| ==> WithStatus(ts, id, st)[i].id == ts[i].id
    ensures forall i :: 0 <= i < |ts| ==> AllWithStatus(ts, st)[i].id == ts[i].id
    ensures UniqueIds(ts) ==> UniqueIds(WithStatus(ts, id, st)) && UniqueIds(AllWithStatus(ts, st))
  {
    var r, a := WithStatus(ts, id, st), AllWithStatus(ts, st);
    assert forall i :: 0 <= i < |ts| ==> r[i].id == r[i].(status := ts[i].status).id;
    assert forall i :: 0 <= i < |ts| ==> a[i].id == a[i].(status := ts[i].status).id;
  }

  /** Setting a status twice is setting it once. */
  lemma WithStatusIdempotent(ts: seq<Technology>, id: int, st: Status)
    ensures WithStatus(WithStatus(ts, id, st), id, st) == WithStatus(ts, id, st)
  {
  }

  /** Notes edits never touch ids, so they keep ids unique and updates addressable. */
  lemma WithNotesKeepsIds(ts: seq<Technology>, id: int, n: string)
    ensures forall i :: 0 <= i < |ts| ==> WithNotes(ts, id, n)[i].id == ts[i].id
    ensures UniqueIds(ts) ==> UniqueIds(WithNotes(ts, id, n))
  {
    var r := WithNotes(ts, id, n);
    assert forall i :: 0 <= i < |ts| ==> r[i].id == r[i].(notes := ts[i].notes).id;
  }

  lemma {:induction false} WithStatusAppend(a: seq<Technology>, b: seq<Technology>, id: int, st: Status)
    ensures WithStatus(a + b, id, st) == WithStatus(a, id, st) + WithStatus(b, id, st)
  {
    if a == [] {
      assert a + b == b;
    } else {
      assert (a + b)[1..] == a[1..] + b;
      WithStatusAppend(a[1..], b, id, st);
    }
  }

  lemma CountStatusAppend(a: seq<Technology>, b: seq<Technology>, st: Status)
    ensures CountStatus(a + b, st) == CountStatus(a, st) + CountStatus(b, st)
  {
    FilterAppend(a, b, StatusIs(st));
  }

  /** With unique ids, the records around position `k` do not carry `ts[k].id`. */
  lemma UniqueIdsSplit(ts: seq<Technology>, k: nat)
    requires UniqueIds(ts) && k < |ts|
    ensures ts == ts[..k] + [ts[k]] + ts[k + 1..]
    ensures !HasId(ts[..k], ts[k].id) && !HasId(ts[k + 1..], ts[k].id)
  {
    assert ts == ts[..k] + [ts[k]] + ts[k + 1..];
  }

  lemma WithStatusSingle(t: Technology, st: Status)
    ensures WithStatus([t], t.id, st) == [t.(status := st)]
  {
    assert WithStatus([t], t.id, st) == [t.(status := st)] + WithStatus([], t.id, st);
  }

  lemma ModSmall(j: nat, n: nat)
    requires j < n
    ensures j % n == j
  {
  }

  /** With unique ids, a status update by `ts[k].id` changes only position `k`. */
  lemma WithStatusAt(ts: seq<Technology>, k: nat, st: Status)
    requires UniqueIds(ts) && k < |ts|
    ensures WithStatus(ts, ts[k].id, st) == ts[..k] + [ts[k].(status := st)] + ts[k + 1..]
  {
    var id := ts[k].id;
    var pre, here, post := ts[..k], [ts[k]], ts[k + 1..];
    UniqueIdsSplit(ts, k);
    WithStatusAppend(pre + here, post, id, st);
    WithStatusAppend(pre, here, id, st);
    WithStatusAbsent(pre, id, st);
    WithStatusAbsent(post, id, st);
    WithStatusSingle(ts[k], st);
    calc {
      WithStatus(ts, id, st);
      WithStatus(pre + here + post, id, st);
      WithStatus(pre, id, st) + WithStatus(here, id, st) + WithStatus(post, id, st);
      pre + [ts[k].(status := st)] + post;
    }
  }

  /**
   * With unique ids, moving the one record carrying `ts[k].id` to status
   * `to` moves exactly one record between its old count and the count of
   * `to` and leaves every other count alone.
   */
  lemma WithStatusMovesOne(ts: seq<Technology>, k: nat, to: Status, other: Status)
    requires UniqueIds(ts) && k < |ts| && ts[k].status != to
    requires other != to && other != ts[k].status
    ensures CountStatus(WithStatus(ts, ts[k].id, to), to) == CountStatus(ts, to) + 1
    ensures CountStatus(WithStatus(ts, ts[k].id, to), ts[k].status) == CountStatus(ts, ts[k].status) - 1
    ensures CountStatus(WithStatus(ts, ts[k].id, to), other) == CountStatus(ts, other)
  {
    var pre, post := ts[..k], ts[k + 1..];
    var moved := ts[k].(status := to);
    WithStatusAt(ts, k, to);
    UniqueIdsSplit(ts, k);
    forall st: Status
      ensures CountStatus(WithStatus(ts, ts[k].id, to), st)
           == CountStatus(pre, st) + CountStatus([moved], st) + CountStatus(post, st)
      ensures CountStatus(ts, st)
           == CountStatus(pre, st) + CountStatus([ts[k]], st) + CountStatus(post, st)
    {
      CountStatusAppend(pre + [moved], post, st);
      CountStatusAppend(pre, [moved], st);
      CountStatusAppend(pre + [ts[k]], post, st);
      CountStatusAppend(pre, [ts[k]], st);
    }
  }

  /** Marking everything with one status puts every record in that status's count. */
  lemma {:induction false} AllWithStatusCounts(ts: seq<Technology>, st: Status, other: Status)
    requires other != st
    ensures CountStatus(AllWithStatus(ts, st), st) == |ts|
    ensures CountStatus(AllWithStatus(ts, st), other) == 0
  {
    if ts != [] {
      var r := AllWithStatus(ts, st);
      assert [r[0]] + r[1..] == r;
      assert r[1..] == AllWithStatus(ts[1..], st);
      AllWithStatusCounts(ts[1..], st, other);
      CountStatusCons(r[0], r[1..], st);
      CountStatusCons(r[0], r[1..], other);
    }
  }

  // ---------------------------------------------------------------- random pick

  /**
   * The record the random pick sets in progress: one of the not-started
   * records if there is any, else one of the records that are not
   * completed, else none. `Math.floor(Math.random() * n)` is modelled by the
   * caller-supplied `r` taken modulo `n`.
   */
  function RandomPick(ts: seq<Technology>, r: nat): (pick: Option<Technology>)
    ensures pick.Some? ==> pick.value in ts && pick.value.status != Completed
    ensures pick.None? <==> CountStatus(ts, Completed) == |ts|
  {
    var notStarted := Filter(ts, StatusIs(NotStarted));
    var notCompleted := Filter(ts, StatusIsNot(Completed));
    CompletedComplement(ts);
    if |notStarted| > 0 then
      FilterMember(ts, StatusIsNot(Completed), notStarted[0]);
      Some(notStarted[r % |notStarted|])
    else if |notCompleted| > 0 then Some(notCompleted[r % |notCompleted|])
    else None
  }

  /** Every record is either completed or not. */
  lemma {:induction false} CompletedComplement(ts: seq<Technology>)
    ensures |Filter(ts, StatusIsNot(Completed))| + CountStatus(ts, Completed) == |ts|
  {
    if ts != [] {
      CompletedComplement(ts[1..]);
    }
  }

  /** The catalog after the random pick: the picked id set in progress. */
  function AfterRandomPick(ts: seq<Technology>, r: nat): (after: seq<Technology>)
    ensures |after| == |ts| && forall i :: 0 <= i < |ts| ==> after[i].(status := ts[i].status) == ts[i]
    ensures RandomPick(ts, r).None? ==> after == ts
    ensures RandomPick(ts, r).Some? ==> forall i :: 0 <= i < |ts| ==>
      after[i].status == if ts[i].id == RandomPick(ts, r).value.id then InProgress else ts[i].status
  {
    match RandomPick(ts, r)
    case Some(t) => WithStatus(ts, t.id, InProgress)
    case None => ts
  }

  /** The pick prefers not-started records, and every not-started record can be picked. */
  lemma RandomPickPrefersNotStarted(ts: seq<Technology>, k: nat)
    requires k < |ts| && ts[k].status == NotStarted
    ensures forall r: nat :: RandomPick(ts, r).Some? && RandomPick(ts, r).value.status == NotStarted
    ensures exists r: nat :: RandomPick(ts, r) == Some(ts[k])
  {
    var notStarted := Filter(ts, StatusIs(NotStarted));
    FilterMember(ts, StatusIs(NotStarted), ts[k]);
    forall r: nat
      ensures RandomPick(ts, r).Some? && RandomPick(ts, r).value.status == NotStarted
    {
      var i := r % |notStarted|;
      assert RandomPick(ts, r) == Some(notStarted[i]);
      assert StatusIs(NotStarted)(notStarted[i]);
    }
    var j :| 0 <= j < |notStarted| && notStarted[j] == ts[k];
    ModSmall(j, |notStarted|);
    assert RandomPick(ts, j) == Some(ts[k]);
  }

  /**
   * With no not-started record, the pick is some record that is not
   * completed; when every status is known it is one already in progress.
   */
  lemma RandomPickFallback(ts: seq<Technology>, r: nat)
    requires CountStatus(ts, NotStarted) == 0 && CountStatus(ts, Completed) < |ts|
    ensures RandomPick(ts, r).Some?
    ensures AllKnown(ts) ==> RandomPick(ts, r).value.status == InProgress
  {
    var t := RandomPick(ts, r).value;
    if t.status == NotStarted {
      FilterMember(ts, StatusIs(NotStarted), t);
      assert false;
    }
  }

  /**
   * With unique ids, the random pick never changes how many records are
   * completed; when a not-started record exists exactly one of them becomes
   * in progress; and once nothing is not-started and every status is known,
   * it changes nothing at all.
   */
  lemma RandomPickEffect(ts: seq<Technology>, r: nat)
    requires UniqueIds(ts)
    ensures CountStatus(AfterRandomPick(ts, r), Completed) == CountStatus(ts, Completed)
    ensures CountStatus(ts, NotStarted) > 0 ==>
      CountStatus(AfterRandomPick(ts, r), NotStarted) == CountStatus(ts, NotStarted) - 1 &&
      CountStatus(AfterRandomPick(ts, r), InProgress) == CountStatus(ts, InProgress) + 1
    ensures CountStatus(ts, NotStarted) == 0 && AllKnown(ts) ==> AfterRandomPick(ts, r) == ts
  {
    match RandomPick(ts, r)
    case None =>
    case Some(t) =>
      var k :| 0 <= k < |ts| && ts[k] == t;
      if t.status == InProgress {
        WithStatusNoChange(ts, k);
      } else {
        WithStatusMovesOne(ts, k, InProgress, Completed);
        if CountStatus(ts, NotStarted) > 0 {
          RandomPickPrefersNotStarted(ts, FirstNotStarted(ts));
          assert t.status == NotStarted;
        }
      }
      if CountStatus(ts, NotStarted) == 0 && AllKnown(ts) {
        RandomPickFallback(ts, r);
      }
  }

  /** A not-started record's position, when the count says there is one. */
  function FirstNotStarted(ts: seq<Technology>): (k: nat)
    requires CountStatus(ts, NotStarted) > 0
    ensures k < |ts| && ts[k].status == NotStarted
  {
    var x := Filter(ts, StatusIs(NotStarted))[0];
    FirstIndex(ts, x)
  }

  /** Setting the status a uniquely identified record already has changes nothing. */
  lemma WithStatusNoChange(ts: seq<Technology>, k: nat)
    requires UniqueIds(ts) && k < |ts|
    ensures WithStatus(ts, ts[k].id, ts[k].status) == ts
  {
    var r := WithStatus(ts, ts[k].id, ts[k].status);
    forall i | 0 <= i < |ts| ensures r[i] == ts[i] {
      assert r[i] == r[i].(status := ts[i].status);
    }
  }

  // ---------------------------------------------------------------- import shape

  /**
   * The value of a top-level member of a parsed JSON document, as far as an
   * import tells values apart: a string, a number, an array of records, or
   * anything else (`null`, a boolean, an object).
   */
  datatype JsonMember = JsonText(text: string) | JsonNumber(number: int) | JsonRecords(items: seq<Technology>) | JsonOther

  /** A file read for import: text that `JSON.parse` rejects, or a document's top-level members by name. */
  datatype ImportedFile = ParseFailed(message: string) | Parsed(members: map<string, JsonMember>)

  /**
   * `data.technologies && Array.isArray(data.technologies)`: the list an
   * import takes over, present only when the document has an array there.
   */
  function ImportedList(file: ImportedFile): (r: Option<seq<Technology>>)
    ensures r.Some? <==> file.Parsed? && "technologies" in file.members && file.members["technologies"].JsonRecords?
    ensures r.Some? ==> r.value == file.members["technologies"].items
  {
    if file.Parsed? && "technologies" in file.members && file.members["technologies"].JsonRecords?
    then Some(file.members["technologies"].items)
    else None
  }
}
