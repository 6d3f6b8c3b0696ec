/**
 * The statistics page (src/pages/Statistics.js): the per-category tally built
 * by a reduce that updates its accumulator in place, the three status bars,
 * and the simulated monthly progress with its maximum.
 */
module StatisticsPage {

  import opened Sequences
  import opened Catalog
  import UseTechnologies

  // ---------------------------------------------------------------- categories

  /** One entry of the accumulator: a category and how many records it has so far. */
  datatype CategoryCount = CategoryCount(name: string, count: nat)

  const DefaultCategory := "frontend"

  /** `tech.category || 'frontend'` for every record, in order. */
  function CategoryKeys(ts: seq<Technology>): (keys: seq<string>)
    ensures |keys| == |ts|
    ensures forall i :: 0 <= i < |ts| ==> keys[i] == OrElse(ts[i].category, DefaultCategory)
  {
    seq(|ts|, i requires 0 <= i < |ts| => OrElse(ts[i].category, DefaultCategory))
  }

  function Names(acc: seq<CategoryCount>): (names: seq<string>)
    ensures |names| == |acc| && forall j :: 0 <= j < |acc| ==> names[j] == acc[j].name
  {
    seq(|acc|, j requires 0 <= j < |acc| => acc[j].name)
  }

  function Counts(acc: seq<CategoryCount>): (counts: seq<nat>)
    ensures |counts| == |acc| && forall j :: 0 <= j < |acc| ==> counts[j] == acc[j].count
  {
    seq(|acc|, j requires 0 <= j < |acc| => acc[j].count)
  }

  /** `acc.find(item => item.name === name)`, as the position of the first match. */
  function FindName(acc: seq<CategoryCount>, name: string): (r: Option<nat>)
    ensures r.Some? ==> r.value < |acc| && acc[r.value].name == name
    ensures r.Some? ==> forall l :: 0 <= l < r.value ==> acc[l].name != name
    ensures r.None? ==> forall l :: 0 <= l < |acc| ==> acc[l].name != name
  {
    if acc == [] then None
    else if acc[0].name == name then Some(0)
    else match FindName(acc[1..], name)
      case Some(j) => Some(j + 1)
      case None => None
  }

  /** One step of the reduce: count the record under its existing entry, or open a new entry. */
  function Bump(acc: seq<CategoryCount>, name: string): seq<CategoryCount> {
    match FindName(acc, name)
    case Some(j) => acc[j := acc[j].(count := acc[j].count + 1)]
    case None => acc + [CategoryCount(name, 1)]
  }

  /** The accumulator after reducing over `keys`. */
  function Tally(keys: seq<string>): seq<CategoryCount> {
    if keys == [] then [] else Bump(Tally(keys[..|keys| - 1]), keys[|keys| - 1])
  }

  /** Counting a name already present keeps the names; a new name is appended. */
  lemma BumpNames(acc: seq<CategoryCount>, k: string)
    ensures k in Names(acc) ==> Names(Bump(acc, k)) == Names(acc)
    ensures k !in Names(acc) ==> Names(Bump(acc, k)) == Names(acc) + [k]
  {
  }

  /** Each step of the reduce adds exactly one to the total count. */
  lemma BumpSum(acc: seq<CategoryCount>, k: string)
    ensures Sum(Counts(Bump(acc, k))) == Sum(Counts(acc)) + 1
  {
    match FindName(acc, k)
    case Some(j) =>
      assert Counts(Bump(acc, k)) == Counts(acc)[j := acc[j].count + 1];
      SumUpdate(Counts(acc), j, acc[j].count + 1);
    case None =>
      var c := Counts(Bump(acc, k));
      assert c[..|c| - 1] == Counts(acc);
  }

  /** The tally lists each category once, in order of first appearance. */
  lemma {:induction false} TallyNames(keys: seq<string>)
    ensures Names(Tally(keys)) == Distinct(keys)
  {
    if keys != [] {
      var prefix, k := keys[..|keys| - 1], keys[|keys| - 1];
      TallyNames(prefix);
      BumpNames(Tally(prefix), k);
    }
  }

  /** The counts add up to the number of records. */
  lemma {:induction false} TallySum(keys: seq<string>)
    ensures Sum(Counts(Tally(keys))) == |keys|
  {
    if keys != [] {
      var prefix, k := keys[..|keys| - 1], keys[|keys| - 1];
      TallySum(prefix);
      BumpSum(Tally(prefix), k);
    }
  }

  /** Each entry counts exactly the records filed under its category. */
  lemma {:induction false} TallyCounts(keys: seq<string>)
    ensures forall j :: 0 <= j < |Tally(keys)| ==> Tally(keys)[j].count == multiset(keys)[Tally(keys)[j].name]
  {
    if keys != [] {
      var prefix, k := keys[..|keys| - 1], keys[|keys| - 1];
      assert keys == prefix + [k];
      assert multiset(keys) == multiset(prefix) + multiset{k};
      TallyCounts(prefix);
      TallyNames(prefix);
      var acc := Tally(prefix);
      var acc' := Bump(acc, k);
      match FindName(acc, k)
      case Some(j) =>
        forall l | 0 <= l < |acc'|
          ensures acc'[l].count == multiset(keys)[acc'[l].name]
        {
          if l != j {
            assert Names(acc)[l] != Names(acc)[j];
          }
        }
      case None =>
        assert k !in prefix;
    }
  }

  /**
   * What the tally holds: each category once, in order of first appearance,
   * with the number of records filed under it; the counts add up to the
   * number of records and none is 0.
   */
  lemma TallyMeaning(keys: seq<string>)
    ensures Names(Tally(keys)) == Distinct(keys)
    ensures forall j :: 0 <= j < |Tally(keys)| ==> Tally(keys)[j].count == multiset(keys)[Tally(keys)[j].name] >= 1
    ensures Sum(Counts(Tally(keys))) == |keys|
  {
    TallyNames(keys);
    TallyCounts(keys);
    TallySum(keys);
    forall j | 0 <= j < |Tally(keys)| ensures multiset(keys)[Tally(keys)[j].name] >= 1 {
      assert Tally(keys)[j].name == Names(Tally(keys))[j];
    }
  }

  /**
   * `categoriesData`: the reduce over the records, with the `find` as an inner
   * search loop and the count updated in place.
   */
  method CategoriesData(ts: seq<Technology>) returns (acc: seq<CategoryCount>)
    ensures acc == Tally(CategoryKeys(ts))
    ensures Names(acc) == Distinct(CategoryKeys(ts))
    ensures forall j :: 0 <= j < |acc| ==> acc[j].count == multiset(CategoryKeys(ts))[acc[j].name] >= 1
    ensures Sum(Counts(acc)) == |ts|
  {
    var keys := CategoryKeys(ts);
    acc := [];
    var i := 0;
    while i < |ts|
      invariant 0 <= i <= |ts|
      invariant acc == Tally(keys[..i])
    {
      var category := keys[i];
      var j := 0;
      while j < |acc| && acc[j].name != category
        invariant 0 <= j <= |acc|
        invariant forall l :: 0 <= l < j ==> acc[l].name != category
      {
        j := j + 1;
      }
      assert keys[..i + 1][..i] == keys[..i];
      if j < |acc| {
        acc := acc[j := acc[j].(count := acc[j].count + 1)];
      } else {
        acc := acc + [CategoryCount(category, 1)];
      }
      i := i + 1;
    }
    assert keys[..|ts|] == keys;
    TallyMeaning(keys);
  }

  // ---------------------------------------------------------------- status bars

  /** One bar of the status chart. */
  datatype StatusBar = StatusBar(name: string, count: nat, color: string)

  /** `statusData`: completed, in progress and not started, in that order. */
  function StatusData(ts: seq<Technology>): (bars: seq<StatusBar>)
    ensures |bars| == 3
    ensures bars[0].count == CountStatus(ts, Completed)
    ensures bars[1].count == CountStatus(ts, InProgress)
    ensures bars[2].count == CountStatus(ts, NotStarted)
    ensures AllKnown(ts) ==> bars[0].count + bars[1].count + bars[2].count == |ts|
  {
    var stats := UseTechnologies.GetStatistics(ts);
    [ StatusBar("Завершено", stats.completed, "#4CAF50"),
      StatusBar("В процессе", stats.inProgress, "#2196F3"),
      StatusBar("Не начато", stats.notStarted, "#FF9800") ]
  }

  // ---------------------------------------------------------------- monthly progress

  datatype MonthProgress = MonthProgress(month: string, progress: int)

  /** `progressData`: five fixed months and the current progress as the sixth. */
  function ProgressData(current: int): (ms: seq<MonthProgress>)
    ensures |ms| == 6 && ms[5].progress == current
  {
    [ MonthProgress("Январь", 10), MonthProgress("Февраль", 15), MonthProgress("Март", 20),
      MonthProgress("Апрель", 25), MonthProgress("Май", 30), MonthProgress("Июнь", current) ]
  }

  /** `Math.max(...values)` of a non-empty list. */
  function MaxOf(values: seq<int>): (m: int)
    requires values != []
    ensures m in values
    ensures forall i :: 0 <= i < |values| ==> values[i] <= m
  {
    if |values| == 1 then values[0]
    else
      var rest := MaxOf(values[1..]);
      assert forall i :: 1 <= i < |values| ==> values[i] == values[1..][i - 1];
      if values[0] > rest then values[0] else rest
  }

  /** `progressData.map(d => d.progress)`. */
  function Progresses(ms: seq<MonthProgress>): (values: seq<int>)
    ensures |values| == |ms| && forall i :: 0 <= i < |ms| ==> values[i] == ms[i].progress
  {
    seq(|ms|, i requires 0 <= i < |ms| => ms[i].progress)
  }

  /** `maxProgress`: the highest monthly value. */
  function MaxProgress(ms: seq<MonthProgress>): (m: int)
    requires ms != []
    ensures forall i :: 0 <= i < |ms| ==> ms[i].progress <= m
    ensures exists i :: 0 <= i < |ms| && ms[i].progress == m
  {
    MaxOf(Progresses(ms))
  }

  /** The chart's top is the larger of 30 and the current progress. */
  lemma MaxProgressOfPage(current: int)
    ensures MaxProgress(ProgressData(current)) == if current > 30 then current else 30
  {
    var m := MaxProgress(ProgressData(current));
    assert ProgressData(current)[4].progress == 30;
  }
}
