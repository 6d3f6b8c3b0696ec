/**
 * The progress banner (src/components/ProgressHeader.jsx): the rounded share
 * of completed topics, the encouragement chosen by it, and the footer line.
 * The banner divides without a guard: for a total of 0 the share is not a
 * number (`NaN` or `Infinity`), modelled as `None`.
 */
module ProgressHeader {

  import opened Sequences
  import opened Catalog

  /** `Math.round(completed / total * 100)`; `None` when the total is 0. */
  function Percentage(completed: nat, total: nat): (p: Option<nat>)
    ensures p.Some? <==> total > 0
    ensures p.Some? ==> 2 * total * p.value <= 200 * completed + total < 2 * total * (p.value + 1)
    ensures p.Some? && completed <= total ==> p.value <= 100
  {
    if total == 0 then None else Some(RoundedPercent(completed, total))
  }

  /** The five encouragements. */
  datatype Motivation = Start | GoodStart | Halfway | AlmostThere | AllDone

  function MotivationText(m: Motivation): (text: string)
    ensures |text| > 0
  {
    match m
    case Start => "🚀 Начните прямо сейчас!"
    case GoodStart => "💪 Хороший старт!"
    case Halfway => "📈 Вы на середине пути!"
    case AlmostThere => "🔥 Уже близко!"
    case AllDone => "🎉 Вы завершили все!"
  }

  /** Each encouragement has its own text. */
  lemma MotivationTextsDistinct(m: Motivation, n: Motivation)
    requires m != n
    ensures MotivationText(m) != MotivationText(n)
  {
  }

  /**
   * The threshold chain: 0, below 33, below 66, below 100, and the rest. A
   * share that is not a number fails every comparison and lands in the last.
   */
  function MotivationFor(p: Option<nat>): (m: Motivation)
    ensures m == Start <==> p == Some(0)
    ensures m == GoodStart <==> p.Some? && 1 <= p.value < 33
    ensures m == Halfway <==> p.Some? && 33 <= p.value < 66
    ensures m == AlmostThere <==> p.Some? && 66 <= p.value < 100
    ensures m == AllDone <==> p.None? || p.value >= 100
  {
    if p == Some(0) then Start
    else if p.Some? && p.value < 33 then GoodStart
    else if p.Some? && p.value < 66 then Halfway
    else if p.Some? && p.value < 100 then AlmostThere
    else AllDone
  }

  /** The start message appears exactly while less than half a percent is completed. */
  lemma StartIffBelowHalfPercent(completed: nat, total: nat)
    requires total > 0
    ensures MotivationFor(Percentage(completed, total)) == Start <==> 200 * completed < total
  {
    RoundedPercentZero(completed, total);
  }

  /**
   * The done message appears exactly when the share rounds to 100, which
   * happens already at 99.5 percent: with 199 of 200 topics completed it shows
   * while the footer still counts one topic left.
   */
  lemma AllDoneIffRoundsToFull(completed: nat, total: nat)
    requires total > 0
    ensures MotivationFor(Percentage(completed, total)) == AllDone <==> 200 * completed >= 199 * total
  {
    RoundedPercentFull(completed, total);
  }

  lemma AllDoneBeforeAllCompleted()
    ensures MotivationFor(Percentage(199, 200)) == AllDone
    ensures Footer(199, 200) == TopicsLeft(1)
  {
    AllDoneIffRoundsToFull(199, 200);
  }

  /** The footer: congratulations when everything is completed, else the number of topics left. */
  datatype FooterLine = Congratulations | TopicsLeft(count: int)

  function Footer(completed: nat, total: nat): (f: FooterLine)
    ensures f == Congratulations <==> completed == total
    ensures f.TopicsLeft? ==> f.count == total - completed && f.count != 0
  {
    if completed == total then Congratulations else TopicsLeft(total - completed)
  }

  /** An empty roadmap is greeted as finished: both the message and the footer say so. */
  lemma EmptyRoadmapLooksFinished()
    ensures MotivationFor(Percentage(0, 0)) == AllDone
    ensures Footer(0, 0) == Congratulations
  {
  }

  /** For a catalog with known statuses, the footer's count is the not-started plus in-progress topics. */
  lemma FooterCountsUnfinished(ts: seq<Technology>)
    requires AllKnown(ts)
    ensures var completed := CountStatus(ts, Completed);
      Footer(completed, |ts|) == Congratulations
      || Footer(completed, |ts|).count == CountStatus(ts, NotStarted) + CountStatus(ts, InProgress)
  {
    StatusCountsCover(ts);
  }
}
