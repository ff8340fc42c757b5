/**
 * The cosmetic progress ticker of `handleAnalysis` (App.tsx:434-442): an
 * interval callback that advances `stepIndex` and shows the matching label
 * of INITIAL_ANALYSIS_STEPS, and clears itself once the labels run out.
 * Real time is not modelled: one callback firing is one `Tick`.
 */
module StepTicker {
  import opened Constants

  /** The interval's counter and whether the interval is still live. */
  datatype Ticker = Ticker(index: nat, running: bool)

  /** The interval as it is started: `stepIndex = 0`, live. */
  const Started: Ticker := Ticker(0, true)

  /** One firing of the interval callback; a cleared interval no longer fires. */
  function Tick(t: Ticker): (r: Ticker)
    ensures t.index <= r.index <= t.index + 1
    ensures r.running ==> r.index < |InitialAnalysisSteps|
    ensures !t.running ==> r == t
    ensures t.running && t.index + 1 < |InitialAnalysisSteps| ==> r == Ticker(t.index + 1, true)
    ensures t.running && t.index + 1 >= |InitialAnalysisSteps| ==> r == Ticker(t.index + 1, false)
  {
    if !t.running then t
    else
      var next := t.index + 1;
      if next < |InitialAnalysisSteps| then Ticker(next, true) else Ticker(next, false)
  }

  /** The label on screen: the last one the callback set. */
  function Label(t: Ticker): (r: string)
    ensures r in InitialAnalysisSteps
  {
    if t.index < |InitialAnalysisSteps| then InitialAnalysisSteps[t.index]
    else InitialAnalysisSteps[|InitialAnalysisSteps| - 1]
  }

  /** The ticker after `k` firings of a freshly started interval. */
  function After(k: nat): (t: Ticker)
  {
    if k == 0 then Started else Tick(After(k - 1))
  }

  /**
   * After `k` firings the counter is `k`, capped at the number of labels,
   * and the interval is live exactly while `k` is below that number.
   */
  lemma {:induction false} AfterFirings(k: nat)
    ensures After(k).index == if k < |InitialAnalysisSteps| then k else |InitialAnalysisSteps|
    ensures After(k).running == (k < |InitialAnalysisSteps|)
  {
    if k > 0 {
      AfterFirings(k - 1);
    }
  }

  /**
   * The counter never goes back and never passes the number of labels; once
   * the interval has cleared itself nothing changes any more.
   */
  lemma {:induction false} AfterMonotone(j: nat, k: nat)
    requires j <= k
    ensures After(j).index <= After(k).index <= |InitialAnalysisSteps|
    ensures !After(j).running ==> After(k) == After(j)
  {
    AfterFirings(j);
    AfterFirings(k);
  }
}
