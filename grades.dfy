/** The grades page: the overall average, the good / average / at-risk
    counts, the colour tier of an average, and the tab that opens first.
    Averages are exact reals; the page's floating-point rounding is not
    modelled. */
module Grades {
  import opened Wrappers
  import opened Types
  import Seqs

  /** `reduce((total, s) => total + s.average, 0)` */
  function Sum(s: seq<SubjectGrades>): real {
    if s == [] then 0.0 else s[0].average + Sum(s[1..])
  }

  /** `calculateOverallAverage`: 0 without data or for an empty list. */
  function OverallAverage(data: Option<seq<SubjectGrades>>): real {
    if data.None? || |data.value| == 0 then 0.0
    else Sum(data.value) / (|data.value| as real)
  }

  lemma {:induction false} SumBounds(s: seq<SubjectGrades>, lo: real, hi: real)
    requires forall i :: 0 <= i < |s| ==> lo <= s[i].average <= hi
    ensures (|s| as real) * lo <= Sum(s) <= (|s| as real) * hi
  {
    if s != [] {
      SumBounds(s[1..], lo, hi);
    }
  }

  /** The overall average lies between the lowest and the highest subject
      average. */
  lemma AverageBounds(grades: seq<SubjectGrades>, lo: real, hi: real)
    requires grades != []
    requires forall i :: 0 <= i < |grades| ==> lo <= grades[i].average <= hi
    ensures lo <= OverallAverage(Some(grades)) <= hi
  {
    var n := |grades| as real;
    SumBounds(grades, lo, hi);
    assert Sum(grades) / n * n == Sum(grades);
  }

  /** The colour of an average: green from 8, orange from 6, red below. */
  datatype Tier = Good | Middle | Risk

  function TierOf(average: real): (t: Tier)
    ensures t == Good <==> average >= 8.0
    ensures t == Middle <==> 6.0 <= average < 8.0
    ensures t == Risk <==> average < 6.0
  {
    if average >= 8.0 then Good
    else if average >= 6.0 then Middle
    else Risk
  }

  function InTier(t: Tier): SubjectGrades -> bool {
    (s: SubjectGrades) => TierOf(s.average) == t
  }

  datatype PerformanceCounts = PerformanceCounts(good: nat, average: nat, risk: nat)

  /** `countSubjectsByPerformance`: the three filters of the page. The
      counts partition the subjects and agree with the colour tiers. */
  function CountByPerformance(data: Option<seq<SubjectGrades>>): (c: PerformanceCounts)
    ensures data.None? ==> c == PerformanceCounts(0, 0, 0)
    ensures data.Some? ==> c.good + c.average + c.risk == |data.value|
    ensures data.Some? ==>
              c.good == Seqs.Count(data.value, InTier(Good)) &&
              c.average == Seqs.Count(data.value, InTier(Middle)) &&
              c.risk == Seqs.Count(data.value, InTier(Risk))
  {
    if data.None? then PerformanceCounts(0, 0, 0)
    else
      var s := data.value;
      var good := (g: SubjectGrades) => g.average >= 8.0;
      var middle := (g: SubjectGrades) => g.average >= 6.0 && g.average < 8.0;
      var risk := (g: SubjectGrades) => g.average < 6.0;
      Seqs.FilterSame(s, good, InTier(Good));
      Seqs.FilterSame(s, middle, InTier(Middle));
      Seqs.FilterSame(s, risk, InTier(Risk));
      Seqs.CountPartition3(s, good, middle, risk);
      PerformanceCounts(Seqs.Count(s, good), Seqs.Count(s, middle), Seqs.Count(s, risk))
  }

  /** JavaScript truthiness of a `string | null`. */
  predicate Truthy(s: Option<string>) {
    s.Some? && s.value != ""
  }

  /** The state the first-subject effect leaves behind. */
  function AfterLoad(data: Option<seq<SubjectGrades>>, active: Option<string>): (r: Option<string>)
    ensures Truthy(active) ==> r == active
    ensures data.None? || data.value == [] ==> r == active
    ensures data.Some? && data.value != [] && !Truthy(active) ==> r == Some(data.value[0].subject)
  {
    if data.Some? && |data.value| > 0 && !Truthy(active) then Some(data.value[0].subject) else active
  }

  /** Re-running the effect after it has fired changes nothing. */
  lemma AfterLoadIdempotent(data: Option<seq<SubjectGrades>>, active: Option<string>)
    ensures AfterLoad(data, AfterLoad(data, active)) == AfterLoad(data, active)
  {
  }

  class GradesPage {
    var activeSubject: Option<string>

    constructor()
      ensures activeSubject == None
    {
      activeSubject := None;
    }

    /** The effect that opens the first subject once data is present. */
    method SelectFirstSubject(data: Option<seq<SubjectGrades>>)
      modifies this
      ensures activeSubject == AfterLoad(data, old(activeSubject))
    {
      if data.Some? && |data.value| > 0 && !Truthy(activeSubject) {
        activeSubject := Some(data.value[0].subject);
      }
    }

    /** The tabs' `onValueChange`. */
    method SetActiveSubject(value: string)
      modifies this
      ensures activeSubject == Some(value)
    {
      activeSubject := Some(value);
    }
  }
}
