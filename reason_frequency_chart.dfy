/**
 * The "Top Reasons for Delay / Loss" bar chart
 * (components/charts/ReasonFrequencyChart.tsx): the leads that carry a reason
 * are counted per reason into a record, whose entries are sorted by count,
 * largest first, and cut to the first five.
 */
module ReasonFrequencyChart {
  import opened Types
  import opened Seqs
  import opened Counting

  /** The texts a stored reason can have. */
  const ReasonTexts: set<string> := {"Price", "Timing", "Competition", "No Response", "Other"}

  /** `l => l.reasonLostDelay`: every reason text is non-empty, so it is truthy exactly when present. */
  predicate HasReason(l: Lead)
  {
    l.reasonLostDelay.Some?
  }

  /** The reason of each lead that has one, in the order of the leads: the keys the `reduce` visits. */
  function ReasonNames(leads: seq<Lead>): (r: seq<string>)
    ensures |r| == |Filter(leads, HasReason)|
    ensures forall i :: 0 <= i < |r| ==> r[i] in ReasonTexts
  {
    if leads == [] then []
    else if HasReason(leads[0]) then [ReasonText(leads[0].reasonLostDelay.value)] + ReasonNames(leads[1..])
    else ReasonNames(leads[1..])
  }

  /** How many leads carry the reason whose text is `name`. */
  function ReasonCount(leads: seq<Lead>, name: string): nat
  {
    if leads == [] then 0
    else
      var own := if HasReason(leads[0]) && ReasonText(leads[0].reasonLostDelay.value) == name then 1 else 0;
      own + ReasonCount(leads[1..], name)
  }

  /** Each lead with a reason adds one to its own reason and to no other. */
  lemma {:induction false} ReasonNamesCount(leads: seq<Lead>, name: string)
    ensures multiset(ReasonNames(leads))[name] == ReasonCount(leads, name)
  {
    if leads != [] {
      ReasonNamesCount(leads[1..], name);
    }
  }

  /** The bars: `Object.entries(reasonCounts)` sorted by count, largest first, and sliced to five. */
  function ReasonChart(leads: seq<Lead>): seq<Entry<string>>
  {
    TopFive(Ranking(ReasonNames(leads)))
  }

  /** The component's computation: the `reduce` over the filtered leads, then the sort and the slice. */
  method ReasonFrequencyData(leads: seq<Lead>) returns (data: seq<Entry<string>>)
    ensures data == ReasonChart(leads)
  {
    var reasonCounts := CountByKey(ReasonNames(leads));
    data := TopFive(SortByCountDesc(reasonCounts));
  }

  /**
   * Before the cut: one entry per reason that occurs, each counting exactly
   * the leads with that reason (so at least 1), sorted largest first, and the
   * counts add up to the number of leads with a reason. There are only five
   * reasons, so there are never more than five entries.
   */
  lemma ReasonRankingSpec(leads: seq<Lead>)
    ensures SortedDesc(Ranking(ReasonNames(leads))) && DistinctKeys(Ranking(ReasonNames(leads)))
    ensures forall i :: 0 <= i < |Ranking(ReasonNames(leads))| ==>
      Ranking(ReasonNames(leads))[i].count == ReasonCount(leads, Ranking(ReasonNames(leads))[i].key) &&
      Ranking(ReasonNames(leads))[i].count >= 1 &&
      Ranking(ReasonNames(leads))[i].key in ReasonTexts
    ensures forall j :: 0 <= j < |leads| && HasReason(leads[j]) ==>
      exists i :: 0 <= i < |Ranking(ReasonNames(leads))| &&
        Ranking(ReasonNames(leads))[i].key == ReasonText(leads[j].reasonLostDelay.value)
    ensures SumCounts(Ranking(ReasonNames(leads))) == |Filter(leads, HasReason)|
    ensures |Ranking(ReasonNames(leads))| <= 5
    ensures TiesFirstSeen(Ranking(ReasonNames(leads)), ReasonNames(leads))
  {
    var names := ReasonNames(leads);
    RankingSpec(names);
    ReasonRankingCounts(leads);
    ReasonRankingCovers(leads);
    ReasonRankingBound(leads);
  }

  lemma ReasonRankingCounts(leads: seq<Lead>)
    ensures forall i :: 0 <= i < |Ranking(ReasonNames(leads))| ==>
      Ranking(ReasonNames(leads))[i].count == ReasonCount(leads, Ranking(ReasonNames(leads))[i].key) &&
      Ranking(ReasonNames(leads))[i].key in ReasonTexts
  {
    var names := ReasonNames(leads);
    var r := Ranking(names);
    RankingCounts(names);
    forall i | 0 <= i < |r| ensures r[i].count == ReasonCount(leads, r[i].key) && r[i].key in ReasonTexts {
      ReasonNamesCount(leads, r[i].key);
    }
  }

  lemma ReasonRankingCovers(leads: seq<Lead>)
    ensures forall j :: 0 <= j < |leads| && HasReason(leads[j]) ==>
      exists i :: 0 <= i < |Ranking(ReasonNames(leads))| &&
        Ranking(ReasonNames(leads))[i].key == ReasonText(leads[j].reasonLostDelay.value)
  {
    var names := ReasonNames(leads);
    var r := Ranking(names);
    RankingCovers(names);
    forall j | 0 <= j < |leads| && HasReason(leads[j])
      ensures exists i :: 0 <= i < |r| && r[i].key == ReasonText(leads[j].reasonLostDelay.value)
    {
      var name := ReasonText(leads[j].reasonLostDelay.value);
      ReasonNamesCount(leads, name);
      CountPositive(leads, j);
      assert name in multiset(names);
      var k :| 0 <= k < |names| && names[k] == name;
      var i :| 0 <= i < |r| && r[i].key == names[k];
      assert r[i].key == name;
    }
    assert r == Ranking(ReasonNames(leads));
  }

  lemma ReasonRankingBound(leads: seq<Lead>)
    ensures |Ranking(ReasonNames(leads))| <= 5
  {
    RankingBound(ReasonNames(leads), ReasonTexts);
  }

  /** A lead with a reason makes that reason's count positive. */
  lemma {:induction false} CountPositive(leads: seq<Lead>, j: nat)
    requires j < |leads| && HasReason(leads[j])
    ensures ReasonCount(leads, ReasonText(leads[j].reasonLostDelay.value)) >= 1
  {
    if j > 0 {
      CountPositive(leads[1..], j - 1);
    }
  }

  /**
   * The chart has at most five bars, which are the first of the ranking;
   * since there are only five reasons, the slice in fact keeps the whole ranking.
   */
  lemma ReasonChartSpec(leads: seq<Lead>)
    ensures |ReasonChart(leads)| <= 5
    ensures ReasonChart(leads) <= Ranking(ReasonNames(leads))
    ensures ReasonChart(leads) == Ranking(ReasonNames(leads))
  {
    ReasonRankingSpec(leads);
  }
}
