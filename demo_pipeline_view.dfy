/**
 * The demo board (components/DemoPipelineView.tsx): an active demo is shown in
 * the column of the day it has reached. `today` and `dayOf` stand for
 * `new Date()` and `parseISO`, read as calendar day numbers.
 */
module DemoPipelineView {
  import opened Wrappers
  import opened Types
  import opened Constants
  import opened Seqs

  /** `getDemoDay`: the demo day a lead is on, or None. */
  function DemoDay(l: Lead, today: int, dayOf: string -> Option<int>): (r: Option<DemoStage>)
    ensures r.Some? <==> Present(l.demoStartDate) && dayOf(l.demoStartDate.value).Some? &&
                         today - dayOf(l.demoStartDate.value).value >= 0
    ensures r.Some? ==>
      var dayDiff := today - dayOf(l.demoStartDate.value).value;
      r.value == DemoPipelineStages[if dayDiff < 2 then dayDiff else 2]
  {
    if !Present(l.demoStartDate) then None
    else
      match dayOf(l.demoStartDate.value)
      case None => None
      case Some(start) =>
        var dayDiff := today - start;
        if dayDiff == 0 then Some(Day1)
        else if dayDiff == 1 then Some(Day2)
        else if dayDiff >= 2 then Some(Day3)
        else None
  }

  /** The classification as one function value, so that every column uses the same key. */
  function DemoKey(today: int, dayOf: string -> Option<int>): Lead -> Option<DemoStage>
  {
    l => DemoDay(l, today, dayOf)
  }

  function DemoKeys(): (r: seq<Option<DemoStage>>)
    ensures |r| == |DemoPipelineStages| && forall k :: 0 <= k < |r| ==> r[k] == Some(DemoPipelineStages[k])
  {
    [Some(Day1), Some(Day2), Some(Day3)]
  }

  /** `leads.filter(lead => getDemoDay(lead) === stage)` for each demo day. */
  function DemoColumns(leads: seq<Lead>, today: int, dayOf: string -> Option<int>): seq<seq<Lead>>
  {
    Buckets(leads, DemoKey(today, dayOf), DemoKeys())
  }

  /** The number of leads that are on some demo day. */
  function Classified(leads: seq<Lead>, today: int, dayOf: string -> Option<int>): nat
  {
    if leads == [] then 0
    else (if DemoDay(leads[0], today, dayOf).Some? then 1 else 0) + Classified(leads[1..], today, dayOf)
  }

  /**
   * A column holds exactly the leads on its day. A lead that is on no day is in
   * no column; a lead is in at most one column; the columns together hold every
   * classified lead once.
   */
  lemma DemoColumnsSpec(leads: seq<Lead>, today: int, dayOf: string -> Option<int>)
    ensures |DemoColumns(leads, today, dayOf)| == 3
    ensures forall k, i :: 0 <= k < 3 && 0 <= i < |DemoColumns(leads, today, dayOf)[k]| ==>
      DemoDay(DemoColumns(leads, today, dayOf)[k][i], today, dayOf) == Some(DemoPipelineStages[k])
    ensures forall k, i :: 0 <= k < 3 && 0 <= i < |leads| && DemoDay(leads[i], today, dayOf) == Some(DemoPipelineStages[k]) ==>
      leads[i] in DemoColumns(leads, today, dayOf)[k]
    ensures forall k, l: Lead :: 0 <= k < 3 && DemoDay(l, today, dayOf).None? ==> l !in DemoColumns(leads, today, dayOf)[k]
    ensures forall j, k, l: Lead :: 0 <= j < k < 3 && l in DemoColumns(leads, today, dayOf)[j] ==> l !in DemoColumns(leads, today, dayOf)[k]
    ensures SumLengths(DemoColumns(leads, today, dayOf)) == Classified(leads, today, dayOf)
  {
    var key := DemoKey(today, dayOf);
    var ks := DemoKeys();
    BucketsSum(leads, key, ks);
    DemoKeyCount(leads, today, dayOf);
  }

  lemma {:induction false} DemoKeyCount(leads: seq<Lead>, today: int, dayOf: string -> Option<int>)
    ensures KeyCount(leads, DemoKey(today, dayOf), DemoKeys()) == Classified(leads, today, dayOf)
  {
    if leads != [] {
      DemoKeyCount(leads[1..], today, dayOf);
    }
  }
}
