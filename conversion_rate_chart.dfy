/**
 * The lead conversion funnel (components/charts/ConversionRateChart.tsx): one
 * bar per pipeline stage, in the order of PIPELINE_STAGES, whose height is the
 * number of leads in that stage.
 */
module ConversionRateChart {
  import opened Types
  import opened Constants
  import opened Seqs
  import opened PipelineView

  /** One `ChartData` bar: the stage's text and its number of leads. */
  datatype FunnelEntry = FunnelEntry(name: string, leads: nat)

  /** `stages.map(stage => ({ name: stage, leads: leads.filter(l => l.stage === stage).length }))`. */
  function FunnelOf(leads: seq<Lead>, stages: seq<PipelineStage>): (r: seq<FunnelEntry>)
    ensures |r| == |stages|
  {
    if stages == [] then []
    else [FunnelEntry(StageText(stages[0]), |Bucket(leads, StageOf, stages[0])|)] + FunnelOf(leads, stages[1..])
  }

  function Funnel(leads: seq<Lead>): seq<FunnelEntry>
  {
    FunnelOf(leads, PipelineStages)
  }

  function TotalLeads(f: seq<FunnelEntry>): nat
  {
    if f == [] then 0 else f[0].leads + TotalLeads(f[1..])
  }

  /** Entry `k` of the funnel is stage `k`, with exactly the leads of that stage counted. */
  lemma {:induction false} FunnelOfEntries(leads: seq<Lead>, stages: seq<PipelineStage>)
    ensures forall k :: 0 <= k < |stages| ==>
      FunnelOf(leads, stages)[k] == FunnelEntry(StageText(stages[k]), |Bucket(leads, StageOf, stages[k])|)
  {
    if stages != [] {
      FunnelOfEntries(leads, stages[1..]);
      forall k | 0 < k < |stages|
        ensures FunnelOf(leads, stages)[k] == FunnelOf(leads, stages[1..])[k - 1]
      {
      }
    }
  }

  /** The bars add up to the leads of the board's columns for the same stages. */
  lemma {:induction false} FunnelOfTotal(leads: seq<Lead>, stages: seq<PipelineStage>)
    ensures TotalLeads(FunnelOf(leads, stages)) == SumLengths(Buckets(leads, StageOf, stages))
  {
    if stages != [] {
      FunnelOfTotal(leads, stages[1..]);
      var f := FunnelOf(leads, stages);
      assert f[1..] == FunnelOf(leads, stages[1..]);
      var b := Buckets(leads, StageOf, stages);
      assert b[1..] == Buckets(leads, StageOf, stages[1..]);
    }
  }

  /**
   * The funnel has one bar per stage, in the order of PIPELINE_STAGES; each bar
   * counts exactly the leads of its stage, which is the size of that stage's
   * column on the pipeline board; no bar exceeds the number of leads; and the
   * bars add up to the number of leads, since every lead is in one of the six stages.
   */
  lemma FunnelSpec(leads: seq<Lead>)
    ensures |Funnel(leads)| == |PipelineStages| == 6
    ensures forall k :: 0 <= k < 6 ==> Funnel(leads)[k].name == StageText(PipelineStages[k])
    ensures forall k :: 0 <= k < 6 ==>
      Funnel(leads)[k].leads == |Bucket(leads, StageOf, PipelineStages[k])|
    ensures forall k :: 0 <= k < 6 ==> Funnel(leads)[k].leads == |PipelineColumns(leads)[k]|
    ensures forall k :: 0 <= k < 6 ==> Funnel(leads)[k].leads <= |leads|
    ensures TotalLeads(Funnel(leads)) == |leads|
  {
    FunnelOfEntries(leads, PipelineStages);
    FunnelOfTotal(leads, PipelineStages);
    PipelineColumnsSpec(leads);
  }

  /** With no leads every one of the six bars is zero. */
  lemma FunnelEmpty()
    ensures Funnel([]) == [FunnelEntry("New Lead", 0), FunnelEntry("Contacted", 0), FunnelEntry("Demo Active", 0),
                           FunnelEntry("Closed - Paid", 0), FunnelEntry("Delayed", 0), FunnelEntry("Lost - Refused", 0)]
  {
    FunnelOfEntries([], PipelineStages);
  }
}
