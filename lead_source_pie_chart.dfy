/**
 * The "Lead Sources" pie chart (components/charts/LeadSourcePieChart.tsx):
 * every lead is counted under its source into a record, whose entries become
 * the slices in insertion order, coloured round-robin from a six-colour palette.
 */
module LeadSourcePieChart {
  import opened Types
  import opened Counting

  /** The slice palette, `COLORS`. */
  const Colors: seq<string> := ["#06B6D4", "#6366F1", "#EC4899", "#F59E0B", "#10B981", "#8B5CF6"]

  /** The source of each lead, in the order of the leads: the keys the `reduce` visits. */
  function Sources(leads: seq<Lead>): (r: seq<string>)
    ensures |r| == |leads|
    ensures forall i :: 0 <= i < |r| ==> r[i] == leads[i].source
  {
    seq(|leads|, i requires 0 <= i < |leads| => leads[i].source)
  }

  /** How many leads have the source `name`. */
  function SourceCount(leads: seq<Lead>, name: string): nat
  {
    if leads == [] then 0 else (if leads[0].source == name then 1 else 0) + SourceCount(leads[1..], name)
  }

  /** Each lead adds one occurrence of its own source to the keys, and none of any other. */
  lemma {:induction false} SourcesCount(leads: seq<Lead>, name: string)
    ensures multiset(Sources(leads))[name] == SourceCount(leads, name)
  {
    if leads != [] {
      SourcesCount(leads[1..], name);
      assert Sources(leads) == [leads[0].source] + Sources(leads[1..]);
    }
  }

  /** The slices: `Object.entries(sourceCounts)`, `[name, value]` per source. */
  function SourceChart(leads: seq<Lead>): seq<Entry<string>>
  {
    Tally(Sources(leads))
  }

  /** The component's computation: the `reduce` that bumps `acc[lead.source]`. */
  method SourceData(leads: seq<Lead>) returns (data: seq<Entry<string>>)
    ensures data == SourceChart(leads)
  {
    data := CountByKey(Sources(leads));
  }

  /**
   * Each source that occurs gets one slice, in the order in which it first
   * occurs among the leads; its value is the number of leads with that source
   * (so at least 1); every slice's name is some lead's source; and the values
   * add up to the number of leads.
   */
  lemma SourceChartSpec(leads: seq<Lead>)
    ensures DistinctKeys(SourceChart(leads))
    ensures forall i :: 0 <= i < |SourceChart(leads)| ==>
      SourceChart(leads)[i].count == SourceCount(leads, SourceChart(leads)[i].key) &&
      SourceChart(leads)[i].count >= 1
    ensures forall i :: 0 <= i < |SourceChart(leads)| ==>
      exists j :: 0 <= j < |leads| && leads[j].source == SourceChart(leads)[i].key
    ensures forall j :: 0 <= j < |leads| ==> KeyIndex(SourceChart(leads), leads[j].source) >= 0
    ensures SumCounts(SourceChart(leads)) == |leads|
    ensures FirstSeenOrder(SourceChart(leads), Sources(leads))
  {
    var s := Sources(leads);
    TallyOrder(s);
    TallyCorrect(s);
    CountsOfKeys(Tally(s), s);
    forall i | 0 <= i < |Tally(s)| ensures Tally(s)[i].count == SourceCount(leads, Tally(s)[i].key) {
      SourcesCount(leads, Tally(s)[i].key);
    }
    forall j | 0 <= j < |leads| ensures KeyIndex(SourceChart(leads), leads[j].source) >= 0 {
      assert s[j] == leads[j].source;
    }
  }

  /** `COLORS[index % COLORS.length]`, the colour of slice `index`. */
  function SliceColor(index: nat): (c: string)
    ensures c in Colors
  {
    Colors[index % |Colors|]
  }

  /**
   * The colours repeat every six slices, and six consecutive slices all get
   * different colours.
   */
  lemma SliceColorSpec(index: nat)
    ensures SliceColor(index + 6) == SliceColor(index)
    ensures index < 6 ==> SliceColor(index) == Colors[index]
    ensures forall a: nat, b: nat :: index <= a < b < index + 6 ==> SliceColor(a) != SliceColor(b)
  {
    assert (index + 6) % 6 == index % 6;
    forall a: nat, b: nat | index <= a < b < index + 6 ensures SliceColor(a) != SliceColor(b) {
      ModDistinct(a, b);
    }
  }

  /** Two numbers less than six apart leave different remainders modulo six. */
  lemma ModDistinct(a: nat, b: nat)
    requires a < b < a + 6
    ensures a % 6 != b % 6
  {
    var qa, qb := a / 6, b / 6;
    assert a == 6 * qa + a % 6;
    assert b == 6 * qb + b % 6;
    if qb == qa {
      assert b % 6 - a % 6 == b - a;
    } else {
      assert qb >= qa + 1;
      assert 6 * qb >= 6 * qa + 6;
      assert b % 6 < a % 6;
    }
  }
}
