/**
 * The fixed orderings (constants.ts). PIPELINE_STAGES and REASONS_LOST_DELAY are
 * the file's own; the payment and demo orderings are imported by the views but
 * not defined in constants.ts, so they are taken in the order of the union types
 * of types.ts.
 */
module Constants {
  import opened Types

  const PipelineStages: seq<PipelineStage> := [NewLead, Contacted, DemoActive, ClosedPaid, Delayed, LostRefused]
  const ReasonsLostDelay: seq<ReasonLostOrDelay> := [Price, Timing, Competition, NoResponse, Other]
  const PaymentPipelineStages: seq<PaymentStage> :=
    [UpfrontInstallment, SecondInstallment, ThirdInstallment, FourthInstallment, Done]
  const DemoPipelineStages: seq<DemoStage> := [Day1, Day2, Day3]

  /** `PAYMENT_PIPELINE_STAGES.indexOf(s)`. */
  function PaymentStageIndex(s: PaymentStage): (i: nat)
    ensures i < |PaymentPipelineStages| && PaymentPipelineStages[i] == s
    ensures forall j :: 0 <= j < i ==> PaymentPipelineStages[j] != s
  {
    match s
    case UpfrontInstallment => 0
    case SecondInstallment => 1
    case ThirdInstallment => 2
    case FourthInstallment => 3
    case Done => 4
  }

  /** Every stage is listed exactly once, so the board and the funnel cover every lead. */
  lemma PipelineStagesExact()
    ensures forall s: PipelineStage :: s in PipelineStages
    ensures forall i, j :: 0 <= i < j < |PipelineStages| ==> PipelineStages[i] != PipelineStages[j]
  {
    forall s: PipelineStage ensures s in PipelineStages {
      match s
      case NewLead => assert PipelineStages[0] == s;
      case Contacted => assert PipelineStages[1] == s;
      case DemoActive => assert PipelineStages[2] == s;
      case ClosedPaid => assert PipelineStages[3] == s;
      case Delayed => assert PipelineStages[4] == s;
      case LostRefused => assert PipelineStages[5] == s;
    }
  }
}
