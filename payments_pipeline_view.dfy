/**
 * The payments board (components/PaymentsPipelineView.tsx): one column per
 * payment stage, and a drag state that turns a drop into a payment-stage update.
 */
module PaymentsPipelineView {
  import opened Wrappers
  import opened Types
  import opened Constants
  import opened Seqs
  import opened UseLeads

  /** The call `onUpdateLeadPaymentStage(leadId, paymentStage)`. */
  datatype PaymentStageUpdate = PaymentStageUpdate(leadId: string, paymentStage: PaymentStage)

  /** The update a drop on the column of `stage` asks for. */
  function PaymentDrop(leads: seq<Lead>, draggedLeadId: Option<string>, stage: PaymentStage): (r: Option<PaymentStageUpdate>)
    ensures r.Some? <==>
      Present(draggedLeadId) &&
      exists i :: 0 <= i < |leads| && leads[i].id == draggedLeadId.value && leads[i].paymentStage != Some(stage) &&
                  forall j :: 0 <= j < i ==> leads[j].id != draggedLeadId.value
    ensures r.Some? ==> r.value == PaymentStageUpdate(draggedLeadId.value, stage)
  {
    if !Present(draggedLeadId) then None
    else
      match FindById(leads, draggedLeadId.value)
      case Some(lead) => if lead.paymentStage != Some(stage) then Some(PaymentStageUpdate(draggedLeadId.value, stage)) else None
      case None => None
  }

  /** The column keys: `lead.paymentStage === stage` for each stage of the payment pipeline. */
  function PaymentKeys(stages: seq<PaymentStage>): (r: seq<Option<PaymentStage>>)
    ensures |r| == |stages| && forall k :: 0 <= k < |stages| ==> r[k] == Some(stages[k])
  {
    if stages == [] then [] else [Some(stages[0])] + PaymentKeys(stages[1..])
  }

  function PaymentColumns(leads: seq<Lead>): seq<seq<Lead>>
  {
    Buckets(leads, PaymentStageOf, PaymentKeys(PaymentPipelineStages))
  }

  /** The number of leads that have a payment stage. */
  function WithPaymentStage(leads: seq<Lead>): nat
  {
    if leads == [] then 0 else (if leads[0].paymentStage.Some? then 1 else 0) + WithPaymentStage(leads[1..])
  }

  /**
   * A column holds exactly the leads of its payment stage; a lead without a
   * payment stage is in no column, and the columns together hold every lead
   * that has one.
   */
  lemma PaymentColumnsSpec(leads: seq<Lead>)
    ensures |PaymentColumns(leads)| == |PaymentPipelineStages|
    ensures forall k, i :: 0 <= k < |PaymentPipelineStages| && 0 <= i < |PaymentColumns(leads)[k]| ==>
      PaymentColumns(leads)[k][i].paymentStage == Some(PaymentPipelineStages[k]) && PaymentColumns(leads)[k][i] in leads
    ensures forall k, i :: 0 <= k < |PaymentPipelineStages| && 0 <= i < |leads| && leads[i].paymentStage == Some(PaymentPipelineStages[k]) ==>
      leads[i] in PaymentColumns(leads)[k]
    ensures forall k, l: Lead :: 0 <= k < |PaymentPipelineStages| && l.paymentStage.None? ==> l !in PaymentColumns(leads)[k]
    ensures SumLengths(PaymentColumns(leads)) == WithPaymentStage(leads)
  {
    var ks := PaymentKeys(PaymentPipelineStages);
    assert Distinct(ks);
    BucketsSum(leads, PaymentStageOf, ks);
    PaymentKeyCount(leads, ks);
  }

  lemma {:induction false} PaymentKeyCount(leads: seq<Lead>, ks: seq<Option<PaymentStage>>)
    requires ks == PaymentKeys(PaymentPipelineStages)
    ensures KeyCount(leads, PaymentStageOf, ks) == WithPaymentStage(leads)
  {
    if leads != [] {
      PaymentKeyCount(leads[1..], ks);
      var p := leads[0].paymentStage;
      if p.Some? {
        assert p == ks[PaymentStageIndex(p.value)];
      }
    }
  }

  /** The drag state of the board. */
  class PaymentsBoard {
    var draggedLeadId: Option<string>
    var dragOverStage: Option<PaymentStage>

    constructor ()
      ensures draggedLeadId == None && dragOverStage == None
    {
      draggedLeadId := None;
      dragOverStage := None;
    }

    method HandleDragStart(leadId: string)
      modifies this
      ensures draggedLeadId == Some(leadId) && dragOverStage == old(dragOverStage)
    {
      draggedLeadId := Some(leadId);
    }

    method HandleDragEnd()
      modifies this
      ensures draggedLeadId == None && dragOverStage == old(dragOverStage)
    {
      draggedLeadId := None;
    }

    method HandleDragOver(stage: PaymentStage)
      modifies this
      ensures dragOverStage == Some(stage) && draggedLeadId == old(draggedLeadId)
    {
      dragOverStage := Some(stage);
    }

    method HandleDragLeave()
      modifies this
      ensures dragOverStage == None && draggedLeadId == old(draggedLeadId)
    {
      dragOverStage := None;
    }

    /** `handleDrop`: returns the update it asks for, if any, and always ends the drag. */
    method HandleDrop(leads: seq<Lead>, stage: PaymentStage) returns (update: Option<PaymentStageUpdate>)
      modifies this
      ensures update == PaymentDrop(leads, old(draggedLeadId), stage)
      ensures draggedLeadId == None && dragOverStage == None
    {
      update := None;
      if Present(draggedLeadId) {
        var lead := FindById(leads, draggedLeadId.value);
        if lead.Some? && lead.value.paymentStage != Some(stage) {
          update := Some(PaymentStageUpdate(draggedLeadId.value, stage));
        }
      }
      draggedLeadId := None;
      dragOverStage := None;
    }
  }
}
