/**
 * The stage board (components/PipelineView.tsx): one column per pipeline stage,
 * and a drag state that turns a drop on another column into a stage update.
 */
module PipelineView {
  import opened Wrappers
  import opened Types
  import opened Constants
  import opened Seqs
  import opened UseLeads

  /** The call `onUpdateLead(leadId, updatedData)`. */
  datatype LeadUpdate = LeadUpdate(leadId: string, updatedData: LeadPatch)

  /**
   * The update a drop on the column of `stage` asks for: only during a drag of
   * a (truthy) id, only when a shown lead has that id, and only when the first
   * such lead is in another stage.
   */
  function StageDrop(leads: seq<Lead>, draggedLeadId: Option<string>, stage: PipelineStage): (r: Option<LeadUpdate>)
    ensures r.Some? <==>
      Present(draggedLeadId) &&
      exists i :: 0 <= i < |leads| && leads[i].id == draggedLeadId.value && leads[i].stage != stage &&
                  forall j :: 0 <= j < i ==> leads[j].id != draggedLeadId.value
    ensures r.Some? ==> r.value == LeadUpdate(draggedLeadId.value, StagePatch(stage))
  {
    if !Present(draggedLeadId) then None
    else
      match FindById(leads, draggedLeadId.value)
      case Some(lead) => if lead.stage != stage then Some(LeadUpdate(draggedLeadId.value, StagePatch(stage))) else None
      case None => None
  }

  /** Applying a drop's update moves that lead, and only that lead, to the column's stage. */
  lemma DropMovesOnlyThatLead(leads: seq<Lead>, draggedLeadId: Option<string>, stage: PipelineStage)
    requires StageDrop(leads, draggedLeadId, stage).Some?
    ensures var u := StageDrop(leads, draggedLeadId, stage).value;
            var after := Updated(leads, u.leadId, u.updatedData);
            |after| == |leads| &&
            forall i :: 0 <= i < |leads| ==>
              after[i] == if leads[i].id == draggedLeadId.value then leads[i].(stage := stage) else leads[i]
  {
    var u := StageDrop(leads, draggedLeadId, stage).value;
    forall i | 0 <= i < |leads| {
      MergeStageOnly(leads[i], stage);
    }
  }

  /**
   * The board is shown a subsequence of the store's list (`filteredLeads`), and
   * `onUpdateLead` merges into the store's own list: the dragged lead is in the
   * store, and the drop moves every lead of the store with its id, and no other.
   */
  lemma DropOnStore(shown: seq<Lead>, store: seq<Lead>, draggedLeadId: Option<string>, stage: PipelineStage)
    requires IsSubseq(shown, store)
    requires StageDrop(shown, draggedLeadId, stage).Some?
    ensures var u := StageDrop(shown, draggedLeadId, stage).value;
            var after := Updated(store, u.leadId, u.updatedData);
            |after| == |store| &&
            (exists i :: 0 <= i < |store| && store[i].id == draggedLeadId.value) &&
            forall i :: 0 <= i < |store| ==>
              after[i] == if store[i].id == draggedLeadId.value then store[i].(stage := stage) else store[i]
  {
    var k :| 0 <= k < |shown| && shown[k].id == draggedLeadId.value;
    IsSubseqMembers(shown, store);
    var j :| 0 <= j < |store| && store[j] == shown[k];
    forall i | 0 <= i < |store| {
      MergeStageOnly(store[i], stage);
    }
  }

  /** `leads.filter(lead => lead.stage === stage)` for each stage of PIPELINE_STAGES. */
  function PipelineColumns(leads: seq<Lead>): seq<seq<Lead>>
  {
    Buckets(leads, StageOf, PipelineStages)
  }

  /**
   * There is one column per stage; a column holds exactly the leads of its
   * stage, so each lead is in the one column of its stage, and the column sizes
   * add up to the number of leads.
   */
  lemma PipelineColumnsSpec(leads: seq<Lead>)
    ensures |PipelineColumns(leads)| == |PipelineStages|
    ensures forall k, i :: 0 <= k < |PipelineStages| && 0 <= i < |PipelineColumns(leads)[k]| ==>
      PipelineColumns(leads)[k][i].stage == PipelineStages[k] && PipelineColumns(leads)[k][i] in leads
    ensures forall k, i :: 0 <= k < |PipelineStages| && 0 <= i < |leads| && leads[i].stage == PipelineStages[k] ==>
      leads[i] in PipelineColumns(leads)[k]
    ensures SumLengths(PipelineColumns(leads)) == |leads|
  {
    PipelineStagesExact();
    BucketsSum(leads, StageOf, PipelineStages);
    KeyCountAll(leads, StageOf, PipelineStages);
  }

  /** The drag state of the board. */
  class PipelineBoard {
    var draggedLeadId: Option<string>
    var dragOverStage: Option<PipelineStage>

    constructor ()
      ensures draggedLeadId == None && dragOverStage == None
    {
      draggedLeadId := None;
      dragOverStage := None;
    }

    method HandleDragStart(leadId: string)
      modifies this
      ensures draggedLeadId == Some(leadId) && dragOverStage == old(dragOverStage)
    {
      draggedLeadId := Some(leadId);
    }

    method HandleDragOver(stage: PipelineStage)
      modifies this
      ensures dragOverStage == Some(stage) && draggedLeadId == old(draggedLeadId)
    {
      dragOverStage := Some(stage);
    }

    method HandleDragLeave()
      modifies this
      ensures dragOverStage == None && draggedLeadId == old(draggedLeadId)
    {
      dragOverStage := None;
    }

    /** `handleDrop`: returns the update it asks for, if any, and always ends the drag. */
    method HandleDrop(leads: seq<Lead>, stage: PipelineStage) returns (update: Option<LeadUpdate>)
      modifies this
      ensures update == StageDrop(leads, old(draggedLeadId), stage)
      ensures draggedLeadId == None && dragOverStage == None
    {
      update := None;
      if Present(draggedLeadId) {
        var lead := FindById(leads, draggedLeadId.value);
        if lead.Some? && lead.value.stage != stage {
          update := Some(LeadUpdate(draggedLeadId.value, StagePatch(stage)));
        }
      }
      draggedLeadId := None;
      dragOverStage := None;
    }
  }
}
