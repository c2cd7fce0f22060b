/**
 * The logic of the top-level component (App.tsx): the alert list derived from
 * the leads, the alerts each view shows, the search and filter bar, and the
 * selection of leads for bulk actions. `new Date()` is the parameter `today`, a
 * day number; `dayOf` reads a stored date as a day number (None where
 * `parseISO` yields an invalid date, whose differences are NaN).
 */
module App {
  import opened Wrappers
  import opened Types
  import opened Constants
  import opened Seqs
  import opened UseLeads

  // ------------------------------------------------------------------ alerts

  datatype AlertType = PipelineAlert | DemoAlert | PaymentsAlert

  /** The alert texts, with the numbers they show. */
  datatype Message =
    | StuckInNewLead(days: int)
    | RecontactToday
    | RecontactWasDue(dueDay: int)
    | DemoEndsToday
    | DemoEnded(daysAgo: int)
    | PaymentFollowUp(paymentStage: PaymentStage, daysSince: int)

  datatype Alert = Alert(lead: Lead, message: Message, alertType: AlertType)

  /**
   * The alert one lead raises, if any. The four rules of the source are guarded
   * by four different stages, so this is stated as a single match on the stage.
   */
  function LeadAlert(l: Lead, today: int, dayOf: string -> Option<int>): (r: Option<Alert>)
    ensures r.Some? ==> r.value.lead == l
  {
    match l.stage
    case NewLead =>
      (match dayOf(l.dateAdded)
       case Some(added) => if today - added > 3 then Some(Alert(l, StuckInNewLead(today - added), PipelineAlert)) else None
       case None => None)
    case Delayed =>
      if !Present(l.recontactDate) then None
      else
        (match dayOf(l.recontactDate.value)
         case Some(due) =>
           if due == today then Some(Alert(l, RecontactToday, PipelineAlert))
           else if due < today then Some(Alert(l, RecontactWasDue(due), PipelineAlert))
           else None
         case None => None)
    case DemoActive =>
      if !Present(l.demoEndDate) then None
      else
        (match dayOf(l.demoEndDate.value)
         case Some(end) =>
           if end - today == 0 then Some(Alert(l, DemoEndsToday, DemoAlert))
           else if end - today < 0 then Some(Alert(l, DemoEnded(today - end), DemoAlert))
           else None
         case None => None)
    case ClosedPaid => PaymentAlert(l, today, dayOf)
    case Contacted => None
    case LostRefused => None
  }

  /** The payment follow-up rule: the date of the installment before the current payment stage. */
  function PaymentAlert(l: Lead, today: int, dayOf: string -> Option<int>): Option<Alert>
  {
    if l.paymentStage.None? || l.paymentStage.value == Done || l.installments.None? then None
    else
      var index := PaymentStageIndex(l.paymentStage.value);
      var installments := l.installments.value;
      if index > 0 && index - 1 < |installments| && installments[index - 1].date != "" then
        match dayOf(installments[index - 1].date)
        case Some(paid) => if today - paid >= 30 then Some(Alert(l, PaymentFollowUp(l.paymentStage.value, today - paid), PaymentsAlert)) else None
        case None => None
      else None
  }

  function AlertsOfLead(l: Lead, today: int, dayOf: string -> Option<int>): seq<Alert>
  {
    match LeadAlert(l, today, dayOf)
    case Some(a) => [a]
    case None => []
  }

  /** The alert list: the alerts of the leads, in the order of the leads. */
  function Alerts(leads: seq<Lead>, today: int, dayOf: string -> Option<int>): seq<Alert>
  {
    if leads == [] then []
    else Alerts(leads[..|leads| - 1], today, dayOf) + AlertsOfLead(leads[|leads| - 1], today, dayOf)
  }

  /** The `leads.forEach` loop that pushes the alerts of each lead, rule by rule. */
  method DeriveAlerts(leads: seq<Lead>, today: int, dayOf: string -> Option<int>) returns (alertsList: seq<Alert>)
    ensures alertsList == Alerts(leads, today, dayOf)
  {
    alertsList := [];
    var i := 0;
    while i < |leads|
      invariant 0 <= i <= |leads|
      invariant alertsList == Alerts(leads[..i], today, dayOf)
    {
      alertsList := PushAlerts(alertsList, leads[i], today, dayOf);
      assert leads[..i + 1][..i] == leads[..i];
      i := i + 1;
    }
    assert leads[..|leads|] == leads;
  }

  /** The body of the `forEach`: the four rules, each pushing its alert when it fires. */
  method PushAlerts(alertsList: seq<Alert>, lead: Lead, today: int, dayOf: string -> Option<int>) returns (pushed: seq<Alert>)
    ensures pushed == alertsList + AlertsOfLead(lead, today, dayOf)
  {
    pushed := alertsList;
    // 1. stale new leads
    if lead.stage == NewLead {
      var dateAdded := dayOf(lead.dateAdded);
      if dateAdded.Some? && today - dateAdded.value > 3 {
        pushed := pushed + [Alert(lead, StuckInNewLead(today - dateAdded.value), PipelineAlert)];
      }
    }
    // 2. delayed re-contact
    if lead.stage == Delayed && Present(lead.recontactDate) {
      var recontactDate := dayOf(lead.recontactDate.value);
      if recontactDate.Some? && recontactDate.value == today {
        pushed := pushed + [Alert(lead, RecontactToday, PipelineAlert)];
      } else if recontactDate.Some? && recontactDate.value < today {
        pushed := pushed + [Alert(lead, RecontactWasDue(recontactDate.value), PipelineAlert)];
      }
    }
    // 3. demo ending or ended
    if lead.stage == DemoActive && Present(lead.demoEndDate) {
      var demoEndDate := dayOf(lead.demoEndDate.value);
      if demoEndDate.Some? {
        var daysLeft := demoEndDate.value - today;
        if daysLeft == 0 {
          pushed := pushed + [Alert(lead, DemoEndsToday, DemoAlert)];
        } else if daysLeft < 0 {
          pushed := pushed + [Alert(lead, DemoEnded(-daysLeft), DemoAlert)];
        }
      }
    }
    // 4. payment follow-up
    if lead.stage == ClosedPaid && lead.paymentStage.Some? && lead.paymentStage.value != Done && lead.installments.Some? {
      var currentStageIndex := PaymentStageIndex(lead.paymentStage.value);
      if currentStageIndex > 0 {
        if currentStageIndex - 1 < |lead.installments.value| && lead.installments.value[currentStageIndex - 1].date != "" {
          var lastPaymentDate := dayOf(lead.installments.value[currentStageIndex - 1].date);
          if lastPaymentDate.Some? && today - lastPaymentDate.value >= 30 {
            pushed := pushed + [Alert(lead, PaymentFollowUp(lead.paymentStage.value, today - lastPaymentDate.value), PaymentsAlert)];
          }
        }
      }
    }
  }

  /** The alerts of two lists of leads, one after the other, are the alerts of each in turn. */
  lemma {:induction false} AlertsConcat(a: seq<Lead>, b: seq<Lead>, today: int, dayOf: string -> Option<int>)
    ensures Alerts(a + b, today, dayOf) == Alerts(a, today, dayOf) + Alerts(b, today, dayOf)
  {
    if b == [] {
      assert a + b == a;
    } else {
      var c := a + b;
      var init, last := b[..|b| - 1], b[|b| - 1];
      assert c[..|c| - 1] == a + init;
      assert c[|c| - 1] == last;
      AlertsConcat(a, init, today, dayOf);
      var own := AlertsOfLead(last, today, dayOf);
      assert Alerts(c, today, dayOf) == Alerts(a + init, today, dayOf) + own;
      assert Alerts(b, today, dayOf) == Alerts(init, today, dayOf) + own;
      var pa, pi := Alerts(a, today, dayOf), Alerts(init, today, dayOf);
      assert (pa + pi) + own == pa + (pi + own);
    }
  }

  /** Each lead raises at most one alert, and every alert is about a lead of the list. */
  lemma {:induction false} AlertsBound(leads: seq<Lead>, today: int, dayOf: string -> Option<int>)
    ensures |Alerts(leads, today, dayOf)| <= |leads|
    ensures forall i :: 0 <= i < |Alerts(leads, today, dayOf)| ==> Alerts(leads, today, dayOf)[i].lead in leads
  {
    if leads != [] {
      var init := leads[..|leads| - 1];
      AlertsBound(init, today, dayOf);
      var r := Alerts(leads, today, dayOf);
      forall i | 0 <= i < |r| ensures r[i].lead in leads {
        if i < |Alerts(init, today, dayOf)| {
          assert r[i] == Alerts(init, today, dayOf)[i];
          assert r[i].lead in init;
        } else {
          assert r[i].lead == leads[|leads| - 1];
        }
      }
    }
  }

  /** Contacted and lost leads raise no alert. */
  lemma QuietStages(l: Lead, today: int, dayOf: string -> Option<int>)
    requires l.stage == Contacted || l.stage == LostRefused
    ensures LeadAlert(l, today, dayOf) == None
  {
  }

  /** A new lead raises one pipeline alert exactly when it is more than three days old, and the alert shows its age. */
  lemma NewLeadRule(l: Lead, today: int, dayOf: string -> Option<int>)
    requires l.stage == NewLead
    ensures LeadAlert(l, today, dayOf).Some? <==> dayOf(l.dateAdded).Some? && today - dayOf(l.dateAdded).value > 3
    ensures LeadAlert(l, today, dayOf).Some? ==>
      LeadAlert(l, today, dayOf).value == Alert(l, StuckInNewLead(today - dayOf(l.dateAdded).value), PipelineAlert)
  {
  }

  /**
   * A delayed lead with a recontact date raises "Re-contact today." on that day,
   * the "was due" alert after it, and nothing before it.
   */
  lemma DelayedRule(l: Lead, today: int, dayOf: string -> Option<int>)
    requires l.stage == Delayed
    ensures !Present(l.recontactDate) ==> LeadAlert(l, today, dayOf) == None
    ensures Present(l.recontactDate) && dayOf(l.recontactDate.value) == Some(today) ==>
      LeadAlert(l, today, dayOf) == Some(Alert(l, RecontactToday, PipelineAlert))
    ensures forall due :: Present(l.recontactDate) && dayOf(l.recontactDate.value) == Some(due) && due < today ==>
      LeadAlert(l, today, dayOf) == Some(Alert(l, RecontactWasDue(due), PipelineAlert))
    ensures forall due :: Present(l.recontactDate) && dayOf(l.recontactDate.value) == Some(due) && due > today ==>
      LeadAlert(l, today, dayOf) == None
  {
  }

  /** An active demo raises a demo alert on its last day and on every day after, with the days since it ended. */
  lemma DemoRule(l: Lead, today: int, dayOf: string -> Option<int>)
    requires l.stage == DemoActive
    ensures LeadAlert(l, today, dayOf).Some? <==>
      Present(l.demoEndDate) && dayOf(l.demoEndDate.value).Some? && dayOf(l.demoEndDate.value).value - today <= 0
    ensures LeadAlert(l, today, dayOf).Some? ==>
      var daysLeft := dayOf(l.demoEndDate.value).value - today;
      LeadAlert(l, today, dayOf).value ==
        Alert(l, if daysLeft == 0 then DemoEndsToday else DemoEnded(-daysLeft), DemoAlert)
  {
  }

  /**
   * A paid lead raises a payment alert exactly when its payment stage is set, is
   * not Done and is not the first one, the installment before it exists with a
   * readable date, and that date is at least 30 days ago; the alert names the
   * payment stage and the number of days since that date.
   */
  lemma PaymentRule(l: Lead, today: int, dayOf: string -> Option<int>)
    requires l.stage == ClosedPaid
    ensures LeadAlert(l, today, dayOf).Some? <==>
      l.paymentStage.Some? && l.paymentStage.value != Done && l.installments.Some? &&
      var index := PaymentStageIndex(l.paymentStage.value);
      index > 0 && index - 1 < |l.installments.value| &&
      var date := l.installments.value[index - 1].date;
      date != "" && dayOf(date).Some? && today - dayOf(date).value >= 30
    ensures LeadAlert(l, today, dayOf).Some? ==>
      var paid := dayOf(l.installments.value[PaymentStageIndex(l.paymentStage.value) - 1].date).value;
      LeadAlert(l, today, dayOf).value == Alert(l, PaymentFollowUp(l.paymentStage.value, today - paid), PaymentsAlert)
    ensures l.paymentStage == Some(UpfrontInstallment) ==> LeadAlert(l, today, dayOf) == None
  {
  }

  // ------------------------------------------------------- alerts per view

  datatype View = PipelineView | DashboardView | PaymentsView | DemoView

  /** The view whose name equals the alert's type. */
  function AlertView(a: Alert): View
  {
    match a.alertType
    case PipelineAlert => PipelineView
    case DemoAlert => DemoView
    case PaymentsAlert => PaymentsView
  }

  /** `viewSpecificAlerts`: everything on the dashboard, the alerts of its own type elsewhere. */
  function ViewAlerts(alerts: seq<Alert>, currentView: View): (r: seq<Alert>)
    ensures currentView == DashboardView ==> r == alerts
    ensures currentView != DashboardView ==>
      (forall i :: 0 <= i < |r| ==> AlertView(r[i]) == currentView) &&
      (forall i :: 0 <= i < |alerts| && AlertView(alerts[i]) == currentView ==> alerts[i] in r)
  {
    if currentView == DashboardView then alerts else Bucket(alerts, AlertView, currentView)
  }

  /** A view's alerts keep the order of the full list, and the three boards share the alerts out between them. */
  lemma ViewAlertsPartition(alerts: seq<Alert>, v: View)
    ensures IsSubseq(ViewAlerts(alerts, v), alerts)
    ensures |ViewAlerts(alerts, PipelineView)| + |ViewAlerts(alerts, DemoView)| + |ViewAlerts(alerts, PaymentsView)| == |alerts|
  {
    if v == DashboardView {
      IsSubseqRefl(alerts);
    } else {
      BucketIsSubseq(alerts, AlertView, v);
    }
    ViewAlertsTotal(alerts);
  }

  lemma ViewAlertsTotal(alerts: seq<Alert>)
    ensures |ViewAlerts(alerts, PipelineView)| + |ViewAlerts(alerts, DemoView)| + |ViewAlerts(alerts, PaymentsView)| == |alerts|
  {
    var ks := [PipelineView, DemoView, PaymentsView];
    BucketsSum(alerts, AlertView, ks);
    KeyCountAll(alerts, AlertView, ks);
    var cols := Buckets(alerts, AlertView, ks);
    assert |cols| == 3;
    assert SumLengths(cols[1..][1..]) == |cols[2]| by {
      assert cols[1..][1..][1..] == [];
    }
    assert SumLengths(cols[1..]) == |cols[1]| + |cols[2]|;
    assert cols[0] == ViewAlerts(alerts, PipelineView);
    assert cols[1] == ViewAlerts(alerts, DemoView);
    assert cols[2] == ViewAlerts(alerts, PaymentsView);
  }

  // ------------------------------------------------------ search and filter

  /** `toLowerCase` on the ASCII letters. */
  function LowerChar(c: char): char
  {
    if 'A' <= c <= 'Z' then (c as int + 32) as char else c
  }

  function ToLower(s: string): (r: string)
    ensures |r| == |s|
  {
    seq(|s|, i requires 0 <= i < |s| => LowerChar(s[i]))
  }

  /** `s.includes(t)`. */
  function Includes(s: string, t: string): bool
    decreases |s|
  {
    t <= s || (|s| > 0 && Includes(s[1..], t))
  }

  /** `t` occurs in `s` at position `i`. */
  predicate OccursAt(s: string, t: string, i: int)
  {
    0 <= i && i + |t| <= |s| && s[i..i + |t|] == t
  }

  lemma OccursAtStart(s: string, t: string)
    ensures OccursAt(s, t, 0) <==> t <= s
  {
  }

  /** `includes` holds exactly when the text occurs at some position. */
  lemma {:induction false} IncludesAt(s: string, t: string)
    ensures Includes(s, t) <==> exists i :: OccursAt(s, t, i)
  {
    OccursAtStart(s, t);
    if t <= s {
      assert OccursAt(s, t, 0);
    } else if |s| > 0 {
      IncludesAt(s[1..], t);
      if Includes(s[1..], t) {
        var i :| OccursAt(s[1..], t, i);
        assert s[i + 1..i + 1 + |t|] == s[1..][i..i + |t|];
        assert OccursAt(s, t, i + 1);
      }
      if exists i :: OccursAt(s, t, i) {
        var i :| OccursAt(s, t, i);
        assert s[1..][i - 1..i - 1 + |t|] == s[i..i + |t|];
        assert OccursAt(s[1..], t, i - 1);
      }
    } else {
      forall i ensures !OccursAt(s, t, i) {
        OccursAtStart(s, t);
      }
    }
  }

  /** The three selects of the filter bar; "All" selects everything. */
  datatype Filters = Filters(stage: string, clientType: string, source: string)

  const NoFilters := Filters("All", "All", "All")

  predicate SearchMatch(l: Lead, searchTerm: string)
  {
    var term := ToLower(searchTerm);
    searchTerm == "" ||
    Includes(ToLower(l.name), term) ||
    Includes(ToLower(l.contact), term) ||
    (Present(l.email) && Includes(ToLower(l.email.value), term))
  }

  predicate FilterMatch(l: Lead, filters: Filters)
  {
    (filters.stage == "All" || StageText(l.stage) == filters.stage) &&
    (filters.clientType == "All" || ClientTypeText(l.clientType) == filters.clientType) &&
    (filters.source == "All" || l.source == filters.source)
  }

  /** `filteredLeads`. */
  function FilteredLeads(leads: seq<Lead>, searchTerm: string, filters: Filters): seq<Lead>
  {
    Filter(leads, (l: Lead) => SearchMatch(l, searchTerm) && FilterMatch(l, filters))
  }

  /**
   * The filtered list keeps the order of the leads; with no search and no
   * filter it is the whole list; a lead is kept exactly when it matches the
   * search and each filter that is not "All".
   */
  lemma FilteredLeadsSpec(leads: seq<Lead>, searchTerm: string, filters: Filters)
    ensures IsSubseq(FilteredLeads(leads, searchTerm, filters), leads)
    ensures searchTerm == "" && filters == NoFilters ==> FilteredLeads(leads, searchTerm, filters) == leads
    ensures forall i :: 0 <= i < |FilteredLeads(leads, searchTerm, filters)| ==>
      var l := FilteredLeads(leads, searchTerm, filters)[i];
      SearchMatch(l, searchTerm) &&
      (filters.stage != "All" ==> StageText(l.stage) == filters.stage) &&
      (filters.clientType != "All" ==> ClientTypeText(l.clientType) == filters.clientType) &&
      (filters.source != "All" ==> l.source == filters.source)
    ensures forall i :: 0 <= i < |leads| && SearchMatch(leads[i], searchTerm) && FilterMatch(leads[i], filters) ==>
      leads[i] in FilteredLeads(leads, searchTerm, filters)
    ensures forall l ::
      multiset(FilteredLeads(leads, searchTerm, filters))[l] ==
      if SearchMatch(l, searchTerm) && FilterMatch(l, filters) then multiset(leads)[l] else 0
  {
    var p := (l: Lead) => SearchMatch(l, searchTerm) && FilterMatch(l, filters);
    FilterIsSubseq(leads, p);
    FilterCounts(leads, p);
    if searchTerm == "" && filters == NoFilters {
      FilterAll(leads, p);
    }
  }

  /** A search term that occurs in the name, in any ASCII letter case, keeps the lead. */
  lemma SearchFindsName(l: Lead, searchTerm: string, i: nat)
    requires i + |searchTerm| <= |l.name|
    requires ToLower(l.name[i..i + |searchTerm|]) == ToLower(searchTerm)
    ensures SearchMatch(l, searchTerm)
  {
    var s := ToLower(l.name);
    var t := ToLower(searchTerm);
    assert s[i..i + |t|] == ToLower(l.name[i..i + |searchTerm|]);
    assert OccursAt(s, t, i);
    IncludesAt(s, t);
  }

  // --------------------------------------------------------------- selection

  /** `ids.filter(id => id !== leadId)`. */
  function Without(ids: seq<string>, leadId: string): (r: seq<string>)
    ensures leadId !in r
    ensures forall x :: x != leadId ==> (x in r <==> x in ids)
  {
    if ids == [] then []
    else if ids[0] == leadId then Without(ids[1..], leadId)
    else [ids[0]] + Without(ids[1..], leadId)
  }

  lemma {:induction false} WithoutAbsent(ids: seq<string>, leadId: string)
    requires leadId !in ids
    ensures Without(ids, leadId) == ids
  {
    if ids != [] {
      WithoutAbsent(ids[1..], leadId);
    }
  }

  lemma {:induction false} WithoutAppended(ids: seq<string>, leadId: string)
    requires leadId !in ids
    ensures Without(ids + [leadId], leadId) == ids
  {
    if ids == [] {
      assert [] + [leadId] == [leadId];
    } else {
      assert (ids + [leadId])[1..] == ids[1..] + [leadId];
      WithoutAppended(ids[1..], leadId);
    }
  }

  lemma {:induction false} WithoutDistinct(ids: seq<string>, leadId: string)
    requires Distinct(ids)
    ensures Distinct(Without(ids, leadId))
  {
    if ids != [] {
      assert Distinct(ids[1..]) by {
        forall i, j | 0 <= i < j < |ids[1..]| ensures ids[1..][i] != ids[1..][j] {
          assert ids[1..][i] == ids[i + 1] && ids[1..][j] == ids[j + 1];
        }
      }
      WithoutDistinct(ids[1..], leadId);
      if ids[0] != leadId {
        var rest := Without(ids[1..], leadId);
        assert ids[0] !in ids[1..];
        assert ids[0] !in rest;
        var r := [ids[0]] + rest;
        forall i, j | 0 <= i < j < |r| ensures r[i] != r[j] {
          if i == 0 {
            assert r[j] == rest[j - 1];
          } else {
            assert r[i] == rest[i - 1] && r[j] == rest[j - 1];
          }
        }
      }
    }
  }

  /** `handleSelectLead`: an unselected id is appended, a selected one removed. */
  function Toggled(ids: seq<string>, leadId: string): seq<string>
  {
    if leadId in ids then Without(ids, leadId) else ids + [leadId]
  }

  /**
   * Toggling flips the membership of that id and no other; toggling twice gives
   * back the membership, and an id that was not selected leaves the selection
   * exactly as it was. The selection never holds an id twice.
   */
  lemma ToggleSpec(ids: seq<string>, leadId: string)
    ensures leadId in Toggled(ids, leadId) <==> leadId !in ids
    ensures forall x :: x != leadId ==> (x in Toggled(ids, leadId) <==> x in ids)
    ensures leadId !in ids ==> Toggled(ids, leadId) == ids + [leadId]
    ensures forall x :: x in Toggled(Toggled(ids, leadId), leadId) <==> x in ids
    ensures leadId !in ids ==> Toggled(Toggled(ids, leadId), leadId) == ids
    ensures Distinct(ids) ==> Distinct(Toggled(ids, leadId))
  {
    if leadId !in ids {
      assert leadId in ids + [leadId];
      WithoutAppended(ids, leadId);
      if Distinct(ids) {
        var r := ids + [leadId];
        forall i, j | 0 <= i < j < |r| ensures r[i] != r[j] {
          if j == |ids| {
            assert r[i] == ids[i];
          } else {
            assert r[i] == ids[i] && r[j] == ids[j];
          }
        }
      }
    } else if Distinct(ids) {
      WithoutDistinct(ids, leadId);
    }
  }

  // ------------------------------------------------------------- bulk export

  /** `leads.filter(lead => selectedLeadIds.includes(lead.id))`. */
  function SelectedLeads(leads: seq<Lead>, selectedLeadIds: seq<string>): seq<Lead>
  {
    Filter(leads, (l: Lead) => l.id in selectedLeadIds)
  }

  /**
   * `handleBulkExport` as written: the selection is passed to `exportToCSV`,
   * which takes no argument and exports every lead of the list.
   */
  function BulkExportAsWritten(leads: seq<Lead>, selectedLeadIds: seq<string>): Option<string>
  {
    var leadsToExport := SelectedLeads(leads, selectedLeadIds);
    CsvExport(leads)
  }

  /** The evident intent: the CSV text of the selected leads only. */
  function BulkExport(leads: seq<Lead>, selectedLeadIds: seq<string>): Option<string>
  {
    CsvExport(SelectedLeads(leads, selectedLeadIds))
  }

  function SampleLead(id: string): Lead
  {
    Lead(id, "", "", None, PrivateTeacher, NewLead, None, "", None, None, None, None, "", None, None, None, None, None, None, None)
  }

  /** With two leads and only the first selected, the export as written still holds both records. */
  lemma BulkExportExportsUnselected()
    ensures var leads := [SampleLead("lead-1"), SampleLead("lead-2")];
            var selected := ["lead-1"];
            |SelectedLeads(leads, selected)| == 1 &&
            ParseCsv(BulkExportAsWritten(leads, selected).value) == Some(Rows(leads)) &&
            |Rows(leads)| == 2
  {
    var leads := [SampleLead("lead-1"), SampleLead("lead-2")];
    assert "lead-2" != "lead-1";
    SelectsFirstOnly(leads[0], leads[1], ["lead-1"]);
    CsvRoundTrip(leads);
    assert BulkExportAsWritten(leads, ["lead-1"]) == CsvExport(leads);
  }

  lemma SelectsFirstOnly(a: Lead, b: Lead, selected: seq<string>)
    requires a.id in selected && b.id !in selected
    ensures SelectedLeads([a, b], selected) == [a]
  {
    assert [a, b][1..] == [b] && [b][1..] == [];
    assert SelectedLeads([b], selected) == SelectedLeads([], selected) == [];
    assert SelectedLeads([a, b], selected) == [a] + SelectedLeads([b], selected);
  }

  /**
   * The corrected export produces nothing when no lead of the list is selected,
   * and otherwise a CSV text whose records are the selected leads, in list order.
   */
  lemma BulkExportSpec(leads: seq<Lead>, selectedLeadIds: seq<string>)
    ensures BulkExport(leads, selectedLeadIds).None? <==> forall i :: 0 <= i < |leads| ==> leads[i].id !in selectedLeadIds
    ensures BulkExport(leads, selectedLeadIds).Some? ==>
      ParseCsv(BulkExport(leads, selectedLeadIds).value) == Some(Rows(SelectedLeads(leads, selectedLeadIds)))
    ensures IsSubseq(SelectedLeads(leads, selectedLeadIds), leads)
  {
    var sel := SelectedLeads(leads, selectedLeadIds);
    FilterIsSubseq(leads, (l: Lead) => l.id in selectedLeadIds);
    if sel != [] {
      CsvRoundTrip(sel);
      assert sel[0] in leads;
    }
  }

  // --------------------------------------------------------------- the state

  /** The component's lead store and selection cell. */
  class AppState {
    const store: LeadStore
    var selectedLeadIds: seq<string>

    constructor (s: LeadStore)
      ensures store == s && selectedLeadIds == []
    {
      store := s;
      selectedLeadIds := [];
    }

    method HandleSelectLead(leadId: string)
      modifies this
      ensures selectedLeadIds == Toggled(old(selectedLeadIds), leadId)
    {
      if leadId in selectedLeadIds {
        selectedLeadIds := Without(selectedLeadIds, leadId);
      } else {
        selectedLeadIds := selectedLeadIds + [leadId];
      }
    }

    method ClearSelection()
      modifies this
      ensures selectedLeadIds == []
    {
      selectedLeadIds := [];
    }

    /** `handleDeleteLead`; `confirmed` is the answer to the confirmation dialog. */
    method HandleDeleteLead(leadId: string, confirmed: bool)
      modifies this, store
      ensures confirmed ==> store.leads == Removed(old(store.leads), leadId) &&
                            selectedLeadIds == Without(old(selectedLeadIds), leadId)
      ensures !confirmed ==> store.leads == old(store.leads) && selectedLeadIds == old(selectedLeadIds)
      ensures leadId !in selectedLeadIds || !confirmed
    {
      if confirmed {
        store.DeleteLead(leadId);
        selectedLeadIds := Without(selectedLeadIds, leadId);
      }
    }

    /**
     * `handleBulkExport` as corrected (see `BulkExport`): the selected leads,
     * and only they, are exported.
     */
    method HandleBulkExport() returns (csv: Option<string>)
      ensures csv == BulkExport(store.leads, selectedLeadIds)
      ensures csv.None? <==> forall i :: 0 <= i < |store.leads| ==> store.leads[i].id !in selectedLeadIds
      ensures csv.Some? ==> ParseCsv(csv.value) == Some(Rows(SelectedLeads(store.leads, selectedLeadIds)))
    {
      var leadsToExport := SelectedLeads(store.leads, selectedLeadIds);
      csv := CsvExport(leadsToExport);
      BulkExportSpec(store.leads, selectedLeadIds);
    }
  }
}
