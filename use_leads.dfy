/**
 * The lead-list store (hooks/useLeads.ts): the `leads` state with its three
 * mutations, and the CSV text that `exportToCSV` builds. The id and the
 * `dateAdded` timestamp of a new lead come from the clock and `Math.random`, so
 * they are parameters here.
 */
module UseLeads {
  import opened Wrappers
  import opened Types
  import opened Seqs

  /**
   * `Partial<Omit<Lead, 'id'>>`. The outer Option says whether the key is present
   * in the object; for the optional fields the inner Option is the value, which
   * may itself be `undefined` (the spread then clears the field).
   */
  datatype LeadPatch = LeadPatch(
    name: Option<string>,
    contact: Option<string>,
    email: Option<Option<string>>,
    clientType: Option<ClientType>,
    stage: Option<PipelineStage>,
    paymentStage: Option<Option<PaymentStage>>,
    dateAdded: Option<string>,
    demoStartDate: Option<Option<string>>,
    demoEndDate: Option<Option<string>>,
    paymentDate: Option<Option<string>>,
    notes: Option<Option<string>>,
    source: Option<string>,
    reasonLostDelay: Option<Option<ReasonLostOrDelay>>,
    recontactDate: Option<Option<string>>,
    ribType: Option<Option<RibType>>,
    numberOfInstallments: Option<Option<int>>,
    installments: Option<Option<seq<Installment>>>,
    numberOfInvoices: Option<Option<int>>,
    invoices: Option<Option<seq<Invoice>>>)

  const NoChange := LeadPatch(None, None, None, None, None, None, None, None, None, None,
                              None, None, None, None, None, None, None, None, None)

  /** `{ stage }`, the payload a pipeline drop sends. */
  function StagePatch(s: PipelineStage): LeadPatch
  {
    NoChange.(stage := Some(s))
  }

  /** `{ ...lead, ...patch }`: a key present in the patch overwrites, every other field is kept. */
  function Merge(l: Lead, p: LeadPatch): Lead
  {
    Lead(
      l.id,
      GetOr(p.name, l.name),
      GetOr(p.contact, l.contact),
      GetOr(p.email, l.email),
      GetOr(p.clientType, l.clientType),
      GetOr(p.stage, l.stage),
      GetOr(p.paymentStage, l.paymentStage),
      GetOr(p.dateAdded, l.dateAdded),
      GetOr(p.demoStartDate, l.demoStartDate),
      GetOr(p.demoEndDate, l.demoEndDate),
      GetOr(p.paymentDate, l.paymentDate),
      GetOr(p.notes, l.notes),
      GetOr(p.source, l.source),
      GetOr(p.reasonLostDelay, l.reasonLostDelay),
      GetOr(p.recontactDate, l.recontactDate),
      GetOr(p.ribType, l.ribType),
      GetOr(p.numberOfInstallments, l.numberOfInstallments),
      GetOr(p.installments, l.installments),
      GetOr(p.numberOfInvoices, l.numberOfInvoices),
      GetOr(p.invoices, l.invoices))
  }

  /** Spreading `p` and then `q`: a key of `q` wins, a key only in `p` survives. */
  function Then(p: LeadPatch, q: LeadPatch): LeadPatch
  {
    LeadPatch(
      if q.name.Some? then q.name else p.name,
      if q.contact.Some? then q.contact else p.contact,
      if q.email.Some? then q.email else p.email,
      if q.clientType.Some? then q.clientType else p.clientType,
      if q.stage.Some? then q.stage else p.stage,
      if q.paymentStage.Some? then q.paymentStage else p.paymentStage,
      if q.dateAdded.Some? then q.dateAdded else p.dateAdded,
      if q.demoStartDate.Some? then q.demoStartDate else p.demoStartDate,
      if q.demoEndDate.Some? then q.demoEndDate else p.demoEndDate,
      if q.paymentDate.Some? then q.paymentDate else p.paymentDate,
      if q.notes.Some? then q.notes else p.notes,
      if q.source.Some? then q.source else p.source,
      if q.reasonLostDelay.Some? then q.reasonLostDelay else p.reasonLostDelay,
      if q.recontactDate.Some? then q.recontactDate else p.recontactDate,
      if q.ribType.Some? then q.ribType else p.ribType,
      if q.numberOfInstallments.Some? then q.numberOfInstallments else p.numberOfInstallments,
      if q.installments.Some? then q.installments else p.installments,
      if q.numberOfInvoices.Some? then q.numberOfInvoices else p.numberOfInvoices,
      if q.invoices.Some? then q.invoices else p.invoices)
  }

  /** The merge keeps the id, changes nothing for an empty patch, and re-applying a patch changes nothing more. */
  lemma MergeLaws(l: Lead, p: LeadPatch, q: LeadPatch)
    ensures Merge(l, p).id == l.id
    ensures Merge(l, NoChange) == l
    ensures Merge(Merge(l, p), p) == Merge(l, p)
    ensures Merge(Merge(l, p), q) == Merge(l, Then(p, q))
  {
  }

  /** A stage-only patch changes the stage and nothing else: no payment stage or demo date is filled in. */
  lemma MergeStageOnly(l: Lead, s: PipelineStage)
    ensures Merge(l, StagePatch(s)) == l.(stage := s)
    ensures Merge(l, StagePatch(s)).paymentStage == l.paymentStage
    ensures Merge(l, StagePatch(s)).demoStartDate == l.demoStartDate
    ensures Merge(l, StagePatch(s)).demoEndDate == l.demoEndDate
  {
  }

  /** `{ ...newLeadData, id, dateAdded }`: the form data with the generated id and timestamp. */
  function Stamped(data: Lead, id: string, dateAdded: string): Lead
  {
    data.(id := id, dateAdded := dateAdded)
  }

  /** `prevLeads.map(lead => lead.id === leadId ? { ...lead, ...updatedData } : lead)`. */
  function Updated(leads: seq<Lead>, leadId: string, p: LeadPatch): (r: seq<Lead>)
    ensures |r| == |leads|
    ensures forall i :: 0 <= i < |leads| ==>
      r[i] == if leads[i].id == leadId then Merge(leads[i], p) else leads[i]
  {
    if leads == [] then []
    else [if leads[0].id == leadId then Merge(leads[0], p) else leads[0]] + Updated(leads[1..], leadId, p)
  }

  /** `prevLeads.filter(lead => lead.id !== leadId)`. */
  function Removed(leads: seq<Lead>, leadId: string): (r: seq<Lead>)
    ensures forall i :: 0 <= i < |r| ==> r[i].id != leadId
  {
    Filter(leads, (l: Lead) => l.id != leadId)
  }

  ghost predicate UniqueIds(leads: seq<Lead>)
  {
    forall i, j :: 0 <= i < j < |leads| ==> leads[i].id != leads[j].id
  }

  /** An update with an id no lead has leaves the list as it was. */
  lemma UpdateUnknownId(leads: seq<Lead>, leadId: string, p: LeadPatch)
    requires forall i :: 0 <= i < |leads| ==> leads[i].id != leadId
    ensures Updated(leads, leadId, p) == leads
  {
  }

  /** An update keeps every id in place, so it keeps the ids unique. */
  lemma UpdateKeepsIds(leads: seq<Lead>, leadId: string, p: LeadPatch)
    ensures forall i :: 0 <= i < |leads| ==> Updated(leads, leadId, p)[i].id == leads[i].id
    ensures UniqueIds(leads) ==> UniqueIds(Updated(leads, leadId, p))
  {
  }

  /**
   * Delete removes every lead with the id, keeps the rest in their order, and
   * keeps every lead with another id, as often as it occurs.
   */
  lemma {:induction false} RemovedSpec(leads: seq<Lead>, leadId: string)
    ensures IsSubseq(Removed(leads, leadId), leads)
    ensures forall i :: 0 <= i < |leads| && leads[i].id != leadId ==> leads[i] in Removed(leads, leadId)
    ensures (forall i :: 0 <= i < |leads| ==> leads[i].id != leadId) ==> Removed(leads, leadId) == leads
    ensures forall l :: multiset(Removed(leads, leadId))[l] == if l.id != leadId then multiset(leads)[l] else 0
  {
    FilterIsSubseq(leads, (l: Lead) => l.id != leadId);
    FilterCounts(leads, (l: Lead) => l.id != leadId);
    if forall i :: 0 <= i < |leads| ==> leads[i].id != leadId {
      FilterAll(leads, (l: Lead) => l.id != leadId);
    }
  }

  lemma {:induction false} RemovedKeepsUnique(leads: seq<Lead>, leadId: string)
    requires UniqueIds(leads)
    ensures UniqueIds(Removed(leads, leadId))
  {
    if leads != [] {
      var rest := Removed(leads[1..], leadId);
      assert UniqueIds(leads[1..]) by {
        forall i, j | 0 <= i < j < |leads[1..]| ensures leads[1..][i].id != leads[1..][j].id {
          assert leads[1..][i] == leads[i + 1] && leads[1..][j] == leads[j + 1];
        }
      }
      RemovedKeepsUnique(leads[1..], leadId);
      if leads[0].id != leadId {
        assert Removed(leads, leadId) == [leads[0]] + rest;
        forall j | 0 <= j < |rest| ensures rest[j].id != leads[0].id {
          var k :| 0 <= k < |leads[1..]| && leads[1..][k] == rest[j];
          assert leads[k + 1] == rest[j];
        }
      } else {
        assert Removed(leads, leadId) == rest;
      }
    }
  }

  /** Adding a lead with a fresh id keeps the ids unique. */
  lemma AddKeepsUnique(leads: seq<Lead>, data: Lead, leadId: string, dateAdded: string)
    requires UniqueIds(leads)
    requires forall i :: 0 <= i < |leads| ==> leads[i].id != leadId
    ensures UniqueIds(leads + [Stamped(data, leadId, dateAdded)])
  {
  }

  /** `leads.find(l => l.id === leadId)`: the first lead with that id. */
  function FindById(leads: seq<Lead>, leadId: string): (r: Option<Lead>)
    ensures r.Some? <==> exists i :: 0 <= i < |leads| && leads[i].id == leadId
    ensures r.Some? ==> exists i :: 0 <= i < |leads| && leads[i] == r.value && leads[i].id == leadId &&
                                    forall j :: 0 <= j < i ==> leads[j].id != leadId
  {
    if leads == [] then None
    else if leads[0].id == leadId then Some(leads[0])
    else
      var r := FindById(leads[1..], leadId);
      assert r.Some? ==> exists i :: 1 <= i < |leads| && leads[i] == r.value && leads[i].id == leadId &&
                                     forall j :: 0 <= j < i ==> leads[j].id != leadId by {
        if r.Some? {
          var k :| 0 <= k < |leads[1..]| && leads[1..][k] == r.value && leads[1..][k].id == leadId &&
                   forall j :: 0 <= j < k ==> leads[1..][j].id != leadId;
          assert leads[k + 1] == r.value;
          forall j | 0 <= j < k + 1 ensures leads[j].id != leadId {
            if j > 0 { assert leads[1..][j - 1] == leads[j]; }
          }
        }
      }
      r
  }

  /** The `leads` state of the hook. */
  class LeadStore {
    var leads: seq<Lead>

    constructor (initial: seq<Lead>)
      ensures leads == initial
    {
      leads := initial;
    }

    /** `addLead`: appends one lead; every earlier lead stays, in order. */
    method AddLead(newLeadData: Lead, newId: string, now: string)
      modifies this
      ensures leads == old(leads) + [Stamped(newLeadData, newId, now)]
      ensures leads[..|old(leads)|] == old(leads)
    {
      leads := leads + [Stamped(newLeadData, newId, now)];
    }

    /** `updateLead`: merges the patch into every lead with the id. */
    method UpdateLead(leadId: string, updatedData: LeadPatch)
      modifies this
      ensures leads == Updated(old(leads), leadId, updatedData)
    {
      leads := Updated(leads, leadId, updatedData);
    }

    /** `deleteLead`: drops every lead with the id. */
    method DeleteLead(leadId: string)
      modifies this
      ensures leads == Removed(old(leads), leadId)
    {
      leads := Removed(leads, leadId);
    }

    /** `exportToCSV`: no output for an empty list, otherwise the CSV text of every lead. */
    method ExportToCsv() returns (csv: Option<string>)
      ensures csv.None? <==> leads == []
      ensures csv.Some? ==> ParseCsv(csv.value) == Some(Rows(leads))
    {
      csv := CsvExport(leads);
      if leads != [] {
        CsvRoundTrip(leads);
      }
    }
  }

  // ---------------------------------------------------------------- CSV text

  /** The thirteen exported fields, in the order of the `headers` array. */
  datatype Column = IdCol | NameCol | ContactCol | TypeCol | StageCol | DateAddedCol | DemoStartDateCol
                  | DemoEndDateCol | PaymentDateCol | NotesCol | SourceCol | ReasonLostDelayCol | RecontactDateCol

  const Headers: seq<Column> := [IdCol, NameCol, ContactCol, TypeCol, StageCol, DateAddedCol, DemoStartDateCol,
                                 DemoEndDateCol, PaymentDateCol, NotesCol, SourceCol, ReasonLostDelayCol, RecontactDateCol]

  function ColumnName(c: Column): string
  {
    match c
    case IdCol => "id"
    case NameCol => "name"
    case ContactCol => "contact"
    case TypeCol => "type"
    case StageCol => "stage"
    case DateAddedCol => "dateAdded"
    case DemoStartDateCol => "demoStartDate"
    case DemoEndDateCol => "demoEndDate"
    case PaymentDateCol => "paymentDate"
    case NotesCol => "notes"
    case SourceCol => "source"
    case ReasonLostDelayCol => "reasonLostDelay"
    case RecontactDateCol => "recontactDate"
  }

  /** `lead[header] || ''`. */
  function CellValue(l: Lead, c: Column): string
  {
    match c
    case IdCol => l.id
    case NameCol => l.name
    case ContactCol => l.contact
    case TypeCol => ClientTypeText(l.clientType)
    case StageCol => StageText(l.stage)
    case DateAddedCol => l.dateAdded
    case DemoStartDateCol => TextOrEmpty(l.demoStartDate)
    case DemoEndDateCol => TextOrEmpty(l.demoEndDate)
    case PaymentDateCol => TextOrEmpty(l.paymentDate)
    case NotesCol => TextOrEmpty(l.notes)
    case SourceCol => l.source
    case ReasonLostDelayCol => if l.reasonLostDelay.Some? then ReasonText(l.reasonLostDelay.value) else ""
    case RecontactDateCol => TextOrEmpty(l.recontactDate)
  }

  /** The values one record carries, one per header. */
  function RowValues(l: Lead): (r: seq<string>)
    ensures |r| == |Headers| == 13
  {
    seq(|Headers|, i requires 0 <= i < |Headers| => CellValue(l, Headers[i]))
  }

  function Rows(leads: seq<Lead>): (r: seq<seq<string>>)
    ensures |r| == |leads|
    ensures forall i :: 0 <= i < |leads| ==> r[i] == RowValues(leads[i])
  {
    if leads == [] then [] else [RowValues(leads[0])] + Rows(leads[1..])
  }

  /** `parts.join(sep)`. */
  function Join(parts: seq<string>, sep: string): string
  {
    if parts == [] then ""
    else if |parts| == 1 then parts[0]
    else parts[0] + sep + Join(parts[1..], sep)
  }

  function HeaderNames(cs: seq<Column>): seq<string>
  {
    if cs == [] then [] else [ColumnName(cs[0])] + HeaderNames(cs[1..])
  }

  /** `headers.join(',')`. */
  function HeaderLine(): string
  {
    Join(HeaderNames(Headers), ",")
  }

  /** `value.replace(/"/g, '""')`. */
  function Escape(s: string): string
  {
    if s == [] then []
    else (if s[0] == '"' then "\"\"" else [s[0]]) + Escape(s[1..])
  }

  /** One cell: the escaped value between double quotes. */
  function Quote(s: string): string
  {
    "\"" + Escape(s) + "\""
  }

  function QuoteAll(cells: seq<string>): (r: seq<string>)
    ensures |r| == |cells|
  {
    if cells == [] then [] else [Quote(cells[0])] + QuoteAll(cells[1..])
  }

  /** One record: the quoted cells joined by commas. */
  function Record(l: Lead): string
  {
    Join(QuoteAll(RowValues(l)), ",")
  }

  function Records(leads: seq<Lead>): (r: seq<string>)
    ensures |r| == |leads|
  {
    if leads == [] then [] else [Record(leads[0])] + Records(leads[1..])
  }

  /** The text of `exportToCSV`, or None where it alerts "No leads to export." and stops. */
  function CsvExport(leads: seq<Lead>): Option<string>
  {
    if |leads| == 0 then None
    else Some(Join([HeaderLine()] + Records(leads), "\n"))
  }

  // -------------------------------------------- reading the CSV text back

  /**
   * Reads the inside of a quoted cell up to its closing quote: `""` stands for
   * one quote, a lone quote ends the cell. Returns the value and what follows.
   */
  function ReadQuotedBody(s: string): (r: Option<(string, string)>)
    ensures r.Some? ==> |r.value.1| < |s|
    decreases |s|
  {
    if s == [] then None
    else if s[0] == '"' then
      if |s| > 1 && s[1] == '"' then
        match ReadQuotedBody(s[2..])
        case None => None
        case Some((v, rest)) => Some(("\"" + v, rest))
      else Some(("", s[1..]))
    else
      match ReadQuotedBody(s[1..])
      case None => None
      case Some((v, rest)) => Some(([s[0]] + v, rest))
  }

  /** Reads comma-separated quoted cells, stopping before anything that is not a comma. */
  function ReadCells(s: string): (r: Option<(seq<string>, string)>)
    ensures r.Some? ==> |r.value.1| < |s|
    decreases |s|
  {
    if |s| == 0 || s[0] != '"' then None
    else
      match ReadQuotedBody(s[1..])
      case None => None
      case Some((v, rest)) =>
        if |rest| > 0 && rest[0] == ',' then
          match ReadCells(rest[1..])
          case None => None
          case Some((vs, r)) => Some(([v] + vs, r))
        else Some(([v], rest))
  }

  /** Reads newline-separated records to the end of the text. */
  function ReadRecords(s: string): Option<seq<seq<string>>>
    decreases |s|
  {
    match ReadCells(s)
    case None => None
    case Some((cells, rest)) =>
      if rest == [] then Some([cells])
      else if rest[0] == '\n' then
        match ReadRecords(rest[1..])
        case None => None
        case Some(rs) => Some([cells] + rs)
      else None
  }

  /** Reads an exported document: the header line, then the records. */
  function ParseCsv(doc: string): Option<seq<seq<string>>>
  {
    var h := HeaderLine() + "\n";
    if h <= doc then ReadRecords(doc[|h|..]) else None
  }

  /** Un-doubling the quotes of an escaped value gives the value back. */
  lemma {:induction false} ReadEscaped(v: string, rest: string)
    requires rest == [] || rest[0] != '"'
    ensures ReadQuotedBody(Escape(v) + "\"" + rest) == Some((v, rest))
  {
    if v == [] {
      assert Escape(v) + "\"" + rest == "\"" + rest;
    } else {
      ReadEscaped(v[1..], rest);
      var tail := Escape(v[1..]) + "\"" + rest;
      if v[0] == '"' {
        assert Escape(v) + "\"" + rest == "\"\"" + tail;
        assert ("\"\"" + tail)[2..] == tail;
        assert "\"" + v[1..] == v;
      } else {
        assert Escape(v) + "\"" + rest == [v[0]] + tail;
        assert ([v[0]] + tail)[1..] == tail;
        assert [v[0]] + v[1..] == v;
      }
    }
  }

  /** The last cell of a record. */
  lemma ReadLastCell(c: string, rest: string)
    requires rest == [] || rest[0] == '\n'
    ensures ReadCells(Quote(c) + rest) == Some(([c], rest))
  {
    var s := Quote(c) + rest;
    assert s[0] == '"';
    assert s[1..] == Escape(c) + "\"" + rest;
    ReadEscaped(c, rest);
  }

  /** A cell followed by a comma and more cells. */
  lemma ReadNextCell(c: string, tail: string, vs: seq<string>, r: string)
    requires ReadCells(tail) == Some((vs, r))
    ensures ReadCells(Quote(c) + "," + tail) == Some(([c] + vs, r))
  {
    var s := Quote(c) + "," + tail;
    assert s[0] == '"';
    assert s[1..] == Escape(c) + "\"" + ("," + tail);
    ReadEscaped(c, "," + tail);
    assert ("," + tail)[1..] == tail;
  }

  lemma {:induction false} ReadRecordLine(cells: seq<string>, rest: string)
    requires |cells| > 0
    requires rest == [] || rest[0] == '\n'
    ensures ReadCells(Join(QuoteAll(cells), ",") + rest) == Some((cells, rest))
  {
    if |cells| == 1 {
      ReadOneCell(cells, rest);
    } else {
      ReadRecordLine(cells[1..], rest);
      ReadConsCell(cells, rest);
    }
  }

  lemma ReadOneCell(cells: seq<string>, rest: string)
    requires |cells| == 1
    requires rest == [] || rest[0] == '\n'
    ensures ReadCells(Join(QuoteAll(cells), ",") + rest) == Some((cells, rest))
  {
    var q := QuoteAll(cells);
    assert q == [Quote(cells[0])];
    ReadLastCell(cells[0], rest);
    assert cells == [cells[0]];
  }

  lemma ReadConsCell(cells: seq<string>, rest: string)
    requires |cells| > 1
    requires ReadCells(Join(QuoteAll(cells[1..]), ",") + rest) == Some((cells[1..], rest))
    ensures ReadCells(Join(QuoteAll(cells), ",") + rest) == Some((cells, rest))
  {
    JoinQuoted(cells, rest);
    ReadNextCell(cells[0], Join(QuoteAll(cells[1..]), ",") + rest, cells[1..], rest);
    assert [cells[0]] + cells[1..] == cells;
  }

  lemma JoinQuoted(cells: seq<string>, rest: string)
    requires |cells| > 1
    ensures Join(QuoteAll(cells), ",") + rest == Quote(cells[0]) + "," + (Join(QuoteAll(cells[1..]), ",") + rest)
  {
    var q := QuoteAll(cells);
    assert q[0] == Quote(cells[0]) && q[1..] == QuoteAll(cells[1..]);
    assert Join(q, ",") == q[0] + "," + Join(q[1..], ",");
    ConcatAssoc(q[0], ",", Join(q[1..], ","), rest);
  }

  lemma ConcatAssoc(a: string, b: string, c: string, d: string)
    ensures (a + b + c) + d == a + b + (c + d)
  {
  }

  lemma {:induction false} ReadAllRecords(leads: seq<Lead>)
    requires |leads| > 0
    ensures ReadRecords(Join(Records(leads), "\n")) == Some(Rows(leads))
  {
    var cells := RowValues(leads[0]);
    if |leads| == 1 {
      assert Join(Records(leads), "\n") == Record(leads[0]) + "";
      ReadRecordLine(cells, "");
      assert Rows(leads) == [cells];
    } else {
      var tail := Join(Records(leads[1..]), "\n");
      assert Records(leads)[1..] == Records(leads[1..]);
      assert Join(Records(leads), "\n") == Record(leads[0]) + ("\n" + tail);
      ReadRecordLine(cells, "\n" + tail);
      assert ("\n" + tail)[1..] == tail;
      ReadAllRecords(leads[1..]);
      assert Rows(leads) == [cells] + Rows(leads[1..]);
    }
  }

  /**
   * The export of a non-empty list is the header line and then one record per
   * lead, in list order; reading it back gives every lead's thirteen values.
   */
  lemma CsvRoundTrip(leads: seq<Lead>)
    requires |leads| > 0
    ensures CsvExport(leads).Some?
    ensures ParseCsv(CsvExport(leads).value) == Some(Rows(leads))
  {
    var h := HeaderLine();
    var body := Join(Records(leads), "\n");
    var parts := [h] + Records(leads);
    assert parts[1..] == Records(leads);
    assert Join(parts, "\n") == h + "\n" + body;
    assert (h + "\n") <= h + "\n" + body;
    assert (h + "\n" + body)[|h + "\n"|..] == body;
    ReadAllRecords(leads);
  }

  /** There is nothing to export from an empty list. */
  lemma CsvEmpty()
    ensures CsvExport([]) == None
  {
  }
}
