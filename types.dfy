/**
 * The lead record and its enumerations (types.ts). Every enumeration keeps the
 * text the user interface shows and stores, so that CSV export and the form
 * selects can be stated in the source's own words.
 */
module Types {
  import opened Wrappers

  datatype PipelineStage = NewLead | Contacted | DemoActive | ClosedPaid | Delayed | LostRefused
  datatype PaymentStage = UpfrontInstallment | SecondInstallment | ThirdInstallment | FourthInstallment | Done
  datatype DemoStage = Day1 | Day2 | Day3
  datatype ClientType = PrivateTeacher | Center
  datatype ReasonLostOrDelay = Price | Timing | Competition | NoResponse | Other
  datatype RibType = PrivateRib | CyberOceanRib

  /** One payment: a `YYYY-MM-DD` date and an optional supporting document. */
  datatype Installment = Installment(
    date: string,
    documentName: Option<string>,
    documentContent: Option<string>,
    documentMimeType: Option<string>)

  datatype Invoice = Invoice(
    documentName: Option<string>,
    documentContent: Option<string>,
    documentMimeType: Option<string>)

  /**
   * A lead. Optional TypeScript fields are `Option`s (None is `undefined`);
   * the field `type` is called `clientType` because `type` is a Dafny keyword.
   * Dates are the stored ISO strings.
   */
  datatype Lead = Lead(
    id: string,
    name: string,
    contact: string,
    email: Option<string>,
    clientType: ClientType,
    stage: PipelineStage,
    paymentStage: Option<PaymentStage>,
    dateAdded: string,
    demoStartDate: Option<string>,
    demoEndDate: Option<string>,
    paymentDate: Option<string>,
    notes: Option<string>,
    source: string,
    reasonLostDelay: Option<ReasonLostOrDelay>,
    recontactDate: Option<string>,
    ribType: Option<RibType>,
    numberOfInstallments: Option<int>,
    installments: Option<seq<Installment>>,
    numberOfInvoices: Option<int>,
    invoices: Option<seq<Invoice>>)

  /** JavaScript truthiness of an optional string: present and not empty. */
  predicate Present(o: Option<string>)
  {
    o.Some? && o.value != ""
  }

  /** `n || 0` for an optional number: absent (or NaN) and 0 both read as 0. */
  function CountOr0(n: Option<int>): int
  {
    GetOr(n, 0)
  }

  /** `xs || []` for an optional array. */
  function OrEmpty<T>(xs: Option<seq<T>>): seq<T>
  {
    GetOr(xs, [])
  }

  /** `s || ''` for an optional string. */
  function TextOrEmpty(o: Option<string>): string
  {
    GetOr(o, "")
  }

  function StageOf(l: Lead): PipelineStage { l.stage }
  function PaymentStageOf(l: Lead): Option<PaymentStage> { l.paymentStage }
  function ReasonOf(l: Lead): Option<ReasonLostOrDelay> { l.reasonLostDelay }
  function SourceOf(l: Lead): string { l.source }

  function StageText(s: PipelineStage): string
  {
    match s
    case NewLead => "New Lead"
    case Contacted => "Contacted"
    case DemoActive => "Demo Active"
    case ClosedPaid => "Closed - Paid"
    case Delayed => "Delayed"
    case LostRefused => "Lost - Refused"
  }

  /** Reads the text a stage select produces; None for any other text. */
  function StageFromText(t: string): (r: Option<PipelineStage>)
    ensures r.Some? ==> StageText(r.value) == t
  {
    if t == "New Lead" then Some(NewLead)
    else if t == "Contacted" then Some(Contacted)
    else if t == "Demo Active" then Some(DemoActive)
    else if t == "Closed - Paid" then Some(ClosedPaid)
    else if t == "Delayed" then Some(Delayed)
    else if t == "Lost - Refused" then Some(LostRefused)
    else None
  }

  function PaymentStageText(s: PaymentStage): string
  {
    match s
    case UpfrontInstallment => "Upfront Installment"
    case SecondInstallment => "Second Installment"
    case ThirdInstallment => "Third Installment"
    case FourthInstallment => "Fourth Installment"
    case Done => "Done"
  }

  function DemoStageText(s: DemoStage): string
  {
    match s
    case Day1 => "Day 1"
    case Day2 => "Day 2"
    case Day3 => "Day 3"
  }

  function ClientTypeText(t: ClientType): string
  {
    match t
    case PrivateTeacher => "Private Teacher"
    case Center => "Center"
  }

  function ClientTypeFromText(t: string): (r: Option<ClientType>)
    ensures r.Some? ==> ClientTypeText(r.value) == t
  {
    if t == "Private Teacher" then Some(PrivateTeacher)
    else if t == "Center" then Some(Center)
    else None
  }

  function ReasonText(r: ReasonLostOrDelay): string
  {
    match r
    case Price => "Price"
    case Timing => "Timing"
    case Competition => "Competition"
    case NoResponse => "No Response"
    case Other => "Other"
  }

  function ReasonFromText(t: string): (r: Option<ReasonLostOrDelay>)
    ensures r.Some? ==> ReasonText(r.value) == t
  {
    if t == "Price" then Some(Price)
    else if t == "Timing" then Some(Timing)
    else if t == "Competition" then Some(Competition)
    else if t == "No Response" then Some(NoResponse)
    else if t == "Other" then Some(Other)
    else None
  }

  function RibTypeText(r: RibType): string
  {
    match r
    case PrivateRib => "Private RIB"
    case CyberOceanRib => "Cyber Ocean RIB"
  }

  function RibTypeFromText(t: string): (r: Option<RibType>)
    ensures r.Some? ==> RibTypeText(r.value) == t
  {
    if t == "Private RIB" then Some(PrivateRib)
    else if t == "Cyber Ocean RIB" then Some(CyberOceanRib)
    else None
  }

  /** Each enumeration's text reads back as the same value, so the stored texts identify the values. */
  lemma TextsRoundTrip(s: PipelineStage, t: ClientType, r: ReasonLostOrDelay, b: RibType)
    ensures StageFromText(StageText(s)) == Some(s)
    ensures ClientTypeFromText(ClientTypeText(t)) == Some(t)
    ensures ReasonFromText(ReasonText(r)) == Some(r)
    ensures RibTypeFromText(RibTypeText(b)) == Some(b)
  {
  }
}
