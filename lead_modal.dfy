/**
 * The lead form (components/LeadModal.tsx): the `formData` state, the effect that
 * loads a lead into it, the effect that keeps the installment and invoice lists
 * in step with their counts, and the change handlers of the inputs.
 */
module LeadModal {
  import opened Wrappers
  import opened Types

  // ------------------------------------------------------------ resizing

  /** `Array.from({ length: n }, ...)`: a negative length gives an empty array. */
  function ArrayLength(n: int): nat
  {
    if n < 0 then 0 else n
  }

  /** `Array.from({ length: n }, (_, i) => cur[i] || filler)`: entries are objects, hence never falsy. */
  function Resized<T>(cur: seq<T>, n: int, filler: T): seq<T>
  {
    seq(ArrayLength(n), i requires 0 <= i < ArrayLength(n) => if i < |cur| then cur[i] else filler)
  }

  /**
   * Resizing keeps the entries below both lengths at their index, fills the new
   * slots, leaves a list of the right length as it is, and resizing again to the
   * same count changes nothing.
   */
  lemma ResizedSpec<T>(cur: seq<T>, n: int, filler: T)
    ensures |Resized(cur, n, filler)| == ArrayLength(n)
    ensures forall i :: 0 <= i < |cur| && i < ArrayLength(n) ==> Resized(cur, n, filler)[i] == cur[i]
    ensures forall i :: |cur| <= i < ArrayLength(n) ==> Resized(cur, n, filler)[i] == filler
    ensures ArrayLength(n) <= |cur| ==> Resized(cur, n, filler) == cur[..ArrayLength(n)]
    ensures |cur| == n ==> Resized(cur, n, filler) == cur
    ensures Resized(Resized(cur, n, filler), n, filler) == Resized(cur, n, filler)
  {
  }

  const EmptyInstallment := Installment("", Some(""), None, None)
  const EmptyInvoice := Invoice(Some(""), None, None)

  /** JavaScript truthiness of an optional number (None also stands for NaN). */
  predicate Truthy(n: Option<int>)
  {
    n.Some? && n.value != 0
  }

  // ------------------------------------------------ the normalising effect

  /**
   * One run of the effect on a form that is open. The three conditions read the
   * form as rendered; the updates are applied in order.
   */
  function NormaliseStep(f: Lead): Lead
  {
    var numInstallments := CountOr0(f.numberOfInstallments);
    var currentInstallments := OrEmpty(f.installments);
    var f1 := if |currentInstallments| != numInstallments
              then f.(installments := Some(Resized(currentInstallments, numInstallments, EmptyInstallment)))
              else f;
    if f.ribType == Some(CyberOceanRib) then
      var numInvoices := CountOr0(f.numberOfInvoices);
      var currentInvoices := OrEmpty(f.invoices);
      var f2 := if |currentInvoices| != numInvoices
                then f1.(invoices := Some(Resized(currentInvoices, numInvoices, EmptyInvoice)))
                else f1;
      if Truthy(f.numberOfInvoices) && Truthy(f.numberOfInstallments) &&
         f.numberOfInvoices.value > f.numberOfInstallments.value
      then f2.(numberOfInvoices := f2.numberOfInstallments)
      else f2
    else if |OrEmpty(f.invoices)| != 0 || Truthy(f.numberOfInvoices) then
      f1.(invoices := Some([]), numberOfInvoices := Some(0))
    else f1
  }

  /** The values the effect lists as its dependencies. */
  function Deps(f: Lead): (Option<int>, Option<int>, Option<RibType>)
  {
    (f.numberOfInstallments, f.numberOfInvoices, f.ribType)
  }

  /** After a run, the installment list has the length its count asks for, with the old entries kept by index. */
  lemma StepInstallments(f: Lead)
    ensures var r := OrEmpty(NormaliseStep(f).installments);
            var cur := OrEmpty(f.installments);
            |r| == ArrayLength(CountOr0(f.numberOfInstallments)) &&
            (forall i :: 0 <= i < |r| && i < |cur| ==> r[i] == cur[i]) &&
            (forall i :: |cur| <= i < |r| ==> r[i] == EmptyInstallment)
  {
  }

  /**
   * With the Cyber Ocean RIB the invoice list is resized the same way, and an
   * invoice count above a set installment count is lowered to it.
   */
  lemma StepCyberOceanInvoices(f: Lead)
    requires f.ribType == Some(CyberOceanRib)
    ensures var r := OrEmpty(NormaliseStep(f).invoices);
            var cur := OrEmpty(f.invoices);
            |r| == ArrayLength(CountOr0(f.numberOfInvoices)) &&
            (forall i :: 0 <= i < |r| && i < |cur| ==> r[i] == cur[i]) &&
            (forall i :: |cur| <= i < |r| ==> r[i] == EmptyInvoice)
    ensures NormaliseStep(f).numberOfInvoices ==
      if Truthy(f.numberOfInvoices) && Truthy(f.numberOfInstallments) && f.numberOfInvoices.value > f.numberOfInstallments.value
      then f.numberOfInstallments else f.numberOfInvoices
  {
  }

  /** With any other RIB type, invoices that are present or counted are cleared, and nothing happens otherwise. */
  lemma StepOtherRibInvoices(f: Lead)
    requires f.ribType != Some(CyberOceanRib)
    ensures |OrEmpty(f.invoices)| != 0 || Truthy(f.numberOfInvoices) ==>
      NormaliseStep(f).invoices == Some([]) && NormaliseStep(f).numberOfInvoices == Some(0)
    ensures !(|OrEmpty(f.invoices)| != 0 || Truthy(f.numberOfInvoices)) ==>
      NormaliseStep(f).invoices == f.invoices && NormaliseStep(f).numberOfInvoices == f.numberOfInvoices
  {
  }

  /** A run touches the two lists and the invoice count, and no other field. */
  lemma StepFrame(f: Lead)
    ensures NormaliseStep(f).(installments := f.installments, invoices := f.invoices, numberOfInvoices := f.numberOfInvoices) == f
    ensures NormaliseStep(f).numberOfInstallments == f.numberOfInstallments
    ensures NormaliseStep(f).ribType == f.ribType
  {
  }

  /** A form whose lists have the lengths their counts ask for and whose invoice count is within bounds. */
  predicate Normal(f: Lead)
  {
    |OrEmpty(f.installments)| == CountOr0(f.numberOfInstallments) &&
    if f.ribType == Some(CyberOceanRib) then
      |OrEmpty(f.invoices)| == CountOr0(f.numberOfInvoices) &&
      !(Truthy(f.numberOfInvoices) && Truthy(f.numberOfInstallments) && f.numberOfInvoices.value > f.numberOfInstallments.value)
    else
      |OrEmpty(f.invoices)| == 0 && !Truthy(f.numberOfInvoices)
  }

  /** For counts that are not negative, a run leaves a form as it is exactly when the form is normal. */
  lemma StepFixedExactlyWhenNormal(f: Lead)
    requires CountOr0(f.numberOfInstallments) >= 0 && CountOr0(f.numberOfInvoices) >= 0
    ensures NormaliseStep(f) == f <==> Normal(f)
  {
    StepInstallments(f);
    if f.ribType == Some(CyberOceanRib) {
      StepCyberOceanInvoices(f);
    } else {
      StepOtherRibInvoices(f);
    }
  }

  /**
   * The effect runs once per render whose dependencies changed. After the first
   * run it runs again only if the run changed a dependency; the second run
   * leaves the dependencies as they are, so the effect stops there.
   */
  function AfterEffects(f: Lead): Lead
  {
    var f1 := NormaliseStep(f);
    if Deps(f1) == Deps(f) then f1 else NormaliseStep(f1)
  }

  lemma SecondRunKeepsDeps(f: Lead)
    ensures Deps(NormaliseStep(NormaliseStep(f))) == Deps(NormaliseStep(f))
  {
  }

  /** Once the effect has stopped, a further run would change nothing: the form is at its fixed point. */
  lemma {:induction false} AfterEffectsFixed(f: Lead)
    ensures NormaliseStep(AfterEffects(f)) == AfterEffects(f)
    ensures Deps(NormaliseStep(AfterEffects(f))) == Deps(AfterEffects(f))
  {
    var f1 := NormaliseStep(f);
    StepFrame(f);
    StepInstallments(f);
    StepInstallments(f1);
    if f.ribType == Some(CyberOceanRib) {
      StepCyberOceanInvoices(f);
      StepCyberOceanInvoices(f1);
    } else {
      StepOtherRibInvoices(f);
      StepOtherRibInvoices(f1);
    }
    var g := AfterEffects(f);
    StepFrame(g);
    StepInstallments(g);
    if g.ribType == Some(CyberOceanRib) {
      StepCyberOceanInvoices(g);
    } else {
      StepOtherRibInvoices(g);
    }
    InstallmentsSettled(g);
    InvoicesSettled(f, g);
  }

  /** A run on a form whose installment list already has the asked-for length leaves it alone. */
  lemma InstallmentsSettled(g: Lead)
    ensures |OrEmpty(g.installments)| == CountOr0(g.numberOfInstallments) ==> NormaliseStep(g).installments == g.installments
    ensures CountOr0(g.numberOfInstallments) < 0 && g.installments == Some([]) ==> NormaliseStep(g).installments == g.installments
  {
  }

  lemma InvoicesSettled(f: Lead, g: Lead)
    requires g == AfterEffects(f)
    ensures NormaliseStep(g).invoices == g.invoices
    ensures NormaliseStep(g).numberOfInvoices == g.numberOfInvoices
  {
    if f.ribType == Some(CyberOceanRib) {
      CyberOceanInvoicesSettled(f, g);
    } else {
      OtherRibInvoicesSettled(f, g);
    }
  }

  lemma CyberOceanInvoicesSettled(f: Lead, g: Lead)
    requires f.ribType == Some(CyberOceanRib)
    requires g == AfterEffects(f)
    ensures NormaliseStep(g).invoices == g.invoices
    ensures NormaliseStep(g).numberOfInvoices == g.numberOfInvoices
  {
    StepFrame(f);
    StepCyberOceanInvoices(f);
    StepCyberOceanInvoices(NormaliseStep(f));
  }

  lemma OtherRibInvoicesSettled(f: Lead, g: Lead)
    requires f.ribType != Some(CyberOceanRib)
    requires g == AfterEffects(f)
    ensures NormaliseStep(g).invoices == g.invoices
    ensures NormaliseStep(g).numberOfInvoices == g.numberOfInvoices
  {
    StepFrame(f);
    StepOtherRibInvoices(f);
    StepOtherRibInvoices(NormaliseStep(f));
  }

  // ------------------------------------------------------ loading a lead

  /** `isoString.split('T')[0]`: the text before the first 'T'. */
  function BeforeT(s: string): (r: string)
    ensures r <= s
    ensures 'T' !in r
    ensures |r| < |s| ==> s[|r|] == 'T'
  {
    if s == [] || s[0] == 'T' then [] else [s[0]] + BeforeT(s[1..])
  }

  /** `toInputDate`: the date part of a stored ISO date, '' when there is none. */
  function ToInputDate(iso: Option<string>): (r: string)
    ensures !Present(iso) ==> r == ""
    ensures Present(iso) ==> r <= iso.value && 'T' !in r && (|r| < |iso.value| ==> iso.value[|r|] == 'T')
  {
    if Present(iso) then BeforeT(iso.value) else ""
  }

  /** `initialLeadState`. The form carries no id and no date added; they are '' here. */
  const InitialForm := Lead("", "", "", Some(""), PrivateTeacher, NewLead, None, "", None, None, None, Some(""), "",
                            None, None, None, None, None, None, None)

  function InputDates(insts: seq<Installment>): (r: seq<Installment>)
    ensures |r| == |insts|
    ensures forall i :: 0 <= i < |insts| ==> r[i] == insts[i].(date := ToInputDate(Some(insts[i].date)))
  {
    if insts == [] then [] else [insts[0].(date := ToInputDate(Some(insts[0].date)))] + InputDates(insts[1..])
  }

  /**
   * `{ ...initialLeadState, ...lead, <dates as input dates> }`. A field the lead
   * leaves undefined takes the initial value.
   */
  function LoadedForm(l: Lead): Lead
  {
    l.(email := if l.email.None? then Some("") else l.email,
       notes := if l.notes.None? then Some("") else l.notes,
       demoStartDate := Some(ToInputDate(l.demoStartDate)),
       demoEndDate := Some(ToInputDate(l.demoEndDate)),
       paymentDate := Some(ToInputDate(l.paymentDate)),
       recontactDate := Some(ToInputDate(l.recontactDate)),
       installments := if l.installments.None? then None else Some(InputDates(l.installments.value)))
  }

  /**
   * Loading shows every date as its date part and keeps everything else of the
   * lead: the same number of installments with the same documents, and the same
   * counts, RIB type, stage and texts.
   */
  lemma LoadedFormSpec(l: Lead)
    ensures var f := LoadedForm(l);
      f.id == l.id && f.name == l.name && f.contact == l.contact && f.clientType == l.clientType &&
      f.stage == l.stage && f.paymentStage == l.paymentStage && f.source == l.source &&
      f.reasonLostDelay == l.reasonLostDelay && f.ribType == l.ribType &&
      f.numberOfInstallments == l.numberOfInstallments && f.numberOfInvoices == l.numberOfInvoices &&
      f.invoices == l.invoices && TextOrEmpty(f.email) == TextOrEmpty(l.email) && TextOrEmpty(f.notes) == TextOrEmpty(l.notes)
    ensures var f := LoadedForm(l);
      f.demoStartDate == Some(ToInputDate(l.demoStartDate)) &&
      f.demoEndDate == Some(ToInputDate(l.demoEndDate)) &&
      f.paymentDate == Some(ToInputDate(l.paymentDate)) &&
      f.recontactDate == Some(ToInputDate(l.recontactDate))
    ensures var f := LoadedForm(l);
      f.installments.Some? == l.installments.Some? &&
      (l.installments.Some? ==>
        |f.installments.value| == |l.installments.value| &&
        forall i :: 0 <= i < |l.installments.value| ==>
          f.installments.value[i].documentName == l.installments.value[i].documentName &&
          f.installments.value[i].date == ToInputDate(Some(l.installments.value[i].date)))
  {
  }

  /**
   * What a loaded date field shows: nothing for a missing or empty date, the
   * whole date when it has no time part, and otherwise the text before the 'T'.
   */
  lemma InputDateShown(iso: Option<string>)
    ensures ToInputDate(iso) == "" <==> !Present(iso) || iso.value[0] == 'T'
    ensures Present(iso) && 'T' !in iso.value ==> ToInputDate(iso) == iso.value
    ensures Present(iso) && 'T' in iso.value ==>
      |ToInputDate(iso)| < |iso.value| && ToInputDate(iso) + [iso.value[|ToInputDate(iso)|]] <= iso.value &&
      iso.value[|ToInputDate(iso)|] == 'T' && 'T' !in ToInputDate(iso)
  {
    if Present(iso) {
      var r := ToInputDate(iso);
      var s := iso.value;
      if |r| < |s| {
        assert r + [s[|r|]] == s[..|r| + 1];
      }
    }
  }

  // ------------------------------------------------------ the inputs

  /** The named inputs that call `handleChange`. */
  datatype FormField =
    | NameField | EmailField | TypeField | StageField | SourceField | ReasonLostDelayField
    | DemoStartDateField | DemoEndDateField | PaymentDateField | RecontactDateField | NotesField
    | RibTypeField | NumberOfInstallmentsField | NumberOfInvoicesField

  /** The texts an input can produce: a select yields one of its options, and a count select a number from 1. */
  ghost predicate Offered(field: FormField, value: string)
  {
    match field
    case TypeField => ClientTypeFromText(value).Some?
    case StageField => StageFromText(value).Some?
    case ReasonLostDelayField => value == "" || ReasonFromText(value).Some?
    case RibTypeField => value == "" || RibTypeFromText(value).Some?
    case NumberOfInstallmentsField => value == "" || exists n: nat :: n >= 1 && value == NatText(n)
    case NumberOfInvoicesField => value == "" || exists n: nat :: n >= 1 && value == NatText(n)
    case _ => true
  }

  /** `value === '' ? undefined : value` for an optional text. */
  function OptionalText(value: string): Option<string>
  {
    if value == "" then None else Some(value)
  }

  /** `handleChange`: '' clears the field, the two counts are parsed, every other value is stored as given. */
  function Changed(f: Lead, field: FormField, value: string): Lead
    requires Offered(field, value)
  {
    match field
    case NameField => f.(name := value)
    case EmailField => f.(email := OptionalText(value))
    case TypeField => f.(clientType := ClientTypeFromText(value).value)
    case StageField => f.(stage := StageFromText(value).value)
    case SourceField => f.(source := value)
    case ReasonLostDelayField => f.(reasonLostDelay := if value == "" then None else ReasonFromText(value))
    case DemoStartDateField => f.(demoStartDate := OptionalText(value))
    case DemoEndDateField => f.(demoEndDate := OptionalText(value))
    case PaymentDateField => f.(paymentDate := OptionalText(value))
    case RecontactDateField => f.(recontactDate := OptionalText(value))
    case NotesField => f.(notes := OptionalText(value))
    case RibTypeField => f.(ribType := if value == "" then None else RibTypeFromText(value))
    case NumberOfInstallmentsField => f.(numberOfInstallments := if value == "" then None else ParseInt(value))
    case NumberOfInvoicesField => f.(numberOfInvoices := if value == "" then None else ParseInt(value))
  }

  /** Decimal text of a number, the `value` of a count option. */
  function NatText(n: nat): (r: string)
    ensures |r| >= 1 && forall i :: 0 <= i < |r| ==> IsDigit(r[i])
  {
    if n < 10 then [DigitChar(n)] else NatText(n / 10) + [DigitChar(n % 10)]
  }

  function DigitChar(d: nat): char
    requires d < 10
  {
    ('0' as int + d) as char
  }

  /** The text each input shows for the form (`value={formData.x || ''}` and the like). */
  function Shown(f: Lead, field: FormField): string
  {
    match field
    case NameField => f.name
    case EmailField => TextOrEmpty(f.email)
    case TypeField => ClientTypeText(f.clientType)
    case StageField => StageText(f.stage)
    case SourceField => f.source
    case ReasonLostDelayField => if f.reasonLostDelay.Some? then ReasonText(f.reasonLostDelay.value) else ""
    case DemoStartDateField => TextOrEmpty(f.demoStartDate)
    case DemoEndDateField => TextOrEmpty(f.demoEndDate)
    case PaymentDateField => TextOrEmpty(f.paymentDate)
    case RecontactDateField => TextOrEmpty(f.recontactDate)
    case NotesField => TextOrEmpty(f.notes)
    case RibTypeField => if f.ribType.Some? then RibTypeText(f.ribType.value) else ""
    case NumberOfInstallmentsField =>
      if Truthy(f.numberOfInstallments) && f.numberOfInstallments.value > 0 then NatText(f.numberOfInstallments.value) else ""
    case NumberOfInvoicesField =>
      if Truthy(f.numberOfInvoices) && f.numberOfInvoices.value > 0 then NatText(f.numberOfInvoices.value) else ""
  }

  /**
   * After a change the input shows the value it produced (an optional field
   * becoming `undefined` exactly for ''), every other input
   * shows what it showed before, and the phone number, lists, payment stage and
   * identity of the form are untouched.
   */
  lemma HandleChangeSpec(f: Lead, field: FormField, value: string)
    requires Offered(field, value)
    ensures Shown(Changed(f, field, value), field) == value
    ensures OptionalField(field) ==> (Unset(Changed(f, field, value), field) <==> value == "")
    ensures forall g: FormField :: g != field ==> Shown(Changed(f, field, value), g) == Shown(f, g)
    ensures var c := Changed(f, field, value);
      c.id == f.id && c.dateAdded == f.dateAdded && c.contact == f.contact && c.paymentStage == f.paymentStage &&
      c.installments == f.installments && c.invoices == f.invoices
  {
    ChangedShowsValue(f, field, value);
    forall g: FormField | g != field
      ensures Shown(Changed(f, field, value), g) == Shown(f, g)
    {
      ChangedKeepsOthers(f, field, value, g);
    }
  }

  /** The inputs whose field is optional: '' stores `undefined` there. */
  predicate OptionalField(field: FormField)
  {
    !(field.NameField? || field.TypeField? || field.StageField? || field.SourceField?)
  }

  /** The optional field behind `field` is `undefined`. */
  predicate Unset(f: Lead, field: FormField)
  {
    match field
    case EmailField => f.email.None?
    case ReasonLostDelayField => f.reasonLostDelay.None?
    case DemoStartDateField => f.demoStartDate.None?
    case DemoEndDateField => f.demoEndDate.None?
    case PaymentDateField => f.paymentDate.None?
    case RecontactDateField => f.recontactDate.None?
    case NotesField => f.notes.None?
    case RibTypeField => f.ribType.None?
    case NumberOfInstallmentsField => f.numberOfInstallments.None?
    case NumberOfInvoicesField => f.numberOfInvoices.None?
    case _ => false
  }

  /**
   * The changed input shows the new value, and an optional field becomes
   * `undefined` exactly when the new value is ''.
   */
  lemma ChangedShowsValue(f: Lead, field: FormField, value: string)
    requires Offered(field, value)
    ensures Shown(Changed(f, field, value), field) == value
    ensures OptionalField(field) ==> (Unset(Changed(f, field, value), field) <==> value == "")
  {
    if field == NumberOfInstallmentsField || field == NumberOfInvoicesField {
      if value != "" {
        var n: nat :| n >= 1 && value == NatText(n);
        ParseIntNatText(n);
      }
    }
  }

  /** Choosing the count option `n` stores the number `n`. */
  lemma ChangedStoresCount(f: Lead, n: nat)
    requires n >= 1
    ensures Changed(f, NumberOfInstallmentsField, NatText(n)).numberOfInstallments == Some(n)
    ensures Changed(f, NumberOfInvoicesField, NatText(n)).numberOfInvoices == Some(n)
  {
    ParseIntNatText(n);
  }

  lemma ChangedKeepsOthers(f: Lead, field: FormField, value: string, g: FormField)
    requires Offered(field, value)
    requires g != field
    ensures Shown(Changed(f, field, value), g) == Shown(f, g)
  {
    var c := Changed(f, field, value);
    match field
    case NumberOfInstallmentsField => assert c == f.(numberOfInstallments := c.numberOfInstallments);
    case NumberOfInvoicesField => assert c == f.(numberOfInvoices := c.numberOfInvoices);
    case _ =>
  }

  // ------------------------------------------------------ parseInt

  predicate IsDigit(c: char)
  {
    '0' <= c <= '9'
  }

  /** The white space `parseInt` skips. */
  predicate IsSpace(c: char)
  {
    c == ' ' || c == '\t' || c == '\n' || c == '\r' || c == '\U{000B}' || c == '\U{000C}' ||
    c == '\U{00A0}' || c == '\U{FEFF}' || c == '\U{2028}' || c == '\U{2029}'
  }

  function TrimStart(s: string): (r: string)
    ensures |r| <= |s| && r == s[|s| - |r|..]
    ensures forall i :: 0 <= i < |s| - |r| ==> IsSpace(s[i])
    ensures r == [] || !IsSpace(r[0])
  {
    if s != [] && IsSpace(s[0]) then TrimStart(s[1..]) else s
  }

  /** The longest prefix of decimal digits. */
  function DigitRun(s: string): (r: string)
    ensures r <= s
    ensures forall i :: 0 <= i < |r| ==> IsDigit(r[i])
    ensures |r| < |s| ==> !IsDigit(s[|r|])
  {
    if s != [] && IsDigit(s[0]) then [s[0]] + DigitRun(s[1..]) else []
  }

  function DigitsValue(ds: string): nat
    requires forall i :: 0 <= i < |ds| ==> IsDigit(ds[i])
  {
    if ds == [] then 0
    else
      assert IsDigit(ds[|ds| - 1]);
      DigitsValue(ds[..|ds| - 1]) * 10 + DigitValue(ds[|ds| - 1])
  }

  function DigitValue(c: char): nat
    requires IsDigit(c)
  {
    c as int - '0' as int
  }

  /** `parseInt(value, 10)`, with None for NaN: leading white space is skipped first. */
  function ParseInt(value: string): Option<int>
  {
    ParseTrimmed(TrimStart(value))
  }

  /** An optional sign, then the run of digits. */
  function ParseTrimmed(t: string): Option<int>
  {
    var negative := |t| > 0 && t[0] == '-';
    var unsigned := if |t| > 0 && (t[0] == '-' || t[0] == '+') then t[1..] else t;
    var ds := DigitRun(unsigned);
    var magnitude: int := DigitsValue(ds);
    if ds == [] then None
    else if negative then Some(-magnitude)
    else Some(magnitude)
  }

  lemma {:induction false} DigitsValueNatText(n: nat)
    ensures DigitsValue(NatText(n)) == n
  {
    if n >= 10 {
      DigitsValueNatText(n / 10);
      var t := NatText(n);
      assert t[..|t| - 1] == NatText(n / 10);
    }
  }

  /** The number a count option stands for reads back as itself. */
  lemma {:induction false} ParseIntNatText(n: nat)
    ensures ParseInt(NatText(n)) == Some(n)
  {
    var t := NatText(n);
    DigitsValueNatText(n);
    assert TrimStart(t) == t;
    assert DigitRun(t) == t;
  }

  /** A sign in front of a run of digits is read as the sign of the number. */
  lemma {:induction false} ParseIntSign(t: string, sign: char)
    requires |t| > 0 && forall i :: 0 <= i < |t| ==> IsDigit(t[i])
    requires sign == '-' || sign == '+'
    ensures ParseInt([sign] + t) == Some(if sign == '-' then -(DigitsValue(t) as int) else DigitsValue(t))
  {
    DigitRunPrefix(t, "");
    assert t + "" == t;
    var m := [sign] + t;
    assert m[0] == sign && !IsSpace(sign);
    assert TrimStart(m) == m;
    assert m[1..] == t;
    SignedValue(m, t);
  }

  lemma SignedValue(m: string, t: string)
    requires |m| > 0 && (m[0] == '-' || m[0] == '+') && m[1..] == t
    requires t != [] && DigitRun(t) == t
    ensures ParseTrimmed(m) == Some(if m[0] == '-' then -(DigitsValue(t) as int) else DigitsValue(t))
  {
    var unsigned := if |m| > 0 && (m[0] == '-' || m[0] == '+') then m[1..] else m;
    assert unsigned == t;
  }

  /** Leading white space is skipped. */
  lemma {:induction false} ParseIntSpace(t: string)
    ensures ParseInt(" " + t) == ParseInt(t)
  {
    TrimSpace(t);
  }

  lemma {:induction false} TrimSpace(t: string)
    ensures TrimStart(" " + t) == TrimStart(t)
  {
    assert (" " + t)[1..] == t;
  }

  /** The digits stop at the first other character, and a text without digits is NaN. */
  lemma {:induction false} ParseIntPrefix(n: nat, rest: string)
    requires rest == [] || !IsDigit(rest[0])
    ensures ParseInt(NatText(n) + rest) == Some(n)
  {
    var t := NatText(n);
    var m := t + rest;
    assert m[0] == t[0];
    TrimNoSpace(m);
    DigitRunPrefix(t, rest);
    ParseUnsigned(m);
    DigitsValueNatText(n);
  }

  lemma TrimNoSpace(m: string)
    requires m == [] || !IsSpace(m[0])
    ensures TrimStart(m) == m
  {
  }

  lemma ParseUnsigned(m: string)
    requires |m| > 0 && IsDigit(m[0])
    ensures ParseTrimmed(m) == Some(DigitsValue(DigitRun(m)) as int)
  {
    assert m[0] != '-' && m[0] != '+';
    assert DigitRun(m) == [m[0]] + DigitRun(m[1..]);
  }

  /** A text without leading digits is NaN. */
  lemma {:induction false} ParseIntNoDigits(value: string)
    requires value == [] || (!IsDigit(value[0]) && !IsSpace(value[0]) && value[0] != '-' && value[0] != '+')
    ensures ParseInt(value) == None
  {
    assert TrimStart(value) == value;
    assert DigitRun(value) == [];
  }

  lemma {:induction false} DigitRunPrefix(t: string, rest: string)
    requires forall i :: 0 <= i < |t| ==> IsDigit(t[i])
    requires rest == [] || !IsDigit(rest[0])
    ensures DigitRun(t + rest) == t
  {
    if t != [] {
      DigitRunPrefix(t[1..], rest);
      assert (t + rest)[1..] == t[1..] + rest;
    } else {
      assert t + rest == rest;
    }
  }

  // ------------------------------------------------------ installment dates

  /** `handleInstallmentDateChange`: the installment at `index` gets the new date. */
  function WithInstallmentDate(f: Lead, index: nat, value: string): Lead
    requires index < |OrEmpty(f.installments)|
  {
    var insts := OrEmpty(f.installments);
    f.(installments := Some(insts[index := insts[index].(date := value)]))
  }

  /** Only the date of that installment changes: same length, same documents, same other entries, same form. */
  lemma InstallmentDateSpec(f: Lead, index: nat, value: string)
    requires index < |OrEmpty(f.installments)|
    ensures var r := OrEmpty(WithInstallmentDate(f, index, value).installments);
            var insts := OrEmpty(f.installments);
            |r| == |insts| && r[index].date == value &&
            r[index].(date := insts[index].date) == insts[index] &&
            forall i :: 0 <= i < |r| && i != index ==> r[i] == insts[i]
    ensures WithInstallmentDate(f, index, value).(installments := f.installments) == f
  {
  }

  // ------------------------------------------------------ the component state

  /**
   * The modal's form state. `isOpen` is the prop, and no handler changes it.
   * App.tsx mounts the modal only while it is open, so inside the app the
   * closed branches of LoadEffect and NormaliseEffect are not reached; they
   * describe the component on its own.
   */
  class LeadForm {
    var isOpen: bool
    var formData: Lead

    constructor (isOpen: bool)
      ensures this.isOpen == isOpen && formData == InitialForm
    {
      this.isOpen := isOpen;
      formData := InitialForm;
    }

    /** The first effect: on opening, load the lead being edited, or the blank form. */
    method LoadEffect(lead: Option<Lead>)
      modifies this
      ensures isOpen == old(isOpen)
      ensures formData == if !isOpen then old(formData) else if lead.Some? then LoadedForm(lead.value) else InitialForm
    {
      if isOpen {
        if lead.Some? {
          formData := LoadedForm(lead.value);
        } else {
          formData := InitialForm;
        }
      }
    }

    /** The second effect: queues its updates on `prev`, each guarded by the rendered form. */
    method NormaliseEffect()
      modifies this
      ensures isOpen == old(isOpen)
      ensures formData == if isOpen then NormaliseStep(old(formData)) else old(formData)
    {
      if !isOpen {
        return;
      }
      var rendered := formData;
      var numInstallments := CountOr0(rendered.numberOfInstallments);
      var currentInstallments := OrEmpty(rendered.installments);
      if |currentInstallments| != numInstallments {
        var newInstallments := Resized(currentInstallments, numInstallments, EmptyInstallment);
        formData := formData.(installments := Some(newInstallments));
      }
      if rendered.ribType == Some(CyberOceanRib) {
        var numInvoices := CountOr0(rendered.numberOfInvoices);
        var currentInvoices := OrEmpty(rendered.invoices);
        if |currentInvoices| != numInvoices {
          var newInvoices := Resized(currentInvoices, numInvoices, EmptyInvoice);
          formData := formData.(invoices := Some(newInvoices));
        }
        if Truthy(rendered.numberOfInvoices) && Truthy(rendered.numberOfInstallments) &&
           rendered.numberOfInvoices.value > rendered.numberOfInstallments.value {
          formData := formData.(numberOfInvoices := formData.numberOfInstallments);
        }
      } else if |OrEmpty(rendered.invoices)| != 0 || Truthy(rendered.numberOfInvoices) {
        formData := formData.(invoices := Some([]), numberOfInvoices := Some(0));
      }
    }

    method HandleChange(field: FormField, value: string)
      requires Offered(field, value)
      modifies this
      ensures isOpen == old(isOpen)
      ensures formData == Changed(old(formData), field, value)
    {
      formData := Changed(formData, field, value);
    }

    /** `handlePhoneChange`: the phone input reports undefined when cleared. */
    method HandlePhoneChange(value: Option<string>)
      modifies this
      ensures isOpen == old(isOpen)
      ensures formData == old(formData).(contact := TextOrEmpty(value))
    {
      formData := formData.(contact := TextOrEmpty(value));
    }

    method HandleInstallmentDateChange(index: nat, value: string)
      requires index < |OrEmpty(formData.installments)|
      modifies this
      ensures isOpen == old(isOpen)
      ensures formData == WithInstallmentDate(old(formData), index, value)
    {
      var newInstallments := OrEmpty(formData.installments);
      newInstallments := newInstallments[index := newInstallments[index].(date := value)];
      formData := formData.(installments := Some(newInstallments));
    }
  }
}
