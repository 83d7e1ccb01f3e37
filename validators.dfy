/**
 * The case-record schema (src/lib/validators.ts): the field constraints of `reportSchema`,
 * `requiredString`, and the three refinements on the dates, as zod applies them.
 *
 * A raw record is what the form hands to the schema: each field is absent, present with
 * the wrong type (a number where text is expected, an invalid date, NaN), or present with
 * a value of the right type. Parsing follows zod's rules for reporting:
 *   - each field is checked in schema order and its issues are collected;
 *   - a missing or mistyped field aborts its object, while a failed length or minimum check
 *     only marks it dirty and keeps its value;
 *   - the refinements run, one after the other, unless a field aborted.
 * The record is accepted when no issue was raised.
 */
module Validators {
  import opened Wrappers
  import opened Types
  import Calculator

  /** A raw field: absent, present with the wrong type, or present with a well-typed value. */
  datatype Field<T> = Missing | Mistyped | Given(value: T)

  /** The object keys of the schema: the record's fields, then its array entries' fields. */
  datatype FieldName =
    | CourtNameKey | PartyAKey | PartyBKey | CmsNoKey | ReportGeneratorKey | CounselNameKey
    | StartDateKey | EndDateKey | RecipientsKey | YearlyIncreaseKey | IncreaseTypeKey
    | OtherAmountsKey | PaymentsKey | PartiallySatisfiedKey | PartialSatisfactionDateKey
    | IdKey | NameKey | RelationshipKey | AmountKey | DescriptionKey | DateKey | ReceivedByKey

  /** One step of an issue's path: an object key or an array index. */
  datatype PathKey = Key(name: FieldName) | Index(i: nat)

  /** A reported problem: where it is and what the user is told. */
  datatype Issue = Issue(path: seq<PathKey>, message: Message)

  /**
   * The outcome of parsing one value: its parsed value unless parsing aborted, and the
   * issues raised, in order. A dirty value has issues but is kept.
   */
  datatype Outcome<T> = Outcome(value: Option<T>, issues: seq<Issue>)

  /** An outcome that aborted always says why. */
  predicate Sound<T>(o: Outcome<T>)
  {
    o.value.None? ==> |o.issues| > 0
  }

  /** A value that parsed with no issue. */
  predicate Clean<T>(o: Outcome<T>)
  {
    o.value.Some? && o.issues == []
  }

  /**
   * Two consecutive fields of an object: both values if neither aborted, and the issues
   * of the first followed by those of the second.
   */
  function Both<A, B>(a: Outcome<A>, b: Outcome<B>): (o: Outcome<(A, B)>)
    ensures Sound(a) && Sound(b) ==> Sound(o)
    ensures Clean(o) <==> Clean(a) && Clean(b)
    ensures o.value.Some? <==> a.value.Some? && b.value.Some?
    ensures o.value.Some? ==> o.value.value == (a.value.value, b.value.value)
    ensures o.issues == a.issues + b.issues
  {
    var issues := a.issues + b.issues;
    if a.value.Some? && b.value.Some? then Outcome(Some((a.value.value, b.value.value)), issues)
    else Outcome(None, issues)
  }

  // ---------------------------------------------------------------------------
  // Messages
  // ---------------------------------------------------------------------------

  /** The messages the schema reports: its own, and zod's where the schema sets none. */
  datatype Message =
    | FieldEmpty               // "یہ خانہ خالی نہیں چھوڑا جا سکتا"
    | ChooseOption             // "براہ کرم منتخب کریں"
    | ChooseDate               // "براہ کرم تاریخ منتخب کریں"
    | EnterAmount              // "رقم ڈالیں"
    | AmountBelowOne           // "رقم 0 سے زیادہ ہونی چاہیے"
    | NoRecipient              // "کم از کم ایک وصول کنندہ شامل کریں"
    | EndNotAfterStart         // "اختتامی تاریخ آغاز کی تاریخ کے بعد ہونی چاہیے"
    | SatisfactionDateMissing  // "جزوی اطمینان کی تاریخ درکار ہے"
    | SatisfactionDateOutside  // "جزوی اطمینان کی تاریخ آغاز اور اختتامی تاریخ کے درمیان ہونی چاہیے"
    | ZodRequired              // zod's "Required"
    | ZodInvalidType           // zod's "Expected …, received …"
    | ZodInvalidEnum           // zod's "Invalid enum value. Expected …, received …"

  // ---------------------------------------------------------------------------
  // Field parsers
  // ---------------------------------------------------------------------------

  /** requiredString: text of at least one character; an empty text is kept but reported. */
  function RequiredText(f: Field<string>, path: seq<PathKey>): (o: Outcome<string>)
    ensures Sound(o)
    ensures Clean(o) <==> f.Given? && |f.value| >= 1
    ensures o.value.Some? <==> f.Given?
    ensures o.value.Some? ==> o.value.value == f.value
  {
    match f
    case Missing => Outcome(None, [Issue(path, FieldEmpty)])
    case Mistyped => Outcome(None, [Issue(path, ZodInvalidType)])
    case Given(s) => Outcome(Some(s), if |s| < 1 then [Issue(path, FieldEmpty)] else [])
  }

  /** z.string(): any text, but it must be there. */
  function PlainText(f: Field<string>, path: seq<PathKey>): (o: Outcome<string>)
    ensures Sound(o)
    ensures Clean(o) <==> f.Given?
    ensures o.value.Some? <==> f.Given?
    ensures o.value.Some? ==> o.value.value == f.value
  {
    match f
    case Missing => Outcome(None, [Issue(path, ZodRequired)])
    case Mistyped => Outcome(None, [Issue(path, ZodInvalidType)])
    case Given(s) => Outcome(Some(s), [])
  }

  /** `.optional()`: an absent field parses as absent; a mistyped one aborts. */
  function Optional<T>(f: Field<T>, path: seq<PathKey>): (o: Outcome<Option<T>>)
    ensures Sound(o)
    ensures Clean(o) <==> !f.Mistyped?
    ensures o.value.Some? <==> !f.Mistyped?
    ensures o.value.Some? ==> o.value.value == (if f.Given? then Some(f.value) else None)
  {
    match f
    case Missing => Outcome(Some(None), [])
    case Mistyped => Outcome(None, [Issue(path, ZodInvalidType)])
    case Given(v) => Outcome(Some(Some(v)), [])
  }

  /** A required value of a plain type (a date or a flag), with the message for its absence. */
  function Required<T>(f: Field<T>, path: seq<PathKey>, requiredMessage: Message): (o: Outcome<T>)
    ensures Sound(o)
    ensures Clean(o) <==> f.Given?
    ensures o.value.Some? <==> f.Given?
    ensures o.value.Some? ==> o.value.value == f.value
    ensures f.Missing? ==> o.issues == [Issue(path, requiredMessage)]
    ensures f.Mistyped? ==> o.issues == [Issue(path, ZodInvalidType)]
  {
    match f
    case Missing => Outcome(None, [Issue(path, requiredMessage)])
    case Mistyped => Outcome(None, [Issue(path, ZodInvalidType)])
    case Given(v) => Outcome(Some(v), [])
  }

  /** A recipient's amount: a number of at least 1; a smaller one is kept but reported. */
  function Amount(f: Field<real>, path: seq<PathKey>): (o: Outcome<real>)
    ensures Sound(o)
    ensures Clean(o) <==> f.Given? && f.value >= 1.0
    ensures o.value.Some? <==> f.Given?
    ensures o.value.Some? ==> o.value.value == f.value
  {
    match f
    case Missing => Outcome(None, [Issue(path, EnterAmount)])
    case Mistyped => Outcome(None, [Issue(path, EnterAmount)])
    case Given(v) => Outcome(Some(v), if v < 1.0 then [Issue(path, AmountBelowOne)] else [])
  }

  /** `.optional().default(0)`: an absent yearly increase is 0. */
  function YearlyIncrease(f: Field<real>, path: seq<PathKey>): (o: Outcome<real>)
    ensures Sound(o)
    ensures Clean(o) <==> !f.Mistyped?
    ensures o.value.Some? <==> !f.Mistyped?
    ensures o.value.Some? ==> o.value.value == (if f.Given? then f.value else 0.0)
  {
    match f
    case Missing => Outcome(Some(0.0), [])
    case Mistyped => Outcome(None, [Issue(path, ZodInvalidType)])
    case Given(v) => Outcome(Some(v), [])
  }

  function GeneratorNamed(s: string): Option<Generator>
  {
    if s == "decree-holder" then Some(DecreeHolder)
    else if s == "judgment-debtor" then Some(JudgmentDebtor)
    else None
  }

  function IncreaseTypeNamed(s: string): Option<IncreaseType>
  {
    if s == "progressive" then Some(Progressive)
    else if s == "fixed" then Some(Fixed)
    else None
  }

  function ReceiverNamed(s: string): Option<Receiver>
  {
    if s == "decree-holder" then Some(ByDecreeHolder)
    else if s == "representative" then Some(ByRepresentative)
    else None
  }

  /** z.enum: one of the listed names, with the message for its absence. */
  function Choice<T>(f: Field<string>, named: string -> Option<T>, path: seq<PathKey>,
                     requiredMessage: Message): (o: Outcome<T>)
    ensures Sound(o)
    ensures Clean(o) <==> f.Given? && named(f.value).Some?
    ensures o.value.Some? <==> f.Given? && named(f.value).Some?
    ensures o.value.Some? ==> o.value == named(f.value)
  {
    match f
    case Missing => Outcome(None, [Issue(path, requiredMessage)])
    case Mistyped => Outcome(None, [Issue(path, ZodInvalidType)])
    case Given(s) =>
      match named(s)
      case Some(v) => Outcome(Some(v), [])
      case None => Outcome(None, [Issue(path, ZodInvalidEnum)])
  }

  /** An optional z.enum. */
  function OptionalChoice<T>(f: Field<string>, named: string -> Option<T>, path: seq<PathKey>): (o: Outcome<Option<T>>)
    ensures Sound(o)
    ensures Clean(o) <==> f.Missing? || (f.Given? && named(f.value).Some?)
    ensures o.value.Some? <==> f.Missing? || (f.Given? && named(f.value).Some?)
    ensures o.value.Some? ==> o.value.value == (if f.Given? then named(f.value) else None)
  {
    match f
    case Missing => Outcome(Some(None), [])
    case Mistyped => Outcome(None, [Issue(path, ZodInvalidType)])
    case Given(s) =>
      match named(s)
      case Some(v) => Outcome(Some(Some(v)), [])
      case None => Outcome(None, [Issue(path, ZodInvalidEnum)])
  }

  // ---------------------------------------------------------------------------
  // Arrays
  // ---------------------------------------------------------------------------

  /**
   * Parses every element at its index; the array aborts when an element aborts, and the
   * elements' issues are reported in order.
   */
  function ParseEach<R(!new), T>(items: seq<R>, parse: (R, seq<PathKey>) -> Outcome<T>, path: seq<PathKey>)
    : (o: Outcome<seq<T>>)
    requires forall x, p :: Sound(parse(x, p))
    ensures Sound(o)
    ensures Clean(o) <==> forall i :: 0 <= i < |items| ==> Clean(parse(items[i], path + [Index(i)]))
    ensures o.value.Some? <==> forall i :: 0 <= i < |items| ==> parse(items[i], path + [Index(i)]).value.Some?
    ensures o.value.Some? ==>
              && |o.value.value| == |items|
              && forall i :: 0 <= i < |items| ==>
                   parse(items[i], path + [Index(i)]).value == Some(o.value.value[i])
  {
    if |items| == 0 then Outcome(Some([]), [])
    else
      var n := |items| - 1;
      var front := ParseEach(items[..n], parse, path);
      var last := parse(items[n], path + [Index(n)]);
      var issues := front.issues + last.issues;
      assert forall i :: 0 <= i < n ==> items[..n][i] == items[i];
      if front.value.Some? && last.value.Some?
      then Outcome(Some(front.value.value + [last.value.value]), issues)
      else Outcome(None, issues)
  }

  /** The recipients array: `.min(1)` is checked before the elements. */
  function Recipients(f: Field<seq<RawRecipient>>, path: seq<PathKey>): (o: Outcome<seq<Recipient>>)
    ensures Sound(o)
    ensures Clean(o) <==>
              && f.Given? && |f.value| >= 1
              && AllRecipientsOk(f.value)
    ensures o.value.Some? <==> f.Given? && AllRecipientsTyped(f.value)
    ensures o.value.Some? ==> o.value.value == RecipientsOf(f.value)
  {
    match f
    case Missing => Outcome(None, [Issue(path, ZodRequired)])
    case Mistyped => Outcome(None, [Issue(path, ZodInvalidType)])
    case Given(items) =>
      var elements := ParseEach(items, ParseRecipient, path);
      var short := if |items| < 1 then [Issue(path, NoRecipient)] else [];
      assert forall i :: 0 <= i < |items| ==>
        (Clean(ParseRecipient(items[i], path + [Index(i)])) <==> RecipientOk(items[i]));
      assert forall i :: 0 <= i < |items| ==>
        (ParseRecipient(items[i], path + [Index(i)]).value.Some? <==> RecipientTyped(items[i]));
      assert elements.value.Some? ==> elements.value.value == RecipientsOf(items);
      Outcome(elements.value, short + elements.issues)
  }

  /** The optional otherAmounts array: absent, or entries each acceptable. */
  predicate OtherAmountsOk(f: Field<seq<RawOtherAmount>>)
  {
    f.Missing? || (f.Given? && AllOtherAmountsOk(f.value))
  }

  function OtherAmounts(f: Field<seq<RawOtherAmount>>, path: seq<PathKey>): (o: Outcome<Option<seq<OtherAmount>>>)
    ensures Sound(o)
    ensures Clean(o) <==> OtherAmountsOk(f)
    ensures o.value.Some? <==> OtherAmountsOk(f)
    ensures Clean(o) ==> o.value.value == (if f.Given? then Some(OtherAmountsOf(f.value)) else None)
  {
    match f
    case Missing => Outcome(Some(None), [])
    case Mistyped => Outcome(None, [Issue(path, ZodInvalidType)])
    case Given(items) =>
      var elements := ParseEach(items, ParseOtherAmount, path);
      assert elements.value.Some? ==> elements.value.value == OtherAmountsOf(items);
      Outcome(if elements.value.Some? then Some(Some(elements.value.value)) else None, elements.issues)
  }

  /** The optional payments array: absent, or entries each acceptable. */
  predicate PaymentsOk(f: Field<seq<RawPayment>>)
  {
    f.Missing? || (f.Given? && AllPaymentsOk(f.value))
  }

  function Payments(f: Field<seq<RawPayment>>, path: seq<PathKey>): (o: Outcome<Option<seq<Payment>>>)
    ensures Sound(o)
    ensures Clean(o) <==> PaymentsOk(f)
    ensures o.value.Some? <==> PaymentsOk(f)
    ensures Clean(o) ==> o.value.value == (if f.Given? then Some(PaymentsOf(f.value)) else None)
  {
    match f
    case Missing => Outcome(Some(None), [])
    case Mistyped => Outcome(None, [Issue(path, ZodInvalidType)])
    case Given(items) =>
      var elements := ParseEach(items, ParsePayment, path);
      assert elements.value.Some? ==> elements.value.value == PaymentsOf(items);
      Outcome(if elements.value.Some? then Some(Some(elements.value.value)) else None, elements.issues)
  }

  // ---------------------------------------------------------------------------
  // Array elements
  // ---------------------------------------------------------------------------

  datatype RawRecipient = RawRecipient(id: Field<string>, name: Field<string>,
                                       relationship: Field<string>, amount: Field<real>)

  datatype RawOtherAmount = RawOtherAmount(id: Field<string>, description: Field<string>, amount: Field<real>)

  datatype RawPayment = RawPayment(id: Field<string>, date: Field<Day>, amount: Field<real>,
                                   receivedBy: Field<string>)

  /** A recipient whose fields all have their types, so that it does not abort. */
  predicate RecipientTyped(r: RawRecipient)
  {
    r.id.Given? && r.name.Given? && r.relationship.Given? && r.amount.Given?
  }

  /** A recipient the schema accepts: an identifier, a name, a relationship and an amount of at least 1. */
  predicate RecipientOk(r: RawRecipient)
  {
    && RecipientTyped(r)
    && |r.name.value| >= 1 && |r.relationship.value| >= 1 && r.amount.value >= 1.0
  }

  function RecipientOf(r: RawRecipient): Recipient
    requires RecipientTyped(r)
  {
    Recipient(r.id.value, r.name.value, r.relationship.value, r.amount.value)
  }

  function ParseRecipient(r: RawRecipient, path: seq<PathKey>): (o: Outcome<Recipient>)
    ensures Sound(o)
    ensures Clean(o) <==> RecipientOk(r)
    ensures o.value.Some? <==> RecipientTyped(r)
    ensures o.value.Some? ==> o.value.value == RecipientOf(r)
  {
    var id := PlainText(r.id, path + [Key(IdKey)]);
    var name := RequiredText(r.name, path + [Key(NameKey)]);
    var relationship := RequiredText(r.relationship, path + [Key(RelationshipKey)]);
    var amount := Amount(r.amount, path + [Key(AmountKey)]);
    var issues := id.issues + name.issues + relationship.issues + amount.issues;
    if id.value.Some? && name.value.Some? && relationship.value.Some? && amount.value.Some?
    then Outcome(Some(Recipient(id.value.value, name.value.value, relationship.value.value, amount.value.value)), issues)
    else Outcome(None, issues)
  }

  /** An other-amount the schema accepts: an identifier and a description; the amount may be absent. */
  predicate OtherAmountOk(a: RawOtherAmount)
  {
    a.id.Given? && a.description.Given? && !a.amount.Mistyped?
  }

  function OtherAmountOf(a: RawOtherAmount): OtherAmount
    requires OtherAmountOk(a)
  {
    OtherAmount(a.id.value, a.description.value, if a.amount.Given? then Some(a.amount.value) else None)
  }

  function ParseOtherAmount(a: RawOtherAmount, path: seq<PathKey>): (o: Outcome<OtherAmount>)
    ensures Sound(o)
    ensures Clean(o) <==> OtherAmountOk(a)
    ensures o.value.Some? <==> OtherAmountOk(a)
    ensures o.value.Some? ==> o.value.value == OtherAmountOf(a)
  {
    var id := PlainText(a.id, path + [Key(IdKey)]);
    var description := PlainText(a.description, path + [Key(DescriptionKey)]);
    var amount := Optional(a.amount, path + [Key(AmountKey)]);
    var issues := id.issues + description.issues + amount.issues;
    if id.value.Some? && description.value.Some? && amount.value.Some?
    then Outcome(Some(OtherAmount(id.value.value, description.value.value, amount.value.value)), issues)
    else Outcome(None, issues)
  }

  /** A payment the schema accepts: an identifier; the date, amount and receiver may be absent. */
  predicate PaymentOk(p: RawPayment)
  {
    && p.id.Given? && !p.date.Mistyped? && !p.amount.Mistyped?
    && (p.receivedBy.Missing? || (p.receivedBy.Given? && ReceiverNamed(p.receivedBy.value).Some?))
  }

  function PaymentOf(p: RawPayment): Payment
    requires PaymentOk(p)
  {
    Payment(p.id.value,
            if p.date.Given? then Some(p.date.value) else None,
            if p.amount.Given? then Some(p.amount.value) else None,
            if p.receivedBy.Given? then ReceiverNamed(p.receivedBy.value) else None)
  }

  function ParsePayment(p: RawPayment, path: seq<PathKey>): (o: Outcome<Payment>)
    ensures Sound(o)
    ensures Clean(o) <==> PaymentOk(p)
    ensures o.value.Some? <==> PaymentOk(p)
    ensures o.value.Some? ==> o.value.value == PaymentOf(p)
  {
    var id := PlainText(p.id, path + [Key(IdKey)]);
    var date := Optional(p.date, path + [Key(DateKey)]);
    var amount := Optional(p.amount, path + [Key(AmountKey)]);
    var receivedBy := OptionalChoice(p.receivedBy, ReceiverNamed, path + [Key(ReceivedByKey)]);
    var issues := id.issues + date.issues + amount.issues + receivedBy.issues;
    if id.value.Some? && date.value.Some? && amount.value.Some? && receivedBy.value.Some?
    then Outcome(Some(Payment(id.value.value, date.value.value, amount.value.value, receivedBy.value.value)), issues)
    else Outcome(None, issues)
  }

  predicate AllRecipientsTyped(rs: seq<RawRecipient>)
  {
    forall i :: 0 <= i < |rs| ==> RecipientTyped(rs[i])
  }

  predicate AllRecipientsOk(rs: seq<RawRecipient>)
  {
    forall i :: 0 <= i < |rs| ==> RecipientOk(rs[i])
  }

  predicate AllOtherAmountsOk(items: seq<RawOtherAmount>)
  {
    forall i :: 0 <= i < |items| ==> OtherAmountOk(items[i])
  }

  predicate AllPaymentsOk(ps: seq<RawPayment>)
  {
    forall i :: 0 <= i < |ps| ==> PaymentOk(ps[i])
  }

  function RecipientsOf(rs: seq<RawRecipient>): (r: seq<Recipient>)
    requires AllRecipientsTyped(rs)
    ensures |r| == |rs| && forall i :: 0 <= i < |rs| ==> r[i] == RecipientOf(rs[i])
  {
    if |rs| == 0 then [] else [RecipientOf(rs[0])] + RecipientsOf(rs[1..])
  }

  function OtherAmountsOf(items: seq<RawOtherAmount>): (r: seq<OtherAmount>)
    requires AllOtherAmountsOk(items)
    ensures |r| == |items| && forall i :: 0 <= i < |items| ==> r[i] == OtherAmountOf(items[i])
  {
    if |items| == 0 then [] else [OtherAmountOf(items[0])] + OtherAmountsOf(items[1..])
  }

  function PaymentsOf(ps: seq<RawPayment>): (r: seq<Payment>)
    requires AllPaymentsOk(ps)
    ensures |r| == |ps| && forall i :: 0 <= i < |ps| ==> r[i] == PaymentOf(ps[i])
  {
    if |ps| == 0 then [] else [PaymentOf(ps[0])] + PaymentsOf(ps[1..])
  }

  // ---------------------------------------------------------------------------
  // The record, in three runs of consecutive fields
  // ---------------------------------------------------------------------------

  datatype RawReport = RawReport(
    courtName: Field<string>,
    partyA: Field<string>,
    partyB: Field<string>,
    cmsNo: Field<string>,
    reportGenerator: Field<string>,
    counselName: Field<string>,
    startDate: Field<Day>,
    endDate: Field<Day>,
    recipients: Field<seq<RawRecipient>>,
    yearlyIncrease: Field<real>,
    increaseType: Field<string>,
    otherAmounts: Field<seq<RawOtherAmount>>,
    payments: Field<seq<RawPayment>>,
    partiallySatisfied: Field<bool>,
    partialSatisfactionDate: Field<Day>)

  predicate NonEmptyText(f: Field<string>)
  {
    f.Given? && |f.value| >= 1
  }

  /** The case fields: courtName, partyA, partyB, cmsNo, reportGenerator, counselName. */
  datatype CaseFields = CaseFields(courtName: string, partyA: string, partyB: string, cmsNo: string,
                                   generator: Generator, counselName: Option<string>)

  /** The four case texts non-empty, a known report generator, and a counsel name that is text if given. */
  predicate CaseOk(raw: RawReport)
  {
    && NonEmptyText(raw.courtName) && NonEmptyText(raw.partyA)
    && NonEmptyText(raw.partyB) && NonEmptyText(raw.cmsNo)
    && raw.reportGenerator.Given? && GeneratorNamed(raw.reportGenerator.value).Some?
    && !raw.counselName.Mistyped?
  }

  function CaseOf(raw: RawReport): CaseFields
    requires CaseOk(raw)
  {
    CaseFields(raw.courtName.value, raw.partyA.value, raw.partyB.value, raw.cmsNo.value,
               GeneratorNamed(raw.reportGenerator.value).value,
               if raw.counselName.Given? then Some(raw.counselName.value) else None)
  }

  function ParseCase(raw: RawReport): (o: Outcome<CaseFields>)
    ensures Sound(o)
    ensures Clean(o) <==> CaseOk(raw)
    ensures Clean(o) ==> o.value.value == CaseOf(raw)
  {
    var fields :=
      Both(Both(Both(Both(Both(
        RequiredText(raw.courtName, [Key(CourtNameKey)]),
        RequiredText(raw.partyA, [Key(PartyAKey)])),
        RequiredText(raw.partyB, [Key(PartyBKey)])),
        RequiredText(raw.cmsNo, [Key(CmsNoKey)])),
        Choice(raw.reportGenerator, GeneratorNamed, [Key(ReportGeneratorKey)], ChooseOption)),
        Optional(raw.counselName, [Key(CounselNameKey)]));
    match fields.value
    case None => Outcome(None, fields.issues)
    case Some((((((courtName, partyA), partyB), cmsNo), generator), counselName)) =>
      Outcome(Some(CaseFields(courtName, partyA, partyB, cmsNo, generator, counselName)), fields.issues)
  }

  /** The terms fields: startDate, endDate, recipients, yearlyIncrease, increaseType. */
  datatype TermsFields = TermsFields(startDate: Day, endDate: Day, recipients: seq<Recipient>,
                                     yearlyIncrease: real, increaseType: IncreaseType)

  /** Both dates; at least one recipient, each acceptable; a number if a yearly increase is given; a known increase type. */
  predicate TermsOk(raw: RawReport)
  {
    && raw.startDate.Given? && raw.endDate.Given?
    && raw.recipients.Given? && |raw.recipients.value| >= 1
    && AllRecipientsOk(raw.recipients.value)
    && !raw.yearlyIncrease.Mistyped?
    && raw.increaseType.Given? && IncreaseTypeNamed(raw.increaseType.value).Some?
  }

  function TermsOf(raw: RawReport): TermsFields
    requires TermsOk(raw)
  {
    TermsFields(raw.startDate.value, raw.endDate.value, RecipientsOf(raw.recipients.value),
                if raw.yearlyIncrease.Given? then raw.yearlyIncrease.value else 0.0,
                IncreaseTypeNamed(raw.increaseType.value).value)
  }

  function ParseTerms(raw: RawReport): (o: Outcome<TermsFields>)
    ensures Sound(o)
    ensures Clean(o) <==> TermsOk(raw)
    ensures Clean(o) ==> o.value.value == TermsOf(raw)
    ensures o.value.Some? ==>
              raw.startDate == Given(o.value.value.startDate) && raw.endDate == Given(o.value.value.endDate)
  {
    var fields :=
      Both(Both(Both(Both(
        Required(raw.startDate, [Key(StartDateKey)], ChooseDate),
        Required(raw.endDate, [Key(EndDateKey)], ChooseDate)),
        Recipients(raw.recipients, [Key(RecipientsKey)])),
        YearlyIncrease(raw.yearlyIncrease, [Key(YearlyIncreaseKey)])),
        Choice(raw.increaseType, IncreaseTypeNamed, [Key(IncreaseTypeKey)], ZodRequired));
    match fields.value
    case None => Outcome(None, fields.issues)
    case Some(((((startDate, endDate), recipients), yearlyIncrease), increaseType)) =>
      Outcome(Some(TermsFields(startDate, endDate, recipients, yearlyIncrease, increaseType)), fields.issues)
  }

  /** The settlement fields: otherAmounts, payments, partiallySatisfied, partialSatisfactionDate. */
  datatype SettlementFields = SettlementFields(otherAmounts: Option<seq<OtherAmount>>,
                                               payments: Option<seq<Payment>>,
                                               partiallySatisfied: bool,
                                               partialSatisfactionDate: Option<Day>)

  /** Each list absent or made of acceptable entries; the flag given; a date if one is given. */
  predicate SettlementOk(raw: RawReport)
  {
    && OtherAmountsOk(raw.otherAmounts) && PaymentsOk(raw.payments)
    && raw.partiallySatisfied.Given?
    && !raw.partialSatisfactionDate.Mistyped?
  }

  function SettlementOf(raw: RawReport): SettlementFields
    requires SettlementOk(raw)
  {
    SettlementFields(
      if raw.otherAmounts.Given? then Some(OtherAmountsOf(raw.otherAmounts.value)) else None,
      if raw.payments.Given? then Some(PaymentsOf(raw.payments.value)) else None,
      raw.partiallySatisfied.value,
      if raw.partialSatisfactionDate.Given? then Some(raw.partialSatisfactionDate.value) else None)
  }

  function ParseSettlement(raw: RawReport): (o: Outcome<SettlementFields>)
    ensures Sound(o)
    ensures Clean(o) <==> SettlementOk(raw)
    ensures Clean(o) ==> o.value.value == SettlementOf(raw)
  {
    var fields :=
      Both(Both(Both(
        OtherAmounts(raw.otherAmounts, [Key(OtherAmountsKey)]),
        Payments(raw.payments, [Key(PaymentsKey)])),
        Required(raw.partiallySatisfied, [Key(PartiallySatisfiedKey)], ZodRequired)),
        Optional(raw.partialSatisfactionDate, [Key(PartialSatisfactionDateKey)]));
    match fields.value
    case None => Outcome(None, fields.issues)
    case Some((((otherAmounts, payments), partiallySatisfied), satisfactionDate)) =>
      Outcome(Some(SettlementFields(otherAmounts, payments, partiallySatisfied, satisfactionDate)), fields.issues)
  }

  function Record(c: CaseFields, t: TermsFields, s: SettlementFields): ReportData
  {
    ReportData(c.courtName, c.partyA, c.partyB, c.cmsNo, c.generator, c.counselName,
               t.startDate, t.endDate, t.recipients, t.yearlyIncrease, t.increaseType,
               s.otherAmounts, s.payments, s.partiallySatisfied, s.partialSatisfactionDate)
  }

  // ---------------------------------------------------------------------------
  // Refinements and the whole schema
  // ---------------------------------------------------------------------------

  /** The three refinements, in order, each reporting its own message at its own path. */
  function RefinementIssues(d: ReportData): (issues: seq<Issue>)
    ensures issues == [] <==> RefinementsHold(d)
  {
    var endAfterStart :=
      if d.endDate > d.startDate then [] else [Issue([Key(EndDateKey)], EndNotAfterStart)];
    var dateGiven :=
      if !d.partiallySatisfied || d.partialSatisfactionDate.Some? then []
      else [Issue([Key(PartialSatisfactionDateKey)], SatisfactionDateMissing)];
    var dateBetween :=
      if d.partiallySatisfied && d.partialSatisfactionDate.Some?
         && !(d.startDate < d.partialSatisfactionDate.value < d.endDate)
      then [Issue([Key(PartialSatisfactionDateKey)], SatisfactionDateOutside)]
      else [];
    endAfterStart + dateGiven + dateBetween
  }

  /** The refinements as one condition on a parsed record. */
  predicate RefinementsHold(d: ReportData)
  {
    && d.startDate < d.endDate
    && (d.partiallySatisfied ==> d.partialSatisfactionDate.Some?)
    && (d.partiallySatisfied && d.partialSatisfactionDate.Some? ==>
          d.startDate < d.partialSatisfactionDate.value < d.endDate)
  }

  /** Every field of the record, in schema order. */
  function Fields(raw: RawReport): (o: Outcome<((CaseFields, TermsFields), SettlementFields)>)
    ensures Sound(o)
    ensures Clean(o) <==> FieldsOk(raw)
  {
    Both(Both(ParseCase(raw), ParseTerms(raw)), ParseSettlement(raw))
  }

  /**
   * reportSchema.safeParse: the record, or every issue found in schema order. When a field
   * aborts, the refinements are not run.
   */
  function Parse(raw: RawReport): (r: Result<ReportData, seq<Issue>>)
    ensures r.Failure? ==> |r.error| > 0
  {
    var fields := Fields(raw);
    match fields.value
    case None => Failure(fields.issues)
    case Some(((caseFields, terms), settlement)) =>
      var d := Record(caseFields, terms, settlement);
      var issues := fields.issues + RefinementIssues(d);
      if issues == [] then Success(d) else Failure(issues)
  }

  /** Every field acceptable on its own, before the refinements. */
  predicate FieldsOk(raw: RawReport)
  {
    CaseOk(raw) && TermsOk(raw) && SettlementOk(raw)
  }

  /** The record that input with acceptable fields stands for; an absent yearly increase is 0. */
  function RecordOf(raw: RawReport): ReportData
    requires FieldsOk(raw)
  {
    Record(CaseOf(raw), TermsOf(raw), SettlementOf(raw))
  }

  /**
   * The three refinements, read off the raw dates: the end date strictly after the start
   * date, and, when the decree is partially satisfied, a satisfaction date strictly between.
   */
  predicate DatesOk(raw: RawReport)
    requires FieldsOk(raw)
  {
    && raw.startDate.value < raw.endDate.value
    && (raw.partiallySatisfied.value ==> raw.partialSatisfactionDate.Given?)
    && (raw.partiallySatisfied.value && raw.partialSatisfactionDate.Given? ==>
          raw.startDate.value < raw.partialSatisfactionDate.value < raw.endDate.value)
  }

  /** The records the schema accepts. */
  predicate Accepts(raw: RawReport)
  {
    FieldsOk(raw) && DatesOk(raw)
  }

  /** The case fields have their types: no case field aborts. */
  predicate CaseTyped(raw: RawReport)
  {
    && raw.courtName.Given? && raw.partyA.Given? && raw.partyB.Given? && raw.cmsNo.Given?
    && raw.reportGenerator.Given? && GeneratorNamed(raw.reportGenerator.value).Some?
    && !raw.counselName.Mistyped?
  }

  /** The terms fields have their types: no terms field or recipient field aborts. */
  predicate TermsTyped(raw: RawReport)
  {
    && raw.startDate.Given? && raw.endDate.Given?
    && raw.recipients.Given? && AllRecipientsTyped(raw.recipients.value)
    && !raw.yearlyIncrease.Mistyped?
    && raw.increaseType.Given? && IncreaseTypeNamed(raw.increaseType.value).Some?
  }

  /** The settlement fields have their types; their lists have no failing check but a type check. */
  predicate SettlementTyped(raw: RawReport)
  {
    && OtherAmountsOk(raw.otherAmounts) && PaymentsOk(raw.payments)
    && raw.partiallySatisfied.Given?
    && !raw.partialSatisfactionDate.Mistyped?
  }

  /** No field of the record aborts, so the refinements are run. */
  predicate FieldsTyped(raw: RawReport)
  {
    CaseTyped(raw) && TermsTyped(raw) && SettlementTyped(raw)
  }

  lemma CaseAborts(raw: RawReport)
    ensures ParseCase(raw).value.Some? <==> CaseTyped(raw)
  {
  }

  lemma TermsAborts(raw: RawReport)
    ensures ParseTerms(raw).value.Some? <==> TermsTyped(raw)
  {
  }

  lemma SettlementAborts(raw: RawReport)
    ensures ParseSettlement(raw).value.Some? <==> SettlementTyped(raw)
  {
  }

  /** The record aborts exactly when some field is missing or has the wrong type. */
  lemma FieldsAbort(raw: RawReport)
    ensures Fields(raw).value.Some? <==> FieldsTyped(raw)
    ensures FieldsOk(raw) ==> FieldsTyped(raw)
  {
    CaseAborts(raw);
    TermsAborts(raw);
    SettlementAborts(raw);
  }

  lemma ParseCleanFields(raw: RawReport)
    requires FieldsOk(raw)
    ensures Parse(raw) == if RefinementsHold(RecordOf(raw)) then Success(RecordOf(raw))
                          else Failure(RefinementIssues(RecordOf(raw)))
  {
    var fields := Fields(raw);
    assert fields == Outcome(Some(((CaseOf(raw), TermsOf(raw)), SettlementOf(raw))), []);
    assert fields.issues + RefinementIssues(RecordOf(raw)) == RefinementIssues(RecordOf(raw));
  }

  lemma ParseDirtyFields(raw: RawReport)
    requires !FieldsOk(raw)
    ensures Parse(raw).Failure?
  {
    assert !Clean(Fields(raw));
  }

  lemma RefinementsOnRaw(raw: RawReport)
    requires FieldsOk(raw)
    ensures RefinementsHold(RecordOf(raw)) <==> DatesOk(raw)
  {
    var d := RecordOf(raw);
    assert d.startDate == raw.startDate.value && d.endDate == raw.endDate.value;
    assert d.partiallySatisfied == raw.partiallySatisfied.value;
    assert d.partialSatisfactionDate ==
      if raw.partialSatisfactionDate.Given? then Some(raw.partialSatisfactionDate.value) else None;
  }

  /** The schema accepts exactly the records `Accepts` describes, and parses them to `RecordOf`. */
  lemma ParseDecides(raw: RawReport)
    ensures Parse(raw).Success? <==> Accepts(raw)
    ensures Parse(raw).Success? ==> FieldsOk(raw) && Parse(raw).value == RecordOf(raw)
  {
    if FieldsOk(raw) {
      ParseCleanFields(raw);
      RefinementsOnRaw(raw);
    } else {
      ParseDirtyFields(raw);
    }
  }

  /** What an accepted record guarantees, read off the parsed record. */
  lemma AcceptedRecord(raw: RawReport)
    requires Parse(raw).Success?
    ensures var d := Parse(raw).value;
            && |d.courtName| >= 1 && |d.partyA| >= 1 && |d.partyB| >= 1 && |d.cmsNo| >= 1
            && d.startDate == raw.startDate.value && d.endDate == raw.endDate.value
            && d.startDate < d.endDate
            && (d.partiallySatisfied ==>
                  && d.partialSatisfactionDate.Some?
                  && d.startDate < d.partialSatisfactionDate.value < d.endDate)
            && |d.recipients| >= 1
            && (forall i :: 0 <= i < |d.recipients| ==>
                  && |d.recipients[i].name| >= 1 && |d.recipients[i].relationship| >= 1
                  && d.recipients[i].amount >= 1.0)
            && d.yearlyIncrease == (if raw.yearlyIncrease.Given? then raw.yearlyIncrease.value else 0.0)
  {
    ParseDecides(raw);
    RefinementsOnRaw(raw);
  }

  /** A record that meets the refinements never starts the walk after its end date. */
  lemma RefinedRecordStartsInRange(d: ReportData)
    requires RefinementsHold(d)
    ensures Calculator.EffectiveStart(d) <= d.endDate
  {
  }

  /** A breakdown that runs from `start` to `end`. */
  predicate Covers(b: seq<YearlyBreakdown>, start: Day, end: Day)
  {
    |b| > 0 && b[0].startDate == start && b[|b| - 1].endDate == end
  }

  /**
   * So every recipient of such a record gets at least one segment, from the effective start
   * to the end date.
   */
  lemma RefinedRecordIsWalked(addYear: Day -> Day, d: ReportData, now: int)
    requires Calculator.Advances(addYear)
    requires RefinementsHold(d)
    ensures var calcs := Calculator.Decree(addYear, d, now).recipientCalculations;
            && |calcs| == |d.recipients|
            && forall i :: 0 <= i < |calcs| ==>
                 Covers(calcs[i].yearlyBreakdown, Calculator.EffectiveStart(d), d.endDate)
  {
    RefinedRecordStartsInRange(d);
    forall r | r in d.recipients
      ensures Covers(Calculator.RecipientResult(addYear, d, r).yearlyBreakdown,
                     Calculator.EffectiveStart(d), d.endDate)
    {
      Calculator.RecipientSpan(addYear, d, r);
    }
    Calculator.DecreeTotals(addYear, d, now);
  }

  /** So every record the schema accepts gives every recipient a non-empty breakdown. */
  lemma AcceptedRecordIsWalked(addYear: Day -> Day, raw: RawReport, now: int)
    requires Calculator.Advances(addYear)
    requires Accepts(raw)
    ensures var d := RecordOf(raw);
            var calcs := Calculator.Decree(addYear, d, now).recipientCalculations;
            && |calcs| == |d.recipients| >= 1
            && forall i :: 0 <= i < |calcs| ==>
                 Covers(calcs[i].yearlyBreakdown, Calculator.EffectiveStart(d), d.endDate)
  {
    RefinementsOnRaw(raw);
    RefinedRecordIsWalked(addYear, RecordOf(raw), now);
  }


  /**
   * Reversed dates are reported whenever no field aborted, even when other fields failed
   * their own length or minimum checks: the refinements still run on such a record.
   */
  lemma ReversedDatesReported(raw: RawReport)
    requires FieldsTyped(raw)
    requires raw.startDate.Given? && raw.endDate.Given? && raw.endDate.value <= raw.startDate.value
    ensures Parse(raw).Failure?
    ensures Issue([Key(EndDateKey)], EndNotAfterStart) in Parse(raw).error
  {
    FieldsAbort(raw);
    var fields := Fields(raw);
    var d := Record(fields.value.value.0.0, fields.value.value.0.1, fields.value.value.1);
    assert RefinementIssues(d)[0] == Issue([Key(EndDateKey)], EndNotAfterStart);
    assert Parse(raw).error == fields.issues + RefinementIssues(d);
    assert Parse(raw).error[|fields.issues|] == Issue([Key(EndDateKey)], EndNotAfterStart);
  }
}
