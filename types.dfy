/**
 * The records the decree tool passes around (src/lib/types.ts): a case record as the
 * validator produces it, a stored report, and the calculated report the engine returns.
 *
 * Dates are whole day numbers (day 0 is any fixed day; only differences matter) and
 * money is an exact `real`.
 */
module Types {
  import opened Wrappers

  /** A calendar day, counted in days. */
  type Day = int

  /** Who prepares the report: `decree-holder` or `judgment-debtor`. */
  datatype Generator = DecreeHolder | JudgmentDebtor

  /** `progressive` compounds the yearly increase; `fixed` adds a share of the base each year. */
  datatype IncreaseType = Progressive | Fixed

  /** Who received a payment: `decree-holder` or `representative`. */
  datatype Receiver = ByDecreeHolder | ByRepresentative

  /** One person the maintenance is owed to, with the monthly base amount. */
  datatype Recipient = Recipient(id: string, name: string, relationship: string, amount: real)

  /** A one-off decretal amount; its amount may be absent. */
  datatype OtherAmount = OtherAmount(id: string, description: string, amount: Option<real>)

  /** A payment already made; its date and amount may be absent. */
  datatype Payment = Payment(id: string, date: Option<Day>, amount: Option<real>, receivedBy: Option<Receiver>)

  /** A case record as the validator returns it (the report without `id` and `createdAt`). */
  datatype ReportData = ReportData(
    courtName: string,
    partyA: string,
    partyB: string,
    cmsNo: string,
    reportGenerator: Generator,
    counselName: Option<string>,
    startDate: Day,
    endDate: Day,
    recipients: seq<Recipient>,
    yearlyIncrease: real,
    increaseType: IncreaseType,
    otherAmounts: Option<seq<OtherAmount>>,
    payments: Option<seq<Payment>>,
    partiallySatisfied: bool,
    partialSatisfactionDate: Option<Day>)

  /** A stored report: the case record with its identifier and creation timestamp. */
  datatype Report = Report(id: string, createdAt: string, data: ReportData)

  /**
   * What reading a key of the browser's storage gave: nothing (or an empty text), a text
   * that does not parse, or a parsed value.
   */
  datatype Stored<T> = NothingStored | Unreadable | Stored(value: T)

  /** One segment of a recipient's schedule, at most one anniversary year long. */
  datatype YearlyBreakdown = YearlyBreakdown(
    year: string,
    startDate: Day,
    endDate: Day,
    basicAmount: real,
    increasedAmount: real,
    durationDisplay: string,
    totalPeriod: real)

  /** What the engine computes for one recipient. */
  datatype RecipientCalculation = RecipientCalculation(
    name: string,
    relationship: string,
    baseAmount: real,
    increaseType: IncreaseType,
    yearlyIncrease: real,
    totalRecipientAmount: real,
    currentMonthAmount: real,
    yearlyBreakdown: seq<YearlyBreakdown>)

  datatype CaseDetails = CaseDetails(courtName: string, partyA: string, partyB: string, cmsNo: string)

  datatype GeneratorDetails = GeneratorDetails(generatedBy: Generator, counselName: string)

  datatype Period = Period(startDate: Day, endDate: Day, periodDisplay: string)

  datatype PartialSatisfaction = PartialSatisfaction(date: Day, effectiveStartDate: Day)

  datatype Summary = Summary(
    grandTotalMaintenance: real,
    totalOtherAmounts: real,
    totalDecretalAmountBeforePayments: real,
    totalPayments: real,
    finalOutstandingAmount: real)

  /** The engine's output. `createdAt` is the caller's clock reading. */
  datatype CalculatedReport = CalculatedReport(
    caseDetails: CaseDetails,
    reportGenerator: GeneratorDetails,
    period: Period,
    partialSatisfaction: Option<PartialSatisfaction>,
    recipientCalculations: seq<RecipientCalculation>,
    otherAmounts: seq<OtherAmount>,
    payments: seq<Payment>,
    summary: Summary,
    createdAt: int)
}
