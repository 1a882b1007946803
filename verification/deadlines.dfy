// The two exchange-deadline widgets: the deadline calculator (identification
// and replacement-closing deadlines) and the timeline tracker (five
// milestones). Calendar dates are integer day numbers; formatting and time
// zones are outside the model.

module Deadlines {

  /** A calendar day, counted in days from an arbitrary epoch. */
  type Day = int

  /** Days from the relinquished sale to the identification deadline. */
  const IdentificationPeriod: int := 45

  /** Days from the relinquished sale to the replacement-closing deadline. */
  const ExchangePeriod: int := 180

  /** `addDays`: the day `days` calendar days after `base`. The original
      copies its `Date` argument before moving it, so the base is unchanged;
      in this model every value is immutable. */
  function AddDays(base: Day, days: int): (r: Day)
    ensures r - base == days
    ensures days > 0 ==> r > base
  {
    base + days
  }

  /** Moving by `a` and then by `b` days is moving by `a + b` days. */
  lemma AddDaysCompose(base: Day, a: int, b: int)
    ensures AddDays(AddDays(base, a), b) == AddDays(base, a + b)
    ensures AddDays(base, 0) == base
  {
  }

  datatype Deadlines = Deadlines(identifying: Day, closing: Day)

  /** The `deadlines` memo of the deadline calculator. */
  function ComputeDeadlines(base: Day): (d: Deadlines)
    ensures d.identifying == base + IdentificationPeriod
    ensures d.closing == base + ExchangePeriod
    ensures base < d.identifying < d.closing
    ensures d.closing - d.identifying == 135
  {
    Deadlines(AddDays(base, IdentificationPeriod), AddDays(base, ExchangePeriod))
  }

  /** Moving the sale date moves both deadlines by the same amount. */
  lemma DeadlinesShift(base: Day, n: int)
    ensures ComputeDeadlines(base + n).identifying == ComputeDeadlines(base).identifying + n
    ensures ComputeDeadlines(base + n).closing == ComputeDeadlines(base).closing + n
  {
  }

  datatype Milestone = Milestone(name: string, date: Day, notes: string)

  const MilestoneNames: seq<string> := [
    "Sale closed",
    "Identification plan drafted",
    "45 day deadline",
    "Financing and diligence complete",
    "180 day deadline"
  ]

  const MilestoneOffsets: seq<int> := [0, 15, 45, 120, 180]

  const MilestoneNotes: seq<string> := [
    "Funds move directly to the intermediary.",
    "Begin documenting potential replacement properties.",
    "Identification letter delivered to intermediary.",
    "Appraisals, inspections, and lender approvals on file.",
    "Replacement property closing complete."
  ]

  /** Every earlier entry is smaller than every later one. */
  predicate StrictlyIncreasing(s: seq<int>) {
    forall i, j :: 0 <= i < j < |s| ==> s[i] < s[j]
  }

  function Dates(ms: seq<Milestone>): (r: seq<Day>)
    ensures |r| == |ms|
    ensures forall i :: 0 <= i < |ms| ==> r[i] == ms[i].date
  {
    seq(|ms|, i requires 0 <= i < |ms| => ms[i].date)
  }

  /** The `milestones` memo of the timeline tracker: five milestones with
      fixed names in fixed order, strictly later one after another, the
      first on the sale date and the third and fifth on the deadlines the
      deadline calculator shows for the same sale date. */
  function Milestones(base: Day): (ms: seq<Milestone>)
    ensures |ms| == 5
    ensures forall i :: 0 <= i < 5 ==> ms[i].name == MilestoneNames[i]
    ensures forall i :: 0 <= i < 5 ==> ms[i].date == base + MilestoneOffsets[i]
    ensures StrictlyIncreasing(Dates(ms))
    ensures ms[0].date == base
    ensures ms[2].date == ComputeDeadlines(base).identifying
    ensures ms[4].date == ComputeDeadlines(base).closing
  {
    seq(5, i requires 0 <= i < 5 => Milestone(MilestoneNames[i], AddDays(base, MilestoneOffsets[i]), MilestoneNotes[i]))
  }

  /** Milestone names (the `label` fields) are distinct, so they serve as list keys. */
  lemma MilestoneNamesDistinct(base: Day)
    ensures forall i, j :: 0 <= i < j < |Milestones(base)| ==>
      Milestones(base)[i].name != Milestones(base)[j].name
  {
  }

  /** Moving the sale date moves every milestone by the same amount and
      changes neither names nor notes. */
  lemma MilestonesShift(base: Day, n: int)
    ensures forall i :: 0 <= i < 5 ==>
      && Milestones(base + n)[i].date == Milestones(base)[i].date + n
      && Milestones(base + n)[i].name == Milestones(base)[i].name
      && Milestones(base + n)[i].notes == Milestones(base)[i].notes
  {
  }
}
