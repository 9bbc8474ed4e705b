/** The rows the predictor works on: tickets, labelled tickets and encoded feature rows. */
module Tickets {

  /** One service ticket, as the predictor receives it; age and interactions default to 0, as `predict` does. */
  datatype Ticket = Ticket(
    category: string,
    priority: string,
    assignedTeam: string,
    complexityScore: real,
    requestAgeHours: real := 0.0,
    previousInteractions: int := 0)

  /** A training row: a ticket and its resolution time in hours. */
  datatype LabeledTicket = LabeledTicket(ticket: Ticket, resolutionHours: real)

  /**
   * The six columns the regressor sees, in their fixed order: the three
   * encoded categoricals, then complexity, age and interactions.
   */
  datatype FeatureRow = FeatureRow(
    categoryCode: int,
    priorityCode: int,
    teamCode: int,
    complexityScore: real,
    requestAgeHours: real,
    previousInteractions: int)

  /** The lowest resolution time the predictor ever reports or trains on. */
  const MinHours: real := 0.5

  /** `max(x, 0.5)`: the value itself unless it lies below the floor. */
  function AtLeastMin(x: real): (r: real)
    ensures r >= MinHours
    ensures x >= MinHours ==> r == x
    ensures x < MinHours ==> r == MinHours
  {
    if MinHours > x then MinHours else x
  }

  function CategoryColumn(ts: seq<Ticket>): seq<string> {
    seq(|ts|, i requires 0 <= i < |ts| => ts[i].category)
  }

  function PriorityColumn(ts: seq<Ticket>): seq<string> {
    seq(|ts|, i requires 0 <= i < |ts| => ts[i].priority)
  }

  function TeamColumn(ts: seq<Ticket>): seq<string> {
    seq(|ts|, i requires 0 <= i < |ts| => ts[i].assignedTeam)
  }

  function TicketsOf(table: seq<LabeledTicket>): seq<Ticket> {
    seq(|table|, i requires 0 <= i < |table| => table[i].ticket)
  }

  function LabelsOf(table: seq<LabeledTicket>): seq<real> {
    seq(|table|, i requires 0 <= i < |table| => table[i].resolutionHours)
  }
}
