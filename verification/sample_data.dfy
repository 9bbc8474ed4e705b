/**
 * The synthetic training table of `generate_sample_data`. The random
 * draws (choices from the fixed value lists, uniform numerics and the
 * Gaussian noise) are inputs; the label formula and its clamp are modelled.
 */
module SampleData {
  import opened Tickets

  /** Rows generated when `train` is called without a table. */
  const SampleSize: nat := 500

  const CategoryNames: seq<string> :=
    ["Hardware", "Software", "Network", "Database", "Security", "Application"]
  const PriorityNames: seq<string> := ["Low", "Medium", "High", "Critical"]
  const TeamNames: seq<string> :=
    ["IT Support", "Development", "Network Team", "Database Team", "Security Team"]

  /** Base resolution time in hours before any multiplier. */
  const BaseHours: real := 2.0

  function PriorityMultiplier(priority: string): real
    requires priority in PriorityNames
  {
    if priority == "Critical" then 0.5
    else if priority == "High" then 1.0
    else if priority == "Medium" then 2.0
    else 4.0
  }

  function CategoryMultiplier(category: string): real
    requires category in CategoryNames
  {
    if category == "Hardware" then 1.5
    else if category == "Software" then 1.2
    else if category == "Network" then 2.0
    else if category == "Database" then 2.5
    else if category == "Security" then 3.0
    else 1.8
  }

  /**
   * One row's random draws: positions in the three value lists, the three
   * numeric features (complexity uniform in [1, 10), age uniform in
   * [0, 168), interactions uniform in 0..9) and the Gaussian noise added to
   * the label.
   */
  datatype Draw = Draw(
    category: nat,
    priority: nat,
    team: nat,
    complexityScore: real,
    requestAgeHours: real,
    previousInteractions: int,
    noise: real)

  /** The categorical draws pick from the fixed lists. */
  predicate Picks(d: Draw) {
    d.category < |CategoryNames| && d.priority < |PriorityNames| && d.team < |TeamNames|
  }

  /** The label before noise: base time scaled by every multiplier. */
  function NoiseFreeHours(category: string, priority: string, complexity: real, interactions: int): real
    requires category in CategoryNames && priority in PriorityNames
  {
    BaseHours * PriorityMultiplier(priority) * CategoryMultiplier(category)
      * (1.0 + complexity / 10.0) * (1.0 + interactions as real / 20.0)
  }

  function TicketOf(d: Draw): (t: Ticket)
    requires Picks(d)
    ensures t.category in CategoryNames && t.priority in PriorityNames && t.assignedTeam in TeamNames
  {
    Ticket(CategoryNames[d.category], PriorityNames[d.priority], TeamNames[d.team],
           d.complexityScore, d.requestAgeHours, d.previousInteractions)
  }

  /** `generate_sample_data(len(draws))` for the given random draws. */
  function Generate(draws: seq<Draw>): (table: seq<LabeledTicket>)
    requires forall i :: 0 <= i < |draws| ==> Picks(draws[i])
    ensures |table| == |draws|
    ensures forall i :: 0 <= i < |table| ==>
              var t := table[i].ticket;
              && t.category in CategoryNames
              && t.priority in PriorityNames
              && t.assignedTeam in TeamNames
              && t.complexityScore == draws[i].complexityScore
              && t.requestAgeHours == draws[i].requestAgeHours
              && t.previousInteractions == draws[i].previousInteractions
    ensures forall i :: 0 <= i < |table| ==>
              var t := table[i].ticket;
              var exact := NoiseFreeHours(t.category, t.priority, t.complexityScore, t.previousInteractions)
                           + draws[i].noise;
              && table[i].resolutionHours >= MinHours
              && (exact >= MinHours ==> table[i].resolutionHours == exact)
              && (exact < MinHours ==> table[i].resolutionHours == MinHours)
  {
    seq(|draws|, i requires 0 <= i < |draws| =>
      var t := TicketOf(draws[i]);
      LabeledTicket(t, AtLeastMin(NoiseFreeHours(t.category, t.priority, t.complexityScore,
                                                 t.previousInteractions) + draws[i].noise)))
  }

  lemma ScaleStrict(a: real, b: real, k: real)
    requires a < b && k > 0.0
    ensures a * k < b * k
  {
  }

  /** The noise-free label splits into the priority multiplier times a positive factor. */
  lemma NoiseFreeFactors(category: string, priority: string, complexity: real, interactions: int)
    requires category in CategoryNames && priority in PriorityNames
    requires complexity > -10.0 && interactions > -20
    ensures var rest := BaseHours * CategoryMultiplier(category)
                        * (1.0 + complexity / 10.0) * (1.0 + interactions as real / 20.0);
            && rest > 0.0
            && NoiseFreeHours(category, priority, complexity, interactions)
               == PriorityMultiplier(priority) * rest
  {
    var a := 1.0 + complexity / 10.0;
    var b := 1.0 + interactions as real / 20.0;
    var c := CategoryMultiplier(category);
    assert c > 0.0 && a > 0.0 && b > 0.0;
    assert BaseHours * c > 0.0;
    assert BaseHours * c * a > 0.0 by { ScaleStrict(0.0, BaseHours * c, a); }
    assert BaseHours * c * a * b > 0.0 by { ScaleStrict(0.0, BaseHours * c * a, b); }
  }

  /**
   * With everything else fixed, the noise-free label grows strictly with the
   * priority multiplier: Critical < High < Medium < Low.
   */
  lemma PriorityOrdersLabel(category: string, complexity: real, interactions: int)
    requires category in CategoryNames
    requires complexity > -10.0 && interactions > -20
    ensures NoiseFreeHours(category, "Critical", complexity, interactions)
            < NoiseFreeHours(category, "High", complexity, interactions)
    ensures NoiseFreeHours(category, "High", complexity, interactions)
            < NoiseFreeHours(category, "Medium", complexity, interactions)
    ensures NoiseFreeHours(category, "Medium", complexity, interactions)
            < NoiseFreeHours(category, "Low", complexity, interactions)
  {
    var rest := BaseHours * CategoryMultiplier(category)
                * (1.0 + complexity / 10.0) * (1.0 + interactions as real / 20.0);
    NoiseFreeFactors(category, "Critical", complexity, interactions);
    NoiseFreeFactors(category, "High", complexity, interactions);
    NoiseFreeFactors(category, "Medium", complexity, interactions);
    NoiseFreeFactors(category, "Low", complexity, interactions);
    ScaleStrict(0.5, 1.0, rest);
    ScaleStrict(1.0, 2.0, rest);
    ScaleStrict(2.0, 4.0, rest);
  }
}
