/**
 * The predictor of `ServiceRequestPredictor`: three label encoders fitted
 * once, a regressor held in memory, the files `load_model` reads and
 * `save_model` writes, and the lazy load-or-train step before a prediction.
 *
 * The regressor is a value of an abstract type `M`; `fit` stands for the
 * library's train/test split and forest fitting and `run` for its
 * prediction on one feature row. Both are parameters.
 */
module ResolutionModel {
  import opened Wrappers
  import opened Tickets
  import LabelEncoder
  import SampleData

  /** Codes used for a whole column when one of its values was never fitted. */
  const CategoryFallback: int := 0
  const PriorityFallback: int := 1
  const TeamFallback: int := 0

  /** The classes of the three fitted encoders. */
  datatype Encoders = Encoders(category: seq<string>, priority: seq<string>, team: seq<string>)

  /** The predictor's state: the regressor, if any, the encoders and the fitted flag. */
  datatype Predictor<M> = Predictor(model: Option<M>, encoders: Encoders, fitted: bool)

  /** What `load_model` finds on disk. */
  datatype Disk<M> =
      /** One of the two files does not exist. */
    | NoFiles
      /** Both exist but a read failed; the model file may have been read (and assigned) first. */
    | Unreadable(readModel: Option<M>)
      /** Both files hold a model and its three encoders. */
    | Saved(model: M, encoders: Encoders)

  datatype Prepared<M> = Prepared(state: Predictor<M>, rows: seq<FeatureRow>)
  datatype Loaded<M> = Loaded(state: Predictor<M>, ok: bool)
  datatype Ready<M> = Ready(state: Predictor<M>, disk: Disk<M>)
  datatype Training<M> = Training(state: Predictor<M>, disk: Disk<M>, ok: bool)
  datatype Prediction<M> = Prediction(state: Predictor<M>, disk: Disk<M>, hours: real)

  /** A newly constructed predictor: no model, encoders not fitted. */
  function Fresh<M>(): Predictor<M> {
    Predictor(None, Encoders([], [], []), false)
  }

  /** The encoders hold exactly the distinct values of the tickets' columns, ascending. */
  ghost predicate FittedOn(e: Encoders, ts: seq<Ticket>) {
    && LabelEncoder.StrictlySorted(e.category)
    && LabelEncoder.StrictlySorted(e.priority)
    && LabelEncoder.StrictlySorted(e.team)
    && (forall x :: x in e.category <==> x in CategoryColumn(ts))
    && (forall x :: x in e.priority <==> x in PriorityColumn(ts))
    && (forall x :: x in e.team <==> x in TeamColumn(ts))
  }

  /** Fits all three encoders on the tickets. */
  function FitAll(ts: seq<Ticket>): (e: Encoders)
    ensures FittedOn(e, ts)
  {
    Encoders(LabelEncoder.Fit(CategoryColumn(ts)), LabelEncoder.Fit(PriorityColumn(ts)),
             LabelEncoder.Fit(TeamColumn(ts)))
  }

  /** The code row `i` of a column receives: its class code, or the fallback for the whole column. */
  function ColumnCode(v: seq<string>, column: seq<string>, i: int, fallback: int): int
    requires 0 <= i < |column|
  {
    if LabelEncoder.Known(v, column) then LabelEncoder.Code(v, column[i]) else fallback
  }

  /** The feature rows of the tickets under fitted encoders `e`. */
  function EncodeRows(e: Encoders, ts: seq<Ticket>): (rows: seq<FeatureRow>)
    ensures |rows| == |ts|
    ensures forall i :: 0 <= i < |ts| ==>
              && rows[i].categoryCode == ColumnCode(e.category, CategoryColumn(ts), i, CategoryFallback)
              && rows[i].priorityCode == ColumnCode(e.priority, PriorityColumn(ts), i, PriorityFallback)
              && rows[i].teamCode == ColumnCode(e.team, TeamColumn(ts), i, TeamFallback)
              && rows[i].complexityScore == ts[i].complexityScore
              && rows[i].requestAgeHours == ts[i].requestAgeHours
              && rows[i].previousInteractions == ts[i].previousInteractions
  {
    var c := LabelEncoder.EncodeOr(e.category, CategoryColumn(ts), CategoryFallback);
    var p := LabelEncoder.EncodeOr(e.priority, PriorityColumn(ts), PriorityFallback);
    var t := LabelEncoder.EncodeOr(e.team, TeamColumn(ts), TeamFallback);
    seq(|ts|, i requires 0 <= i < |ts| =>
      FeatureRow(c[i], p[i], t[i], ts[i].complexityScore, ts[i].requestAgeHours,
                 ts[i].previousInteractions))
  }

  /** The feature row of a single ticket, column by column. */
  function EncodeTicket(e: Encoders, t: Ticket): FeatureRow {
    FeatureRow(
      if t.category in e.category then LabelEncoder.Code(e.category, t.category) else CategoryFallback,
      if t.priority in e.priority then LabelEncoder.Code(e.priority, t.priority) else PriorityFallback,
      if t.assignedTeam in e.team then LabelEncoder.Code(e.team, t.assignedTeam) else TeamFallback,
      t.complexityScore, t.requestAgeHours, t.previousInteractions)
  }

  /**
   * `prepare_features`: fits the encoders on the tickets when the flag is
   * unset and sets it; otherwise reuses them unchanged, falling back per
   * column when a value was never fitted.
   */
  function PrepareFeatures<M>(s: Predictor<M>, ts: seq<Ticket>): (r: Prepared<M>)
    ensures r.state.fitted && r.state.model == s.model
    ensures s.fitted ==> r.state.encoders == s.encoders
    ensures !s.fitted ==> FittedOn(r.state.encoders, ts)
    ensures r.rows == EncodeRows(r.state.encoders, ts)
    ensures !s.fitted ==> forall i :: 0 <= i < |ts| ==>
              && r.rows[i].categoryCode == LabelEncoder.Code(r.state.encoders.category, ts[i].category)
              && r.rows[i].priorityCode == LabelEncoder.Code(r.state.encoders.priority, ts[i].priority)
              && r.rows[i].teamCode == LabelEncoder.Code(r.state.encoders.team, ts[i].assignedTeam)
  {
    if s.fitted then
      Prepared(s, EncodeRows(s.encoders, ts))
    else
      var e := FitAll(ts);
      assert LabelEncoder.Known(e.category, CategoryColumn(ts));
      assert LabelEncoder.Known(e.priority, PriorityColumn(ts));
      assert LabelEncoder.Known(e.team, TeamColumn(ts));
      Prepared(s.(encoders := e, fitted := true), EncodeRows(e, ts))
  }

  /**
   * Rows `train_test_split` needs with a 20% test share: the test part takes
   * ceil(0.2 n) rows, so fewer than two rows leave nothing to train on and
   * the split raises.
   */
  const MinTrainRows: nat := 2

  /**
   * `train(table)`: encodes the table (fitting the encoders if needed), then
   * fits a regressor on it and saves the model with the encoders, replacing
   * whatever was on disk. When the split raises, the encoding has already
   * happened but no model is assigned and nothing is saved; `ok` is false.
   */
  function Train<M>(s: Predictor<M>, table: seq<LabeledTicket>, disk: Disk<M>,
                    fit: (seq<FeatureRow>, seq<real>) -> M): (r: Training<M>)
    ensures r.ok <==> |table| >= MinTrainRows
    ensures r.state.fitted
    ensures s.fitted ==> r.state.encoders == s.encoders
    ensures !s.fitted ==> FittedOn(r.state.encoders, TicketsOf(table))
    ensures r.ok ==> r.state.model.Some?
    ensures r.ok ==> r.state.model.value == fit(EncodeRows(r.state.encoders, TicketsOf(table)), LabelsOf(table))
    ensures r.ok ==> r.disk == Saved(r.state.model.value, r.state.encoders)
    ensures !r.ok ==> r.state.model == s.model && r.disk == disk
  {
    var p := PrepareFeatures(s, TicketsOf(table));
    if |table| < MinTrainRows then
      Training(p.state, disk, false)
    else
      var m := fit(p.rows, LabelsOf(table));
      var trained := p.state.(model := Some(m));
      Training(trained, Save(trained, disk), true)
  }

  /** `save_model`: writes the model and encoders when a model is held; otherwise the disk is untouched. */
  function Save<M>(s: Predictor<M>, disk: Disk<M>): (d: Disk<M>)
    ensures s.model.Some? ==> d.Saved? && d.model == s.model.value && d.encoders == s.encoders
    ensures s.model.None? ==> d == disk
  {
    match s.model
    case Some(m) => Saved(m, s.encoders)
    case None => disk
  }

  /**
   * `load_model`: restores model, encoders and flag when both files read;
   * any failure is reported as `false`, keeping only a model read before it.
   */
  function Load<M>(s: Predictor<M>, disk: Disk<M>): (r: Loaded<M>)
    ensures r.ok <==> disk.Saved?
    ensures r.ok ==> r.state == Predictor(Some(disk.model), disk.encoders, true)
    ensures !r.ok ==> r.state.encoders == s.encoders && r.state.fitted == s.fitted
    ensures !r.ok ==> r.state.model == if disk.Unreadable? && disk.readModel.Some? then disk.readModel else s.model
  {
    match disk
    case NoFiles => Loaded(s, false)
    case Unreadable(None) => Loaded(s, false)
    case Unreadable(Some(m)) => Loaded(s.(model := Some(m)), false)
    case Saved(m, e) => Loaded(Predictor(Some(m), e, true), true)
  }

  /** The random draws `train()` uses when it generates its own table. */
  predicate SampleDraws(draws: seq<SampleData.Draw>) {
    |draws| == SampleData.SampleSize && forall i :: 0 <= i < |draws| ==> SampleData.Picks(draws[i])
  }

  /**
   * The step `predict` takes before encoding: with no model in memory, try
   * `load_model`, and train on a generated table only when loading fails.
   */
  function EnsureModel<M>(s: Predictor<M>, disk: Disk<M>, draws: seq<SampleData.Draw>,
                          fit: (seq<FeatureRow>, seq<real>) -> M): (r: Ready<M>)
    requires SampleDraws(draws)
    ensures r.state.model.Some?
    ensures s.model.Some? ==> r == Ready(s, disk)
    ensures s.model.None? && disk.Saved? ==>
              r == Ready(Predictor(Some(disk.model), disk.encoders, true), disk)
    ensures s.model.None? && !disk.Saved? ==>
              var table := SampleData.Generate(draws);
              && r.state.fitted
              && (s.fitted ==> r.state.encoders == s.encoders)
              && (!s.fitted ==> FittedOn(r.state.encoders, TicketsOf(table)))
              && r.state.model.value == fit(EncodeRows(r.state.encoders, TicketsOf(table)), LabelsOf(table))
              && r.disk == Saved(r.state.model.value, r.state.encoders)
  {
    if s.model.Some? then Ready(s, disk)
    else
      var loaded := Load(s, disk);
      if loaded.ok then Ready(loaded.state, disk)
      else
        var trained := Train(loaded.state, SampleData.Generate(draws), disk, fit);
        Ready(trained.state, trained.disk)
  }

  /** A single ticket is encoded as its one-row table would be. */
  lemma SingleRowEncoding(e: Encoders, t: Ticket)
    ensures EncodeRows(e, [t]) == [EncodeTicket(e, t)]
  {
    var rows := EncodeRows(e, [t]);
    assert CategoryColumn([t]) == [t.category];
    assert PriorityColumn([t]) == [t.priority];
    assert TeamColumn([t]) == [t.assignedTeam];
    assert LabelEncoder.Known(e.category, [t.category]) <==> t.category in e.category;
    assert LabelEncoder.Known(e.priority, [t.priority]) <==> t.priority in e.priority;
    assert LabelEncoder.Known(e.team, [t.assignedTeam]) <==> t.assignedTeam in e.team;
  }

  /**
   * `predict`: makes sure a model is present, encodes the ticket with the
   * shared encoders and returns the regressor's output, at least half an hour.
   */
  function Predict<M>(s: Predictor<M>, t: Ticket, disk: Disk<M>, draws: seq<SampleData.Draw>,
                      fit: (seq<FeatureRow>, seq<real>) -> M,
                      run: (M, FeatureRow) -> real): (r: Prediction<M>)
    requires SampleDraws(draws)
    ensures r.hours >= MinHours
    ensures r.state.model.Some? && r.state.fitted
    ensures var out := run(r.state.model.value, EncodeTicket(r.state.encoders, t));
            && (out >= MinHours ==> r.hours == out)
            && (out < MinHours ==> r.hours == MinHours)
    ensures s.model.Some? ==> r.state.model == s.model && r.disk == disk
    ensures s.model.Some? && s.fitted ==> r.state == s
    ensures s.model.None? && disk.Saved? ==>
              r.state == Predictor(Some(disk.model), disk.encoders, true) && r.disk == disk
  {
    var ready := EnsureModel(s, disk, draws, fit);
    var prepared := PrepareFeatures(ready.state, [t]);
    SingleRowEncoding(prepared.state.encoders, t);
    Prediction(prepared.state, ready.disk, AtLeastMin(run(ready.state.model.value, prepared.rows[0])))
  }

  /** Saving a ready predictor and loading the files into any instance restores it exactly. */
  lemma SaveLoadRoundTrip<M>(s: Predictor<M>, other: Predictor<M>, disk: Disk<M>)
    requires s.model.Some? && s.fitted
    ensures Load(other, Save(s, disk)) == Loaded(s, true)
  {
  }

  /** A predictor restored from saved files predicts exactly what the saved one predicts. */
  lemma RestoredPredictsAlike<M>(s: Predictor<M>, blank: Predictor<M>, t: Ticket, disk: Disk<M>,
                                 draws: seq<SampleData.Draw>,
                                 fit: (seq<FeatureRow>, seq<real>) -> M, run: (M, FeatureRow) -> real)
    requires s.model.Some? && s.fitted && blank.model.None?
    requires SampleDraws(draws)
    ensures Predict(blank, t, Save(s, disk), draws, fit, run).hours == Predict(s, t, disk, draws, fit, run).hours
  {
    SaveLoadRoundTrip(s, blank, disk);
  }

  /** Calling `predict` twice with the same ticket gives the same hours and changes nothing more. */
  lemma PredictRepeatable<M>(s: Predictor<M>, t: Ticket, disk: Disk<M>, draws: seq<SampleData.Draw>,
                             fit: (seq<FeatureRow>, seq<real>) -> M, run: (M, FeatureRow) -> real)
    requires SampleDraws(draws)
    ensures var first := Predict(s, t, disk, draws, fit, run);
            var second := Predict(first.state, t, first.disk, draws, fit, run);
            second == first
  {
  }

  /**
   * Once fitted, the encoders never change, so a value keeps the code it had
   * in an earlier call whenever both calls encode its column.
   */
  lemma CodesStableAcrossCalls<M>(s: Predictor<M>, ts1: seq<Ticket>, ts2: seq<Ticket>, i: int, j: int)
    requires 0 <= i < |ts1| && 0 <= j < |ts2|
    ensures var first := PrepareFeatures(s, ts1);
            var second := PrepareFeatures(first.state, ts2);
            var e := first.state.encoders;
            && second.state.encoders == e
            && (ts1[i].category == ts2[j].category
                && LabelEncoder.Known(e.category, CategoryColumn(ts1))
                && LabelEncoder.Known(e.category, CategoryColumn(ts2)) ==>
                  second.rows[j].categoryCode == first.rows[i].categoryCode)
            && (ts1[i].priority == ts2[j].priority
                && LabelEncoder.Known(e.priority, PriorityColumn(ts1))
                && LabelEncoder.Known(e.priority, PriorityColumn(ts2)) ==>
                  second.rows[j].priorityCode == first.rows[i].priorityCode)
            && (ts1[i].assignedTeam == ts2[j].assignedTeam
                && LabelEncoder.Known(e.team, TeamColumn(ts1))
                && LabelEncoder.Known(e.team, TeamColumn(ts2)) ==>
                  second.rows[j].teamCode == first.rows[i].teamCode)
  {
  }

  /**
   * The first prediction of a newly constructed predictor, with no saved
   * files, trains on the generated table and saves the result.
   */
  lemma FirstPredictionTrains<M>(t: Ticket, draws: seq<SampleData.Draw>,
                                 fit: (seq<FeatureRow>, seq<real>) -> M, run: (M, FeatureRow) -> real)
    requires SampleDraws(draws)
    ensures var r := Predict(Fresh<M>(), t, NoFiles, draws, fit, run);
            var table := SampleData.Generate(draws);
            && FittedOn(r.state.encoders, TicketsOf(table))
            && r.state.model.value == fit(EncodeRows(r.state.encoders, TicketsOf(table)), LabelsOf(table))
            && r.disk == Saved(r.state.model.value, r.state.encoders)
  {
  }

  /** Once fitted, one unseen category sends the whole category column to the fallback code. */
  lemma UnseenCategoryFallsBack<M>(s: Predictor<M>, ts: seq<Ticket>, k: int)
    requires s.fitted
    requires 0 <= k < |ts| && ts[k].category !in s.encoders.category
    ensures var rows := PrepareFeatures(s, ts).rows;
            forall i :: 0 <= i < |ts| ==> rows[i].categoryCode == CategoryFallback
  {
    assert CategoryColumn(ts)[k] == ts[k].category;
  }

  /**
   * Each categorical column is encoded from that column alone: two tables
   * that agree on a column get the same codes in it, whatever the other
   * columns hold, both when the encoders are being fitted and after.
   */
  lemma ColumnsIndependent<M>(s: Predictor<M>, ts1: seq<Ticket>, ts2: seq<Ticket>)
    requires |ts1| == |ts2|
    ensures var r1, r2 := PrepareFeatures(s, ts1).rows, PrepareFeatures(s, ts2).rows;
            && (CategoryColumn(ts1) == CategoryColumn(ts2) ==>
                  forall i :: 0 <= i < |ts1| ==> r1[i].categoryCode == r2[i].categoryCode)
            && (PriorityColumn(ts1) == PriorityColumn(ts2) ==>
                  forall i :: 0 <= i < |ts1| ==> r1[i].priorityCode == r2[i].priorityCode)
            && (TeamColumn(ts1) == TeamColumn(ts2) ==>
                  forall i :: 0 <= i < |ts1| ==> r1[i].teamCode == r2[i].teamCode)
  {
  }

  /** A ticket given without age or interactions is predicted as one with both set to 0. */
  lemma PredictDefaultsToZero<M>(s: Predictor<M>, category: string, priority: string, team: string,
                                 complexity: real, disk: Disk<M>, draws: seq<SampleData.Draw>,
                                 fit: (seq<FeatureRow>, seq<real>) -> M, run: (M, FeatureRow) -> real)
    requires SampleDraws(draws)
    ensures var r := Predict(s, Ticket(category, priority, team, complexity), disk, draws, fit, run);
            r.hours >= MinHours
            && (var out := run(r.state.model.value,
                               EncodeTicket(r.state.encoders, Ticket(category, priority, team, complexity, 0.0, 0)));
                out >= MinHours ==> r.hours == out)
  {
  }
}
