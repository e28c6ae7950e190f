/** The script's computation from the sliders to the downloadable result row:
    build the input record, run the fitted pipeline, tier the probability,
    pick the action and append the three prediction columns. */
module Scoring {
  import opened Records
  import opened Sliders
  import opened Decision

  /** The columns added to the result, in the order they are assigned. */
  const PredictionColumns: seq<string> := ["Churn_Probability", "Risk_Tier", "Recommendations"]

  /** No element of `xs` occurs in `ys`. */
  predicate NoneOf(xs: seq<string>, ys: seq<string>) {
    forall i :: 0 <= i < |xs| ==> xs[i] !in ys
  }

  /** The row after the three column assignments: the prediction columns hold
      the probability, the tier's name and the action list, and no other column
      changes. Where the new columns go is stated by `WithPredictionsColumns`. */
  function WithPredictions(r: Row, prob: real, tier: RiskTier, rec: seq<string>): (out: Row)
    ensures forall k :: k in out.cells <==> k in r.cells || k in PredictionColumns
    ensures forall k :: k in r.cells && k !in PredictionColumns ==> out.cells[k] == r.cells[k]
    ensures "Churn_Probability" in out.cells && out.cells["Churn_Probability"] == Num(prob)
    ensures "Risk_Tier" in out.cells && out.cells["Risk_Tier"] == Text(tier.Name())
    ensures "Recommendations" in out.cells && out.cells["Recommendations"] == Lines(rec)
  {
    var withProb := r.Put("Churn_Probability", Num(prob));
    var withTier := withProb.Put("Risk_Tier", Text(tier.Name()));
    withTier.Put("Recommendations", Lines(rec))
  }

  /** When the row has none of the prediction columns yet, they are appended
      after its own columns, in assignment order. */
  lemma WithPredictionsColumns(r: Row, prob: real, tier: RiskTier, rec: seq<string>)
    requires NoneOf(PredictionColumns, r.columns)
    ensures WithPredictions(r, prob, tier, rec).columns == r.columns + PredictionColumns
  {
    assert PredictionColumns[0] !in r.columns && PredictionColumns[1] !in r.columns && PredictionColumns[2] !in r.columns;
    var withProb := r.Put("Churn_Probability", Num(prob));
    assert withProb.columns == r.columns + [PredictionColumns[0]];
    var withTier := withProb.Put("Risk_Tier", Text(tier.Name()));
    assert withTier.columns == r.columns + [PredictionColumns[0], PredictionColumns[1]];
  }

  /** Adding the predictions keeps column names distinct and in step with the cells. */
  lemma WithPredictionsValid(r: Row, prob: real, tier: RiskTier, rec: seq<string>)
    requires r.Valid()
    ensures WithPredictions(r, prob, tier, rec).Valid()
  {
  }

  /** `result_df = input_df.copy()` followed by the three column assignments;
      `input_df` itself is left as it was. */
  method AddPredictions(inputDf: Frame, prob: real, tier: RiskTier, rec: seq<string>) returns (resultDf: Frame)
    ensures fresh(resultDf)
    ensures inputDf.row == old(inputDf.row)
    ensures resultDf.row == WithPredictions(inputDf.row, prob, tier, rec)
  {
    resultDf := inputDf.Copy();
    resultDf.Assign("Churn_Probability", Num(prob));
    resultDf.Assign("Risk_Tier", Text(tier.Name()));
    resultDf.Assign("Recommendations", Lines(rec));
  }

  /** One run of the script. `pipeline` stands for imputer, scaler and
      classifier together: the fitted chain that maps the input frame's row to
      the probability of the churn class. */
  method Run(positions: map<string, nat>, pipeline: Row -> real)
    returns (inputDf: Frame, prob: real, riskTier: RiskTier, rec: seq<string>, resultDf: Frame)
    ensures fresh(inputDf) && fresh(resultDf) && inputDf != resultDf
    ensures IsInputRow(inputDf.row, positions) && inputDf.row.Valid()
    ensures prob == pipeline(inputDf.row)
    ensures riskTier == Tier(prob) && rec == Recommendation(riskTier)
    ensures resultDf.row == WithPredictions(inputDf.row, prob, riskTier, rec)
  {
    var inputData := BuildInput(positions);
    inputDf := new Frame(inputData);
    prob := pipeline(inputDf.row);
    riskTier := Tier(prob);
    rec := Recommendation(riskTier);
    resultDf := AddPredictions(inputDf, prob, riskTier, rec);
  }
}

/** Properties of the result row. */
module ScoringFacts {
  import opened Records
  import opened Sliders
  import opened Decision
  import opened Scoring
  import SliderFacts

  /** No prediction column collides with a feature. */
  lemma PredictionColumnsAreNew()
    ensures NoneOf(PredictionColumns, Features)
  {
  }

  /** The result row of the script: the nine features, unchanged and in
      schema order, then the probability, its tier's name and the tier's action. */
  lemma ResultRow(r: Row, positions: map<string, nat>, prob: real)
    requires IsInputRow(r, positions)
    ensures var out := WithPredictions(r, prob, Tier(prob), Recommendation(Tier(prob)));
      && out.columns == Features + PredictionColumns
      && (forall f :: f in Features ==> out.cells[f] == r.cells[f] == Num(InputValue(positions, f)))
      && out.cells["Churn_Probability"] == Num(prob)
      && out.cells["Risk_Tier"] == Text(Tier(prob).Name())
      && out.cells["Recommendations"] == Lines(Recommendation(Tier(prob)))
      && |out.cells["Recommendations"].items| == 1
      && out.Valid()
  {
    PredictionColumnsAreNew();
    var rec := Recommendation(Tier(prob));
    WithPredictionsColumns(r, prob, Tier(prob), rec);
    FeaturesDistinct();
    assert r.Valid();
    WithPredictionsValid(r, prob, Tier(prob), rec);
  }

  /** The same slider positions and the same fitted pipeline give the same
      input row, probability, tier, action and result row. */
  lemma Deterministic(r1: Row, r2: Row, positions: map<string, nat>, pipeline: Row -> real)
    requires IsInputRow(r1, positions) && IsInputRow(r2, positions)
    ensures pipeline(r1) == pipeline(r2)
    ensures var p := pipeline(r1);
      WithPredictions(r1, p, Tier(p), Recommendation(Tier(p)))
        == WithPredictions(r2, p, Tier(p), Recommendation(Tier(p)))
  {
    SliderFacts.InputRowUnique(r1, r2, positions);
  }

  /** Untouched sliders and a probability of 0.55 give a result row with every
      slider's default, that probability, the Medium tier and the
      renewal-cashback action. */
  lemma UntouchedAtFiftyFive(r: Row)
    requires IsInputRow(r, map[])
    ensures var out := WithPredictions(r, 0.55, Tier(0.55), Recommendation(Tier(0.55)));
      && (forall i :: 0 <= i < |Features| ==> Features[i] in out.cells && out.cells[Features[i]] == Num(SliderFacts.Defaults[i]))
      && out.cells["Churn_Probability"] == Num(0.55)
      && out.cells["Risk_Tier"] == Text("Medium")
      && out.cells["Recommendations"] == Lines(["🎁 Offer $5 cashback for next renewal"])
  {
    SliderFacts.DefaultInput(r);
    PredictionColumnsAreNew();
  }
}
