# Churn prediction form: the decision step, modelled in Dafny

The original application is a one-page Streamlit form for simulating a bank
customer. The sidebar shows one slider per behavioural feature. The nine
slider values form a one-row record, and a fitted chain (imputer, scaler,
XGBoost classifier) turns that record into a churn probability. The script
then cuts the probability into a risk tier (Low, Medium or High), picks a
retention action for the tier, and appends the probability, the tier and
the action to a copy of the input record. That copy is the table the user
can download.

The model covers everything around the fitted chain:

- `records.dfy`, module `Records`: a row whose columns keep their insertion
  order. It covers both the dict `input_data` and the one-row data frames
  built from it. `Row.Put` is key assignment with Python dict and pandas
  column semantics. The class `Frame` is a data frame whose row is replaced
  in place by `Assign`; `Copy` makes an independent frame.
- `sliders.dfy`, module `Sliders`: the nine-feature schema and the
  if/elif chain that gives each feature its slider. A slider's range,
  default and step are checked for consistency, and `Slider.Value` is what
  the widget returns. `BuildInput` is the loop that fills the input record.
  The module `SliderFacts` holds what is proved about them.
- `decision.dfy`, module `Decision`: the tier thresholds, which are the
  exact rationals 2/5 and 7/10, and the choice of action. The module
  `DecisionFacts` holds what is proved about them.
- `scoring.dfy`, module `Scoring`: the three column assignments on a copy
  of the input frame, and one run of the script from slider positions to
  the result frame. The module `ScoringFacts` holds what is proved about
  the result row.

The user's interaction is a parameter `positions: map<string, nat>`. A
feature that is absent means the user never touched that slider, so it
returns its default. `k` means the user dragged it to the `k`-th grid point
above the minimum; the widget cannot go past the maximum, so positions
beyond it stay at the maximum. The fitted chain is a parameter
`pipeline: Row -> real`. The model only assumes that it is a function of the
record.

Points worth knowing when reading the model:

- The action strings are the ones in `Streamlit_churn.py:67-71`, emoji
  included.
- The code does no input validation. The only limits on the input are the
  slider bounds, which the model proves are always respected
  (`SliderFacts.InputBounds`).
- The action is chosen by comparing the tier's *name* with "Low" and
  "Medium". Every other name falls to the final `else`.
  `DecisionFacts.NameInjective` and `DecisionFacts.HighActionOnlyForHigh`
  show that this `else` is reached by High alone.

## Model

| member | source | states |
|---|---|---|
| Records.Row.Put | Streamlit_churn.py:43-51 | dict/column assignment: the key then holds the new value and every other key keeps its value. An existing column keeps its place; a new one is appended last. Distinct, consistent columns stay so |
| Records.Frame.constructor | Streamlit_churn.py:55 | `pd.DataFrame([input_data])` holds exactly the record |
| Records.Frame.Copy | Streamlit_churn.py:74 | the copy is a fresh frame with the same row, so later assignments to it do not reach the original |
| Records.Frame.Assign | Streamlit_churn.py:75-77 | assigning a column replaces the row by the old row with that key put |
| Sliders.FeaturesDistinct | Streamlit_churn.py:28-32 | the nine feature names are pairwise distinct |
| Sliders.ArmOf | Streamlit_churn.py:42-50 | the if/elif tests in order: Sentiment Score, Loans Taken, Monthly Avg Balance, then membership in the four counter features, and otherwise the final `else` |
| Sliders.SliderFor | Streamlit_churn.py:41-51 | every arm's slider has positive step and min <= default <= max, with the default and the max a whole number of steps above min; an int slider has integer min and step |
| Sliders.Slider.Value | Streamlit_churn.py:43-51 | the widget value lies in [min, max] on the step grid. An untouched slider gives its default; a position within range gives exactly that grid point, and one beyond the maximum gives the maximum; an int slider gives an integer |
| Sliders.BuildInput | Streamlit_churn.py:39-51 | the loop's record has the nine features as its columns, in schema order, with no others. Each feature holds its own slider's value for the given positions |
| SliderFacts.ArmsOfSchema | Streamlit_churn.py:41-51 | each schema feature reaches exactly its own arm; the `else` arm is reached by App Logins and Web Logins only |
| SliderFacts.CaptionsDistinct | Streamlit_churn.py:41-51 | the nine sliders the loop creates have pairwise distinct captions |
| SliderFacts.LoginSliders | Streamlit_churn.py:50-51 | App Logins and Web Logins get the int slider 0..100 with default 20 and step 1 |
| SliderFacts.InputRowUnique | Streamlit_churn.py:39-51 | the input record is determined by the slider positions alone |
| SliderFacts.InputBounds | Streamlit_churn.py:41-51 | whatever the positions, every feature is a number in [0, its max]. Sentiment Score stays in [0, 1], and every other feature is an integer |
| SliderFacts.UntouchedIsDefault | Streamlit_churn.py:43-51 | a slider the user has not touched contributes its default to the record, whatever the other sliders do |
| SliderFacts.SliderDefaults | Streamlit_churn.py:43-51 | the defaults are 20, 0, 2, 0.5, 20, 2500, 0, 0, 0 in schema order |
| SliderFacts.DefaultInput | Streamlit_churn.py:39-51 | with every slider untouched, the record holds exactly those defaults |
| Decision.RiskTier.Name | Streamlit_churn.py:63 | the tier strings "Low", "Medium" and "High" that the action choice compares |
| Decision.Tier | Streamlit_churn.py:63 | the tier is Low iff prob < 0.4, Medium iff 0.4 <= prob < 0.7, and High iff prob >= 0.7 |
| Decision.Recommendation | Streamlit_churn.py:66-71 | the action list has exactly one element and is a function of the tier alone |
| DecisionFacts.NameInjective | Streamlit_churn.py:63-71 | tiers and their names correspond one to one, so the string comparisons in the action choice compare tiers |
| DecisionFacts.TierBoundaries | Streamlit_churn.py:63 | exactly 0.4 is Medium and exactly 0.7 is High; 0.399999 is Low and 0.699999 is Medium |
| DecisionFacts.TierMonotone | Streamlit_churn.py:63 | p <= q implies tier(p) <= tier(q) in the order Low < Medium < High |
| DecisionFacts.TierOnto | Streamlit_churn.py:63 | every tier is reached by some probability in [0, 1] |
| DecisionFacts.ActionOfProbability | Streamlit_churn.py:63-71 | the loyalty action is shown iff prob < 0.4, the cashback action iff 0.4 <= prob < 0.7, and the support-call action iff prob >= 0.7 |
| DecisionFacts.RecommendationInjective | Streamlit_churn.py:66-71 | the three tiers get three different actions |
| DecisionFacts.HighActionOnlyForHigh | Streamlit_churn.py:66-71 | the action in the final `else` is given to the High tier and no other |
| Scoring.WithPredictions | Streamlit_churn.py:74-77 | the result has the input's columns plus exactly Churn_Probability, Risk_Tier and Recommendations. These hold prob, the tier's name and the action list, and every other column is unchanged |
| Scoring.WithPredictionsColumns | Streamlit_churn.py:74-77 | when the input has none of the three columns, they come after the input's columns, in assignment order |
| Scoring.WithPredictionsValid | Streamlit_churn.py:74-77 | adding the predictions keeps columns distinct and in step with the cells |
| Scoring.AddPredictions | Streamlit_churn.py:74-77 | the result frame is fresh, its row is the input row with the predictions added, and the input frame is unchanged |
| Scoring.Run | Streamlit_churn.py:39-77 | one run: the input frame holds the loop's record, prob is the pipeline's answer on it, and the tier and action are derived from prob. The result frame is a separate fresh frame holding the augmented row |
| ScoringFacts.PredictionColumnsAreNew | Streamlit_churn.py:28-32 | no prediction column name is a feature name |
| ScoringFacts.ResultRow | Streamlit_churn.py:39-77 | the result row's columns are the nine features in order, then the three prediction columns. Every feature keeps its slider value, the action list has one element, and the row is consistent |
| ScoringFacts.Deterministic | Streamlit_churn.py:39-77 | the same positions and the same pipeline give the same probability and the same result row |
| ScoringFacts.UntouchedAtFiftyFive | Streamlit_churn.py:39-77 | untouched sliders and probability 0.55 (in a run, `prob == pipeline(inputDf.row)`) give the default record, Churn_Probability 0.55, the tier Medium and "🎁 Offer $5 cashback for next renewal" |

## Left out

- Page setup, the logo image, markdown, headers, metrics, coloured alerts, the data frame styling and the footer (`Streamlit_churn.py:8-16, 37, 80-117` apart from the computation): presentation only.
- Loading the three artifacts with `joblib.load`, and the `FileNotFoundError` path that shows an error and stops (`Streamlit_churn.py:19-25`): file I/O and process control.
- The imputer, the scaler and `predict_proba` (`Streamlit_churn.py:58-62`): calls into fitted library objects over floating point. They are one uninterpreted parameter `pipeline`, and no range is assumed for its answer.
- Floating point: the slider values and the probability are exact `real`s, and the thresholds are exactly 2/5 and 7/10. An int slider is marked `whole`, and its values are proved to be integers. The classifier's answer is a 32-bit float, so the comparison `prob < 0.7` may be made in single precision; a probability stored as float32(0.7) = 0.699999988… would then be High in the application but is Medium in the model.
- Scoring.WithPredictions: the Recommendations cell holds the action list itself, not its Python text form `str(rec)`, because that repr is library formatting.
- The percentage text `f"{prob:.2%}"`, CSV encoding and the download button (`Streamlit_churn.py:91, 109, 112-113`): library formatting and serialisation.
- Slider captions are modelled but play no role in any property. Streamlit derives a widget's identity from its caption together with its other arguments and key; the model keys positions by feature name instead, which is equivalent here because the nine captions are distinct (`SliderFacts.CaptionsDistinct`).
- Streamlit re-runs the whole script after every slider move. The model describes a single run for a given set of positions.
