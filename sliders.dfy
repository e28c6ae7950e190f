/** The input schema of the churn form and the sidebar loop that turns the
    user's slider positions into the record handed to the model. */
module Sliders {
  import opened Records

  datatype Option<T> = None | Some(value: T)

  /** The nine model inputs, in the order the preprocessing artifacts were fitted with. */
  const Features: seq<string> := [
    "App Logins", "Loans Accessed", "Loans Taken",
    "Sentiment Score", "Web Logins", "Monthly Avg Balance",
    "Declined Txns", "Overdraft Events", "Tickets Raised"
  ]

  /** The features that share the small 0..10 counter slider. */
  const CountFeatures: seq<string> := ["Loans Accessed", "Declined Txns", "Overdraft Events", "Tickets Raised"]

  /** No feature name occurs twice in the schema. */
  lemma FeaturesDistinct()
    ensures forall i, j :: 0 <= i < j < |Features| ==> Features[i] != Features[j]
  {
  }

  /** The arms of the if/elif chain that picks a feature's slider. */
  datatype Arm = SentimentArm | LoansTakenArm | BalanceArm | CountArm | OtherArm

  /** The first arm whose test the feature passes. */
  function ArmOf(feature: string): Arm {
    if feature == "Sentiment Score" then SentimentArm
    else if feature == "Loans Taken" then LoansTakenArm
    else if feature == "Monthly Avg Balance" then BalanceArm
    else if feature in CountFeatures then CountArm
    else OtherArm
  }

  /** The arguments of one `st.sidebar.slider(caption, min, max, value, step)`
      call; `whole` marks a slider called with int arguments, which yields ints. */
  datatype Slider = Slider(caption: string, lo: real, hi: real, init: real, step: real, whole: bool) {

    /** `v` lies a whole number of steps above `lo`. */
    predicate OnGrid(v: real)
      requires step > 0.0
    {
      ((v - lo) / step).Floor as real == (v - lo) / step
    }

    /** The range is not empty, the default and the maximum sit on the step
        grid, and the bounds and step of an int slider are integers. */
    predicate Valid() {
      && 0.0 < step
      && lo <= init <= hi
      && OnGrid(init)
      && OnGrid(hi)
      && (whole ==> lo.Floor as real == lo && step.Floor as real == step)
    }

    /** The `n`-th grid point above `lo`. */
    function Point(n: nat): real {
      lo + n as real * step
    }

    /** The number of steps from `lo` up to the grid point `v`. */
    function StepsTo(v: real): (n: nat)
      requires Valid() && lo <= v && OnGrid(v)
      ensures Point(n) == v
    {
      var q := (v - lo) / step;
      assert q >= 0.0;
      assert q * step == v - lo;
      q.Floor
    }

    /** The number of steps from `lo` to `hi`. */
    function Ticks(): (n: nat)
      requires Valid()
      ensures Point(n) == hi
    {
      StepsTo(hi)
    }

    /** The value the widget returns: its default while the user has not moved
        it, otherwise the grid point it was dragged to, which cannot pass `hi`. */
    function Value(position: Option<nat>): (v: real)
      requires Valid()
      ensures lo <= v <= hi && OnGrid(v)
      ensures position.None? ==> v == init
      ensures position.Some? && Point(position.value) <= hi ==> v == Point(position.value)
      ensures position.Some? && Point(position.value) > hi ==> v == hi
      ensures whole ==> v.Floor as real == v
    {
      match position
      case None =>
        var n := StepsTo(init);
        GridPoint(n);
        init
      case Some(k) =>
        var n := Clamp(k);
        GridPoint(n);
        Point(n)
    }

    /** Position `k` held at the last grid point. */
    function Clamp(k: nat): (n: nat)
      requires Valid()
      ensures lo <= Point(n) <= hi
      ensures Point(k) <= hi ==> n == k
      ensures Point(k) > hi ==> Point(n) == hi
    {
      var t := Ticks();
      assert Point(t) == lo + t as real * step == hi;
      if k < t then
        assert k as real * step <= t as real * step;
        k
      else
        assert k as real * step >= t as real * step;
        t
    }

    /** The `n`-th grid point lies on the grid, and is an integer on an int slider. */
    lemma GridPoint(n: nat)
      requires Valid()
      ensures OnGrid(Point(n))
      ensures whole ==> Point(n).Floor as real == Point(n)
    {
      var v := Point(n);
      assert (v - lo) / step == n as real;
      if whole {
        var a, s := lo.Floor, step.Floor;
        assert v == (a + n * s) as real;
      }
    }
  }

  /** The slider the loop body creates for `feature`, arm by arm. */
  function SliderFor(feature: string): (s: Slider)
    ensures s.Valid()
  {
    match ArmOf(feature)
    case SentimentArm => Slider("😊 Sentiment Score (0–1)", 0.0, 1.0, 0.5, 0.01, false)
    case LoansTakenArm => Slider("📑 Loans Taken", 0.0, 20.0, 2.0, 1.0, true)
    case BalanceArm => Slider("💰 Monthly Avg Balance (₹)", 0.0, 10000.0, 2500.0, 100.0, true)
    case CountArm => Slider("🔢 " + feature, 0.0, 10.0, 0.0, 1.0, true)
    case OtherArm => Slider("📲 " + feature, 0.0, 100.0, 20.0, 1.0, true)
  }

  /** Where the user left the slider of `feature`, if they moved it at all. */
  function PositionOf(positions: map<string, nat>, feature: string): Option<nat> {
    if feature in positions then Some(positions[feature]) else None
  }

  /** What the slider of `feature` returns for the given positions. */
  function InputValue(positions: map<string, nat>, feature: string): real {
    SliderFor(feature).Value(PositionOf(positions, feature))
  }

  /** `r` is the record the sidebar loop builds: one column per feature, in
      schema order and with no other column, each holding its slider's value. */
  ghost predicate IsInputRow(r: Row, positions: map<string, nat>) {
    && r.columns == Features
    && (forall f :: f in r.cells <==> f in Features)
    && (forall f :: f in r.cells ==> r.cells[f] == Num(InputValue(positions, f)))
  }

  /** The sidebar loop: one slider per feature, its value stored under the
      feature's name. */
  method BuildInput(positions: map<string, nat>) returns (input: Row)
    ensures IsInputRow(input, positions) && input.Valid()
  {
    input := Empty;
    FeaturesDistinct();
    for i := 0 to |Features|
      invariant input.columns == Features[..i]
      invariant forall f :: f in input.cells <==> f in Features[..i]
      invariant forall f :: f in input.cells ==> input.cells[f] == Num(InputValue(positions, f))
    {
      var feature := Features[i];
      var slider := SliderFor(feature);
      assert feature !in Features[..i];
      input := input.Put(feature, Num(slider.Value(PositionOf(positions, feature))));
    }
    assert Features[..|Features|] == Features;
  }
}

/** Properties of the schema, the sliders and the record the loop builds. */
module SliderFacts {
  import opened Records
  import opened Sliders

  /** Each schema feature reaches exactly the arm written for it; the final
      `else` catches only the two login counters. */
  lemma ArmsOfSchema(f: string)
    requires f in Features
    ensures ArmOf(f) == SentimentArm <==> f == "Sentiment Score"
    ensures ArmOf(f) == LoansTakenArm <==> f == "Loans Taken"
    ensures ArmOf(f) == BalanceArm <==> f == "Monthly Avg Balance"
    ensures ArmOf(f) == CountArm <==> f in CountFeatures
    ensures ArmOf(f) == OtherArm <==> f == "App Logins" || f == "Web Logins"
  {
  }

  /** The nine sliders the loop creates have pairwise distinct captions. */
  lemma CaptionsDistinct()
    ensures forall i, j :: 0 <= i < j < |Features| ==> SliderFor(Features[i]).caption != SliderFor(Features[j]).caption
  {
    FeaturesDistinct();
    forall i, j | 0 <= i < j < |Features|
      ensures SliderFor(Features[i]).caption != SliderFor(Features[j]).caption
    {
      CaptionsDiffer(Features[i], Features[j]);
    }
  }

  /** Captions of different arms differ in length, and the two arms that
      prefix the feature's name keep distinct names apart. */
  lemma CaptionsDiffer(f: string, g: string)
    requires f in Features && g in Features && f != g
    ensures SliderFor(f).caption != SliderFor(g).caption
  {
    if ArmOf(f) == ArmOf(g) == CountArm {
      PrefixedCaption("🔢 ", f);
      PrefixedCaption("🔢 ", g);
    } else if ArmOf(f) == ArmOf(g) == OtherArm {
      PrefixedCaption("📲 ", f);
      PrefixedCaption("📲 ", g);
    } else {
      assert |SliderFor(f).caption| != |SliderFor(g).caption|;
    }
  }

  /** Dropping a two-character prefix gives back the feature's name. */
  lemma PrefixedCaption(prefix: string, f: string)
    requires |prefix| == 2
    ensures (prefix + f)[2..] == f
  {
  }

  /** The login counters get the 0..100 slider that starts at 20. */
  lemma LoginSliders(f: string)
    requires f == "App Logins" || f == "Web Logins"
    ensures ArmOf(f) == OtherArm
    ensures var s := SliderFor(f); s.lo == 0.0 && s.hi == 100.0 && s.init == 20.0 && s.step == 1.0 && s.whole
  {
  }

  /** The sidebar loop's result is determined by the slider positions alone. */
  lemma InputRowUnique(r1: Row, r2: Row, positions: map<string, nat>)
    requires IsInputRow(r1, positions) && IsInputRow(r2, positions)
    ensures r1 == r2
  {
  }

  /** Whatever the user does, Sentiment Score stays in [0, 1], and every other
      feature is a non-negative integer no larger than its slider's maximum. */
  lemma InputBounds(r: Row, positions: map<string, nat>, f: string)
    requires IsInputRow(r, positions) && f in Features
    ensures r.cells[f].Num?
    ensures 0.0 <= r.cells[f].x <= SliderFor(f).hi
    ensures f == "Sentiment Score" ==> r.cells[f].x <= 1.0
    ensures f != "Sentiment Score" ==> r.cells[f].x.Floor as real == r.cells[f].x
  {
  }

  /** An untouched slider gives its default, whatever the other sliders do. */
  lemma UntouchedIsDefault(r: Row, positions: map<string, nat>, f: string)
    requires IsInputRow(r, positions) && f in Features && f !in positions
    ensures f in r.cells && r.cells[f] == Num(SliderFor(f).init)
  {
  }

  /** The sliders' defaults, in schema order. */
  const Defaults: seq<real> := [20.0, 0.0, 2.0, 0.5, 20.0, 2500.0, 0.0, 0.0, 0.0]

  lemma SliderDefaults()
    ensures |Defaults| == |Features|
    ensures forall i :: 0 <= i < |Features| ==> SliderFor(Features[i]).init == Defaults[i]
  {
  }

  /** With untouched sliders the record holds every slider's default. */
  lemma DefaultInput(r: Row)
    requires IsInputRow(r, map[])
    ensures forall i :: 0 <= i < |Features| ==> Features[i] in r.cells && r.cells[Features[i]] == Num(Defaults[i])
  {
    SliderDefaults();
    forall i | 0 <= i < |Features|
      ensures Features[i] in r.cells && r.cells[Features[i]] == Num(Defaults[i])
    {
      UntouchedIsDefault(r, map[], Features[i]);
    }
  }
}
