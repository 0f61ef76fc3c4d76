/** The input form of the predictor page and the values derived from one prediction:
    the seven widgets, the fixed feature order the classifier was trained on, the
    one-row frame handed to the explainer, the class label and the two advice texts. */
module Form {

  datatype Option<T> = None | Some(value: T)

  /** A key of the session mapping: missing from it, or bound to a value. */
  datatype Slot<T> = Absent | Present(value: T)

  /** A missing key gets the default; a key already present keeps its value. */
  function Fill<T>(slot: Slot<T>, default: T): (r: Slot<T>)
    ensures r.Present?
    ensures slot.Present? ==> r == slot
    ensures slot.Absent? ==> r == Present(default)
  {
    match slot
    case Present(_) => slot
    case Absent => Present(default)
  }

  /** An integer number input bounded to [-10, 10]. */
  type Score = x: int | -10 <= x <= 10

  /** A select box offering the options 0 ("No") and 1 ("Yes"). */
  type Choice = x: int | 0 <= x <= 1

  /** The values the seven widgets of the form hold when the form is submitted. */
  datatype Widgets = Widgets(x1: Score, x10: Score, x11: Score,
                             x18: Choice, x29: Choice, x31: Choice, x33: Choice)

  /** The column names the classifier was trained with, in training order. */
  const FeatureNames: seq<string> := ["X1", "X10", "X11", "X18", "X29", "X31", "X33"]

  /** The widget whose variable carries the feature name `name`, looked up by name. */
  function WidgetValue(w: Widgets, name: string): (r: Option<int>)
    ensures r.Some? <==> name in FeatureNames
  {
    if name == "X1" then Some(w.x1)
    else if name == "X10" then Some(w.x10)
    else if name == "X11" then Some(w.x11)
    else if name == "X18" then Some(w.x18)
    else if name == "X29" then Some(w.x29)
    else if name == "X31" then Some(w.x31)
    else if name == "X33" then Some(w.x33)
    else None
  }

  /** The ranges the widgets enforce, read positionally on a feature vector. */
  predicate InRange(v: seq<int>)
  {
    |v| == |FeatureNames| &&
    (forall k :: 0 <= k < 3 ==> -10 <= v[k] <= 10) &&
    (forall k :: 3 <= k < |v| ==> v[k] == 0 || v[k] == 1)
  }

  /** The list built on submit: position k holds the widget named FeatureNames[k]. */
  function FeatureVector(w: Widgets): (v: seq<int>)
    ensures |v| == |FeatureNames|
    ensures forall k :: 0 <= k < |v| ==> WidgetValue(w, FeatureNames[k]) == Some(v[k])
    ensures InRange(v)
  {
    [w.x1, w.x10, w.x11, w.x18, w.x29, w.x31, w.x33]
  }

  /** The first position of `name` in `names`, if any. */
  function IndexOf(names: seq<string>, name: string): (r: Option<nat>)
    ensures r.None? <==> name !in names
    ensures r.Some? ==> r.value < |names| && names[r.value] == name
    ensures r.Some? ==> forall j :: 0 <= j < r.value ==> names[j] != name
  {
    if |names| == 0 then None
    else if names[0] == name then Some(0)
    else match IndexOf(names[1..], name)
      case None => None
      case Some(i) => Some(i + 1)
  }

  /** Column `name` of the one-row frame built from `v` with columns FeatureNames. */
  function Column(v: seq<int>, name: string): (r: Option<int>)
    requires |v| == |FeatureNames|
    ensures r.Some? <==> name in FeatureNames
    ensures r.Some? ==> exists k :: 0 <= k < |v| && FeatureNames[k] == name && r.value == v[k]
  {
    match IndexOf(FeatureNames, name)
    case None => None
    case Some(i) => Some(v[i])
  }

  /** The frame the explainer receives holds, in each named column, the widget of that name:
      the positional vector and the training column order agree. */
  lemma ExplainerColumnsAreWidgets(w: Widgets, name: string)
    ensures Column(FeatureVector(w), name) == WidgetValue(w, name)
  {
  }

  /** Class probabilities as returned for one row: p0 for class 0, p1 for class 1. */
  datatype Proba = Proba(p0: real, p1: real)

  /** What the classifier returns for one feature vector: a class and its probabilities. */
  datatype Prediction = Prediction(cls: int, proba: Proba)

  /** The two advice templates, each embedding the class-1 probability in percent. */
  datatype Advice = HighRisk(percent: real) | LowRisk(percent: real)

  /** The class-1 probability in percent, as embedded in the advice and displayed. */
  function Percent(proba: Proba): real
  {
    proba.p1 * 100.0
  }

  /** The advice for a predicted class: high risk exactly for class 1. */
  function AdviceFor(cls: int, proba: Proba): (a: Advice)
    ensures a.HighRisk? <==> cls == 1
    ensures a.LowRisk? <==> cls != 1
    ensures a.percent == Percent(proba)
  {
    if cls == 1 then HighRisk(Percent(proba)) else LowRisk(Percent(proba))
  }

  const DiseasedLabel: string := "患病"
  const HealthyLabel: string := "未患病 (0)"

  /** The displayed class label: the "diseased" one exactly for class 1. */
  function ClassLabel(cls: int): (text: string)
    ensures text == DiseasedLabel <==> cls == 1
    ensures text == HealthyLabel <==> cls != 1
  {
    if cls == 1 then DiseasedLabel else HealthyLabel
  }

  /** The label and the advice never disagree about the risk. */
  lemma LabelAgreesWithAdvice(cls: int, proba: Proba)
    ensures ClassLabel(cls) == DiseasedLabel <==> AdviceFor(cls, proba).HighRisk?
  {
  }
}
