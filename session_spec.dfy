/** The session record of the predictor page as a value, and one script run over it as a
    function: initialise absent slots, decide the prompt, handle a submit, display the
    stored prediction (regenerating the explanation image only when its flag is clear),
    handle a reset. The class in predictor.dfy performs these steps in place. */
module SessionSpec {
  import opened Form

  /** The session slots, plus the explanation image file, represented by the feature
      vector it was drawn from (None while no image has been written). */
  datatype State = State(
    predictionMade: Slot<bool>,
    predictedClass: Slot<Option<int>>,
    predictedProba: Slot<Option<Proba>>,
    advice: Slot<Option<Advice>>,
    shapPlotGenerated: Slot<bool>,
    featureValues: Slot<seq<int>>,
    features: Slot<seq<seq<int>>>,
    plotFile: Option<seq<int>>)

  /** A new browser session: no slot exists yet and no image has been written. */
  const Fresh := State(Absent, Absent, Absent, Absent, Absent, Absent, Absent, None)

  /** What the displayed results block shows. */
  datatype Shown = Shown(classLabel: string, percent: real, advice: Advice, image: seq<int>)

  /** What one run puts on the page. */
  datatype View = View(promptShown: bool, successShown: bool, results: Option<Shown>, regenerated: bool)

  /** The interaction that triggered a run: whether the form was submitted, with which
      widget values, and whether the clear button was clicked. */
  datatype Input = Input(submitted: bool, widgets: Widgets, resetClicked: bool)

  datatype Displayed = Displayed(state: State, shown: Shown, regenerated: bool)

  datatype Step = Step(state: State, view: View)

  predicate Initialised(s: State)
  {
    s.predictionMade.Present? && s.predictedClass.Present? && s.predictedProba.Present? &&
    s.advice.Present? && s.shapPlotGenerated.Present?
  }

  predicate HasPrediction(s: State)
  {
    s.predictionMade == Present(true)
  }

  /** A result slot that holds nothing: missing or bound to None. */
  predicate Cleared<T>(slot: Slot<Option<T>>)
  {
    slot == Absent || slot == Present(None)
  }

  /** The results block for a feature vector and the prediction made for it. */
  function Presentation(v: seq<int>, cls: int, proba: Proba): Shown
  {
    Shown(ClassLabel(cls), Percent(proba), AdviceFor(cls, proba), v)
  }

  /** The prediction slots are populated together (with the advice that belongs to the
      stored class) or cleared together, and the explanation flag is only ever set while a
      prediction is stored and some image file exists. */
  predicate Populated(s: State)
  {
    (HasPrediction(s) ==>
      s.predictedClass.Present? && s.predictedClass.value.Some? &&
      s.predictedProba.Present? && s.predictedProba.value.Some? &&
      s.advice == Present(Some(AdviceFor(s.predictedClass.value.value, s.predictedProba.value.value))) &&
      s.featureValues.Present? && InRange(s.featureValues.value) &&
      s.features == Present([s.featureValues.value])) &&
    (!HasPrediction(s) ==>
      Cleared(s.predictedClass) && Cleared(s.predictedProba) && Cleared(s.advice)) &&
    (s.shapPlotGenerated == Present(true) ==> HasPrediction(s) && s.plotFile.Some?)
  }

  /** The session invariant: the slots are populated together and a set explanation flag
      means the image was drawn from the stored feature vector. */
  predicate Consistent(s: State)
  {
    Populated(s) &&
    (s.shapPlotGenerated == Present(true) ==> s.plotFile == Some(s.featureValues.value))
  }

  /** Between runs a stored prediction always has its explanation generated. */
  predicate Settled(s: State)
  {
    Initialised(s) && Consistent(s) && (HasPrediction(s) ==> s.shapPlotGenerated == Present(true))
  }

  /** The storage a prediction occupies, without the image file. */
  function Slots(s: State): State
  {
    s.(plotFile := None)
  }

  /** Initialisation: each of the five slots gets its default only when it is missing. */
  function InitState(s: State): (t: State)
    ensures Initialised(t)
    ensures s.predictionMade.Present? ==> t.predictionMade == s.predictionMade
    ensures s.predictionMade.Absent? ==> t.predictionMade == Present(false)
    ensures s.predictedClass.Present? ==> t.predictedClass == s.predictedClass
    ensures s.predictedClass.Absent? ==> t.predictedClass == Present(None)
    ensures s.predictedProba.Present? ==> t.predictedProba == s.predictedProba
    ensures s.predictedProba.Absent? ==> t.predictedProba == Present(None)
    ensures s.advice.Present? ==> t.advice == s.advice
    ensures s.advice.Absent? ==> t.advice == Present(None)
    ensures s.shapPlotGenerated.Present? ==> t.shapPlotGenerated == s.shapPlotGenerated
    ensures s.shapPlotGenerated.Absent? ==> t.shapPlotGenerated == Present(false)
    ensures t.featureValues == s.featureValues && t.features == s.features && t.plotFile == s.plotFile
    ensures HasPrediction(t) <==> HasPrediction(s)
    ensures Populated(s) ==> Populated(t)
    ensures Consistent(s) ==> Consistent(t)
  {
    s.(predictionMade := Fill(s.predictionMade, false),
       predictedClass := Fill(s.predictedClass, None),
       predictedProba := Fill(s.predictedProba, None),
       advice := Fill(s.advice, None),
       shapPlotGenerated := Fill(s.shapPlotGenerated, false))
  }

  /** Submit: the vector, the class, the probabilities and the matching advice are stored
      together and the explanation flag is cleared, whatever the session held before. */
  function SubmitState(s: State, w: Widgets, p: Prediction): (t: State)
    ensures Consistent(t) && HasPrediction(t)
    ensures t.predictedClass == Present(Some(p.cls)) && t.predictedProba == Present(Some(p.proba))
    ensures t.featureValues == Present(FeatureVector(w))
    ensures t.advice.value.value.HighRisk? <==> p.cls == 1
    ensures t.shapPlotGenerated == Present(false)
    ensures t.plotFile == s.plotFile
  {
    var v := FeatureVector(w);
    s.(predictionMade := Present(true),
       predictedClass := Present(Some(p.cls)),
       predictedProba := Present(Some(p.proba)),
       featureValues := Present(v),
       features := Present([v]),
       advice := Present(Some(AdviceFor(p.cls, p.proba))),
       shapPlotGenerated := Present(false))
  }

  /** Display of a stored prediction: the image is regenerated exactly when the flag is
      clear and the flag is set afterwards; label, percentage and advice come from the
      stored slots and the image is the file read back. In a consistent session that file
      was drawn from the stored vector. */
  function DisplayState(s: State): (d: Displayed)
    requires Initialised(s) && Populated(s) && HasPrediction(s)
    ensures Populated(d.state) && Initialised(d.state) && HasPrediction(d.state)
    ensures d.regenerated <==> s.shapPlotGenerated == Present(false)
    ensures d.state.shapPlotGenerated == Present(true)
    ensures d.state.plotFile == if d.regenerated then Some(s.featureValues.value) else s.plotFile
    ensures Slots(d.state) == Slots(s).(shapPlotGenerated := Present(true))
    ensures !d.regenerated ==> d.state == s
    ensures d.shown == Presentation(d.state.plotFile.value, s.predictedClass.value.value, s.predictedProba.value.value)
    ensures Consistent(s) ==> Consistent(d.state) && d.state.plotFile == Some(s.featureValues.value)
  {
    var v := s.featureValues.value;
    var t := if !s.shapPlotGenerated.value
      then s.(plotFile := Some(v), shapPlotGenerated := Present(true))
      else s;
    var cls := s.predictedClass.value.value;
    var proba := s.predictedProba.value.value;
    Displayed(t, Shown(ClassLabel(cls), Percent(proba), s.advice.value.value, t.plotFile.value),
              !s.shapPlotGenerated.value)
  }

  /** Reset: the prediction and the three result slots are cleared together and the flag is
      cleared; the stored vector, its one-row array and the image file stay. */
  function ResetState(s: State): (t: State)
    ensures Consistent(t) && Initialised(t) && !HasPrediction(t)
    ensures t.predictionMade == Present(false) && t.shapPlotGenerated == Present(false)
    ensures t.predictedClass == Present(None) && t.predictedProba == Present(None) && t.advice == Present(None)
    ensures t.featureValues == s.featureValues && t.features == s.features && t.plotFile == s.plotFile
  {
    s.(predictionMade := Present(false),
       predictedClass := Present(None),
       predictedProba := Present(None),
       advice := Present(None),
       shapPlotGenerated := Present(false))
  }

  /** One script run. `p` is what the classifier answers for the submitted vector; it is
      used only when the form was submitted. The prompt is decided on the state before the
      submit is handled; the clear button exists only inside the results block. The image
      shown is the file read back; when the session is consistent (its file written by
      nobody else) that image was drawn from the vector of the prediction shown. */
  function RunState(s: State, i: Input, p: Prediction): (r: Step)
    requires Populated(s)
    ensures Populated(r.state) && Initialised(r.state)
    ensures Consistent(s) ==> Settled(r.state)
    ensures r.view.promptShown <==> !HasPrediction(s)
    ensures r.view.successShown == i.submitted
    ensures r.view.results.Some? <==> i.submitted || HasPrediction(s)
    ensures r.view.regenerated <==> i.submitted || (HasPrediction(s) && s.shapPlotGenerated != Present(true))
    ensures HasPrediction(r.state) <==> r.view.results.Some? && !i.resetClicked
    ensures r.view.results.Some? ==> r.state.plotFile == Some(r.view.results.value.image)
    ensures i.submitted ==> r.view.results == Some(Presentation(FeatureVector(i.widgets), p.cls, p.proba))
    ensures !i.submitted && s.shapPlotGenerated == Present(true) ==> r.view.results.value.image == s.plotFile.value
    ensures Consistent(s) && !i.submitted && HasPrediction(s) ==>
      r.view.results == Some(Presentation(s.featureValues.value, s.predictedClass.value.value, s.predictedProba.value.value))
    ensures Consistent(s) ==> ShowsStoredImage(r.view, r.state)
  {
    var s1 := InitState(s);
    var prompt := !s1.predictionMade.value;
    var s2 := if i.submitted then SubmitState(s1, i.widgets, p) else s1;
    if s2.predictionMade.value then
      var d := DisplayState(s2);
      var s3 := if i.resetClicked then ResetState(d.state) else d.state;
      Step(s3, View(prompt, i.submitted, Some(d.shown), d.regenerated))
    else
      Step(s2, View(prompt, i.submitted, None, false))
  }

  /** The stored prediction is the classifier's answer for the stored vector. */
  predicate Agrees(s: State, predict: seq<int> -> Prediction)
    requires Consistent(s)
  {
    HasPrediction(s) ==>
      predict(s.featureValues.value) == Prediction(s.predictedClass.value.value, s.predictedProba.value.value)
  }

  /** The image a run shows was drawn from the vector the session stores after the run
      (a reset keeps that vector). */
  predicate ShowsStoredImage(v: View, t: State)
  {
    v.results.Some? ==> t.featureValues == Present(v.results.value.image)
  }

  /** A results block is faithful when label, percentage and advice are those of the
      classifier's answer for the very vector the explanation image was drawn from. This
      compares answers only; that the image is the stored prediction's own vector is
      ShowsStoredImage. */
  predicate Faithful(v: View, predict: seq<int> -> Prediction)
  {
    v.results.Some? ==>
      var shown := v.results.value;
      var answer := predict(shown.image);
      shown == Presentation(shown.image, answer.cls, answer.proba)
  }

  /** A sequence of runs of one session, the classifier being the function `predict`. */
  function Replay(s: State, inputs: seq<Input>, predict: seq<int> -> Prediction): (r: (State, seq<View>))
    requires Consistent(s)
    ensures Settled(r.0) || (inputs == [] && r.0 == s)
    ensures |r.1| == |inputs|
    decreases |inputs|
  {
    if inputs == [] then (s, [])
    else
      var step := RunState(s, inputs[0], predict(FeatureVector(inputs[0].widgets)));
      var rest := Replay(step.state, inputs[1..], predict);
      (rest.0, [step.view] + rest.1)
  }
}
