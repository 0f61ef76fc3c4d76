/** The predictor page's per-session record, updated in place by one script run. Each
    method is proved against the matching function of SessionSpec; the invariant Valid()
    says that the explanation image on disk belongs to the stored prediction whenever its
    flag is set. */
module Predictor {
  import opened Form
  import opened SessionSpec

  class Session {
    var predictionMade: Slot<bool>
    var predictedClass: Slot<Option<int>>
    var predictedProba: Slot<Option<Proba>>
    var advice: Slot<Option<Advice>>
    var shapPlotGenerated: Slot<bool>
    var featureValues: Slot<seq<int>>
    var features: Slot<seq<seq<int>>>
    /** The explanation image file, as the feature vector it was generated from. */
    var plotFile: Option<seq<int>>

    function Snapshot(): State
      reads this
    {
      State(predictionMade, predictedClass, predictedProba, advice,
            shapPlotGenerated, featureValues, features, plotFile)
    }

    predicate Valid()
      reads this
    {
      Consistent(Snapshot())
    }

    /** A new browser session: the record holds no slot and no image exists. */
    constructor ()
      ensures Valid() && Snapshot() == Fresh
    {
      predictionMade, predictedClass, predictedProba, advice := Absent, Absent, Absent, Absent;
      shapPlotGenerated, featureValues, features, plotFile := Absent, Absent, Absent, None;
    }

    /** Gives each of the five slots its default, only when the slot is missing. */
    method Init()
      requires Valid()
      modifies this
      ensures Valid() && Initialised(Snapshot())
      ensures Snapshot() == InitState(old(Snapshot()))
    {
      if predictionMade.Absent? {
        predictionMade := Present(false);
      }
      if predictedClass.Absent? {
        predictedClass := Present(None);
      }
      if predictedProba.Absent? {
        predictedProba := Present(None);
      }
      if advice.Absent? {
        advice := Present(None);
      }
      if shapPlotGenerated.Absent? {
        shapPlotGenerated := Present(false);
      }
    }

    /** Stores a submitted feature vector and the classifier's answer `p` for it, chooses
        the advice template by class and clears the explanation flag. */
    method Submit(w: Widgets, p: Prediction)
      modifies this
      ensures Valid() && HasPrediction(Snapshot())
      ensures Snapshot() == SubmitState(old(Snapshot()), w, p)
    {
      var values := FeatureVector(w);
      predictionMade := Present(true);
      predictedClass := Present(Some(p.cls));
      predictedProba := Present(Some(p.proba));
      featureValues := Present(values);
      features := Present([values]);
      advice := Present(Some(AdviceFor(p.cls, p.proba)));
      shapPlotGenerated := Present(false);
    }

    /** Displays the stored prediction; writes the explanation image only when the flag is
        clear, then sets the flag. The image returned is the one read back from disk. */
    method ShowResults() returns (shown: Shown, regenerated: bool)
      requires Valid() && Initialised(Snapshot()) && HasPrediction(Snapshot())
      modifies this
      ensures Valid() && shapPlotGenerated == Present(true)
      ensures shown.image == featureValues.value && plotFile == Some(featureValues.value)
      ensures var d := DisplayState(old(Snapshot()));
              Snapshot() == d.state && shown == d.shown && regenerated == d.regenerated
    {
      var cls := predictedClass.value.value;
      var proba := predictedProba.value.value;
      var classLabel := ClassLabel(cls);
      var percent := Percent(proba);
      var text := advice.value.value;
      regenerated := !shapPlotGenerated.value;
      if regenerated {
        plotFile := Some(featureValues.value);
        shapPlotGenerated := Present(true);
      }
      shown := Shown(classLabel, percent, text, plotFile.value);
    }

    /** The clear button: empties the prediction slots and the flag; the stored vector and
        the image file stay. */
    method Reset()
      modifies this
      ensures Valid() && !HasPrediction(Snapshot())
      ensures Snapshot() == ResetState(old(Snapshot()))
    {
      predictionMade := Present(false);
      predictedClass := Present(None);
      predictedProba := Present(None);
      advice := Present(None);
      shapPlotGenerated := Present(false);
    }

    /** One script run: `submitted` and `w` come from the form, `p` is the classifier's
        answer for FeatureVector(w), `resetClicked` is the clear button. */
    method Run(submitted: bool, w: Widgets, p: Prediction, resetClicked: bool) returns (view: View)
      requires Valid()
      modifies this
      ensures Valid() && Settled(Snapshot())
      ensures view.results.Some? ==> plotFile == Some(view.results.value.image)
      ensures var r := RunState(old(Snapshot()), Input(submitted, w, resetClicked), p);
              Snapshot() == r.state && view == r.view
    {
      Init();
      var prompt := !predictionMade.value;
      if submitted {
        Submit(w, p);
      }
      var results: Option<Shown> := None;
      var regenerated := false;
      if predictionMade.value {
        var shown;
        shown, regenerated := ShowResults();
        results := Some(shown);
        if resetClicked {
          Reset();
        }
      }
      view := View(prompt, submitted, results, regenerated);
    }
  }
}
