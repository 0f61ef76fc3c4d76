/** Properties of the predictor session that relate several steps or several runs. */
module SessionProperties {
  import opened Form
  import opened SessionSpec

  /** Initialising an initialised session changes nothing. */
  lemma InitIdempotent(s: State)
    ensures InitState(InitState(s)) == InitState(s)
  {
  }

  /** A submit never merges with what the session held: the stored slots after it are the
      same whatever the session held before. */
  lemma SubmitOverwrites(s1: State, s2: State, w: Widgets, p: Prediction)
    ensures Slots(SubmitState(s1, w, p)) == Slots(SubmitState(s2, w, p))
  {
  }

  /** A run that submits the form and does not clear it leaves the session exactly as a new
      session would be after the same submit: nothing of an earlier prediction survives, the
      explanation is regenerated, and the image is the new vector's. */
  lemma SubmitRunForgetsHistory(s: State, w: Widgets, p: Prediction)
    requires Consistent(s)
    ensures RunState(s, Input(true, w, false), p).state == RunState(Fresh, Input(true, w, false), p).state
    ensures RunState(s, Input(true, w, false), p).view.regenerated
    ensures RunState(s, Input(true, w, false), p).state.plotFile == Some(FeatureVector(w))
  {
  }

  /** Two submits in a row: the second one's results and image are shown, the explanation is
      regenerated for it, and the session equals that of a new session submitting only it. */
  lemma SecondSubmitReplacesFirst(s: State, w1: Widgets, p1: Prediction, w2: Widgets, p2: Prediction)
    requires Consistent(s)
    ensures var t := RunState(s, Input(true, w1, false), p1).state;
            var r := RunState(t, Input(true, w2, false), p2);
            r.view.regenerated &&
            r.view.results == Some(Presentation(FeatureVector(w2), p2.cls, p2.proba)) &&
            r.state == RunState(Fresh, Input(true, w2, false), p2).state
  {
  }

  /** A run with no submit and no reset after a run changes no slot and regenerates nothing. */
  lemma QuietRunChangesNothing(s: State, w: Widgets, p: Prediction)
    requires Settled(s)
    ensures RunState(s, Input(false, w, false), p).state == s
    ensures !RunState(s, Input(false, w, false), p).view.regenerated
    ensures RunState(s, Input(false, w, false), p).view.results.Some? <==> HasPrediction(s)
  {
  }

  /** The run that makes the first prediction shows the prompt (decided before the submit)
      and the results together. */
  lemma FirstPredictionShowsPromptAndResults(s: State, w: Widgets, p: Prediction)
    requires Consistent(s) && !HasPrediction(s)
    ensures RunState(s, Input(true, w, false), p).view.promptShown
    ensures RunState(s, Input(true, w, false), p).view.results.Some?
  {
  }

  /** After the clear button, the rerun that follows shows the prompt and nothing else; the
      stored vector is still there. */
  lemma ResetThenRerunShowsPrompt(s: State, i: Input, p: Prediction, w: Widgets, q: Prediction)
    requires Consistent(s) && i.resetClicked && (i.submitted || HasPrediction(s))
    ensures var t := RunState(s, i, p).state;
            !HasPrediction(t) &&
            t.predictedClass == Present(None) && t.predictedProba == Present(None) &&
            t.advice == Present(None) && t.shapPlotGenerated == Present(false) &&
            RunState(t, Input(false, w, false), q).view == View(true, false, None, false)
    ensures i.submitted ==> RunState(s, i, p).state.featureValues == Present(FeatureVector(i.widgets))
    ensures !i.submitted ==> RunState(s, i, p).state.featureValues == s.featureValues
  {
  }

  /** One run keeps the stored prediction equal to the classifier's answer for the stored
      vector, and what it displays is faithful. */
  lemma RunKeepsAgreement(s: State, i: Input, predict: seq<int> -> Prediction)
    requires Consistent(s) && Agrees(s, predict)
    ensures var r := RunState(s, i, predict(FeatureVector(i.widgets)));
            Agrees(r.state, predict) && Faithful(r.view, predict)
  {
  }

  /** No stale explanation: in every run of a session, the image shown was drawn from the
      vector the session stores after that run, and the results shown beside it (class
      label, percentage, advice) are the classifier's answer for that vector. */
  lemma {:induction false} ReplayIsFaithful(s: State, inputs: seq<Input>, predict: seq<int> -> Prediction)
    requires Consistent(s) && Agrees(s, predict)
    ensures Agrees(Replay(s, inputs, predict).0, predict)
    ensures forall k :: 0 <= k < |inputs| ==> Faithful(Replay(s, inputs, predict).1[k], predict)
    ensures forall k :: 0 <= k < |inputs| ==>
      ShowsStoredImage(Replay(s, inputs, predict).1[k], Replay(s, inputs[..k + 1], predict).0)
    decreases |inputs|
  {
    if inputs != [] {
      var step := RunState(s, inputs[0], predict(FeatureVector(inputs[0].widgets)));
      RunKeepsAgreement(s, inputs[0], predict);
      var tail := inputs[1..];
      ReplayIsFaithful(step.state, tail, predict);
      var views := Replay(s, inputs, predict).1;
      assert views == [step.view] + Replay(step.state, tail, predict).1;
      forall k | 0 <= k < |inputs|
        ensures Faithful(views[k], predict)
        ensures ShowsStoredImage(views[k], Replay(s, inputs[..k + 1], predict).0)
      {
        assert inputs[..k + 1][0] == inputs[0];
        assert inputs[..k + 1][1..] == tail[..k];
        assert Replay(s, inputs[..k + 1], predict).0 == Replay(step.state, tail[..k], predict).0;
        if k > 0 {
          assert views[k] == Replay(step.state, tail, predict).1[k - 1];
          assert tail[..k - 1 + 1] == tail[..k];
        }
      }
    }
  }

  /** From the start of a browser session, no run ever shows an explanation drawn for
      another vector than the one the session stores for the prediction beside it, and that
      prediction is the classifier's answer for the image's vector. */
  lemma SessionNeverShowsStaleExplanation(inputs: seq<Input>, predict: seq<int> -> Prediction)
    ensures forall k :: 0 <= k < |inputs| ==> Faithful(Replay(Fresh, inputs, predict).1[k], predict)
    ensures forall k :: 0 <= k < |inputs| ==>
      ShowsStoredImage(Replay(Fresh, inputs, predict).1[k], Replay(Fresh, inputs[..k + 1], predict).0)
  {
    ReplayIsFaithful(Fresh, inputs, predict);
  }
}
