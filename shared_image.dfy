/** Two browser sessions served by one process. Each has its own session record, but the
    page writes the explanation image to, and reads it back from, one fixed file name, so
    both sessions share that file. SharedFile models that as written; IsolatedFiles gives
    each session its own image, which is the per-session model of SessionSpec. */
module SharedImage {
  import opened Form
  import opened SessionSpec
  import SessionProperties

  /** One request of the process: which session it belongs to and what the user did. */
  datatype Request = Request(toA: bool, input: Input)

  /** The process as written: two session records and the one image file they share. A
      record's own `plotFile` component is unused; the file is `disk`. */
  datatype SharedFile = SharedFile(a: State, b: State, disk: Option<seq<int>>)

  /** The process with one image per session, kept in each record's `plotFile`. */
  datatype IsolatedFiles = IsolatedFiles(a: State, b: State)

  predicate SharedOk(sv: SharedFile)
  {
    Populated(sv.a.(plotFile := sv.disk)) && Populated(sv.b.(plotFile := sv.disk))
  }

  /** A schedule of requests served as written, the classifier being `predict`. */
  function ServeShared(sv: SharedFile, schedule: seq<Request>, predict: seq<int> -> Prediction): (r: seq<View>)
    requires SharedOk(sv)
    ensures |r| == |schedule|
    decreases |schedule|
  {
    if schedule == [] then []
    else
      var q := schedule[0];
      var own := if q.toA then sv.a else sv.b;
      var step := RunState(own.(plotFile := sv.disk), q.input, predict(FeatureVector(q.input.widgets)));
      var next := if q.toA then SharedFile(step.state, sv.b, step.state.plotFile)
                  else SharedFile(sv.a, step.state, step.state.plotFile);
      [step.view] + ServeShared(next, schedule[1..], predict)
  }

  /** A schedule of requests, each session keeping its own image. */
  function ServeIsolated(sv: IsolatedFiles, schedule: seq<Request>, predict: seq<int> -> Prediction): (r: seq<View>)
    requires Consistent(sv.a) && Consistent(sv.b)
    ensures |r| == |schedule|
    decreases |schedule|
  {
    if schedule == [] then []
    else
      var q := schedule[0];
      var own := if q.toA then sv.a else sv.b;
      var step := RunState(own, q.input, predict(FeatureVector(q.input.widgets)));
      var next := if q.toA then IsolatedFiles(step.state, sv.b) else IsolatedFiles(sv.a, step.state);
      [step.view] + ServeIsolated(next, schedule[1..], predict)
  }

  /** The two session records after serving a schedule, each session keeping its own image:
      the state half of ServeIsolated. */
  function IsolatedAfter(sv: IsolatedFiles, schedule: seq<Request>, predict: seq<int> -> Prediction): (r: IsolatedFiles)
    requires Consistent(sv.a) && Consistent(sv.b)
    ensures Consistent(r.a) && Consistent(r.b)
    decreases |schedule|
  {
    if schedule == [] then sv
    else
      var q := schedule[0];
      var own := if q.toA then sv.a else sv.b;
      var step := RunState(own, q.input, predict(FeatureVector(q.input.widgets)));
      var next := if q.toA then IsolatedFiles(step.state, sv.b) else IsolatedFiles(sv.a, step.state);
      IsolatedAfter(next, schedule[1..], predict)
  }

  /** The record of the session a request belongs to. */
  function Addressed(sv: IsolatedFiles, q: Request): State
  {
    if q.toA then sv.a else sv.b
  }

  /** A classifier that tells the two vectors of the counterexample apart. */
  function DemoModel(v: seq<int>): Prediction
  {
    if |v| > 0 && v[0] == 1 then Prediction(1, Proba(0.2, 0.8)) else Prediction(0, Proba(0.9, 0.1))
  }

  /** As written, the image file is shared: session A predicts for the all-zero form,
      session B then predicts for X1 = 1 and overwrites the file, and A's next run (no
      submit, flag still set) shows A's low-risk result beside B's explanation. */
  lemma SharedFileShowsForeignExplanation()
    ensures var zero := Widgets(0, 0, 0, 0, 0, 0, 0);
            var one := Widgets(1, 0, 0, 0, 0, 0, 0);
            var schedule := [Request(true, Input(true, zero, false)),
                             Request(false, Input(true, one, false)),
                             Request(true, Input(false, zero, false))];
            var views := ServeShared(SharedFile(Fresh, Fresh, None), schedule, DemoModel);
            views[2].results.Some? && !views[2].regenerated &&
            views[2].results.value.image == FeatureVector(one) &&
            views[2].results.value.classLabel == HealthyLabel &&
            !Faithful(views[2], DemoModel)
  {
    var zero := Widgets(0, 0, 0, 0, 0, 0, 0);
    var one := Widgets(1, 0, 0, 0, 0, 0, 0);
    var r1 := RunState(Fresh, Input(true, zero, false), DemoModel(FeatureVector(zero)));
    var sv1 := SharedFile(r1.state, Fresh, r1.state.plotFile);
    var r2 := RunState(Fresh.(plotFile := sv1.disk), Input(true, one, false), DemoModel(FeatureVector(one)));
    assert r2.state.plotFile == Some(FeatureVector(one));
    var sv2 := SharedFile(r1.state, r2.state, r2.state.plotFile);
    assert r1.state.shapPlotGenerated == Present(true);
    var r3 := RunState(r1.state.(plotFile := sv2.disk), Input(false, zero, false), DemoModel(FeatureVector(zero)));
    assert r3.view.results.value.image == FeatureVector(one);
    assert r3.view.results.value.classLabel == HealthyLabel;
    assert DemoModel(FeatureVector(one)).cls == 1;
    var schedule := [Request(true, Input(true, zero, false)),
                     Request(false, Input(true, one, false)),
                     Request(true, Input(false, zero, false))];
    var views := ServeShared(SharedFile(Fresh, Fresh, None), schedule, DemoModel);
    assert ServeShared(sv2, schedule[2..], DemoModel) == [r3.view] + ServeShared(sv2.(a := r3.state, disk := r3.state.plotFile), [], DemoModel);
    assert ServeShared(sv1, schedule[1..], DemoModel) == [r2.view] + ServeShared(sv2, schedule[2..], DemoModel);
    assert views == [r1.view] + ServeShared(sv1, schedule[1..], DemoModel);
    assert views[2] == r3.view;
  }

  /** With one image per session, no schedule of requests of the two sessions ever shows a
      result beside an explanation drawn for another vector: in every view the image is the
      vector the addressed session stores after that request, and the results beside it are
      the classifier's answer for that vector. */
  lemma {:induction false} IsolatedFilesStayFaithful(sv: IsolatedFiles, schedule: seq<Request>, predict: seq<int> -> Prediction)
    requires Consistent(sv.a) && Consistent(sv.b) && Agrees(sv.a, predict) && Agrees(sv.b, predict)
    ensures forall k :: 0 <= k < |schedule| ==> Faithful(ServeIsolated(sv, schedule, predict)[k], predict)
    ensures forall k :: 0 <= k < |schedule| ==>
      ShowsStoredImage(ServeIsolated(sv, schedule, predict)[k],
                       Addressed(IsolatedAfter(sv, schedule[..k + 1], predict), schedule[k]))
    decreases |schedule|
  {
    if schedule != [] {
      var q := schedule[0];
      var own := if q.toA then sv.a else sv.b;
      var step := RunState(own, q.input, predict(FeatureVector(q.input.widgets)));
      SessionProperties.RunKeepsAgreement(own, q.input, predict);
      var next := if q.toA then IsolatedFiles(step.state, sv.b) else IsolatedFiles(sv.a, step.state);
      IsolatedFilesStayFaithful(next, schedule[1..], predict);
      var views := ServeIsolated(sv, schedule, predict);
      assert views == [step.view] + ServeIsolated(next, schedule[1..], predict);
      var tail := schedule[1..];
      forall k | 0 <= k < |schedule|
        ensures Faithful(views[k], predict)
        ensures ShowsStoredImage(views[k], Addressed(IsolatedAfter(sv, schedule[..k + 1], predict), schedule[k]))
      {
        assert schedule[..k + 1][0] == q;
        assert schedule[..k + 1][1..] == tail[..k];
        assert IsolatedAfter(sv, schedule[..k + 1], predict) == IsolatedAfter(next, tail[..k], predict);
        if k > 0 {
          assert views[k] == ServeIsolated(next, tail, predict)[k - 1];
          assert tail[k - 1] == schedule[k];
          assert tail[..k - 1 + 1] == tail[..k];
        }
      }
    }
  }
}
