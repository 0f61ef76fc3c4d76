# CRKP predictor page: the per-session state machine

The predictor page (`predictor260106.py`) is a Streamlit script. It runs again from the
top when Predict or the clear button is clicked, after `st.rerun()`, and on Streamlit's
rerun command; the seven inputs sit inside a form and do not start runs. It threads a
small record of named slots through `st.session_state`. These slots are `prediction_made`, `predicted_class`, `predicted_proba`,
`advice`, `shap_plot_generated`, `feature_values` and `features`. Each run does five things in
order:

1. It gives the five control slots a default, but only where they are missing.
2. It shows the "click Predict" prompt if no prediction is stored yet.
3. On a form submit, it stores the seven-slot feature vector, the classifier's class and
   probabilities and the matching advice, and it clears the explanation flag.
4. While a prediction is stored, it displays the prediction. It regenerates the SHAP image
   file only while the flag is clear, and then sets the flag.
5. If the clear button was clicked, it clears the five control slots and ends the run.

This project models that machine in Dafny:

- `form.dfy` (module `Form`) covers the seven widgets, the training column order, the
  feature vector built on submit and the one-row frame handed to the explainer. It also
  covers the class label and the two advice templates.
- `session_spec.dfy` (module `SessionSpec`) holds the session record as a value, each step
  of a run as a function, one whole run (`RunState`) and a sequence of runs (`Replay`).
  It also holds the session invariant `Consistent`: the slots are populated together or
  cleared together, and a set explanation flag means the image was drawn from the stored
  vector.
- `predictor.dfy` (module `Predictor`) holds the class `Session`. Its fields are the session
  slots plus the explanation image file. Its methods `Init`, `Submit`, `ShowResults`,
  `Reset` and `Run` update those fields in place, in the script's order. Each method is
  proved equal to the matching function of `SessionSpec`, and each keeps `Valid()`.
- `session_properties.dfy` (module `SessionProperties`) holds the lemmas across steps and
  runs. They cover idempotence, overwrite-not-merge, the prompt decided before the submit,
  reset followed by a rerun, and the main property: within one session whose image file no other session writes, no
  run ever shows results beside an explanation drawn for another vector.
- `shared_image.dfy` (module `SharedImage`) covers two sessions served by one process. The
  script writes its image to one fixed file name, so the two sessions share that file
  (see Findings).

Representation choices:

- A slot is `Slot<T> = Absent | Present(value)`. This keeps "key missing" apart from "key
  bound to Python's `None`" (`Option.None`).
- The image file is represented by the feature vector it was generated from. The classifier
  is deterministic, so that vector also fixes the prediction the image explains.
- The classifier's answer enters a run as a parameter `Prediction(cls, proba)`. `Replay`
  and the two-session schedules take the classifier as a total function
  `seq<int> -> Prediction`.
- Integer widgets are the subset types `Score` (−10..10) and `Choice` (0 or 1), because the
  widgets enforce those bounds.

Modelling choices about the script:

- Reset clears the five control slots. `feature_values`, `features` and the image file stay.
- The model does not require p0 + p1 = 1; the script never checks it.
- The clear button is drawn only inside the results block. So a click takes effect only in a
  run that displays a prediction, and it takes effect after the display.

## Model

| member | source | states |
|---|---|---|
| `Form.Fill` | predictor260106.py:23-32 | A missing slot gets the default; a slot already present keeps its value. |
| `Form.WidgetValue` | predictor260106.py:88-112 | A widget variable exists for a name exactly when the name is one of the training column names. |
| `Form.IndexOf` | predictor260106.py:210-213 | Finds the first position of a column name, and finds nothing exactly when the name is not among the columns. |
| `Form.Column` | predictor260106.py:210-213 | The one-row frame built with `columns=feature_names` has a column exactly for each feature name, holding the vector entry at that name's position. |
| `Form.FeatureVector` | predictor260106.py:88-129 | The submitted vector has seven entries. Position k holds the widget whose name is the k-th training column name. The first three entries lie in [−10, 10] and the last four in {0, 1}. |
| `Form.ExplainerColumnsAreWidgets` | predictor260106.py:196-213 | In the one-row frame built with `columns=feature_names`, each named column holds the widget of that name. A name that is not a feature has no column and no widget. |
| `Form.AdviceFor` | predictor260106.py:145-159 | The advice is the high-risk template exactly when the class is 1 and the low-risk template otherwise. Both embed the class-1 probability times 100. |
| `Form.ClassLabel` | predictor260106.py:177 | The label is "患病" exactly when the class is 1, and "未患病 (0)" exactly when it is not. |
| `Form.LabelAgreesWithAdvice` | predictor260106.py:147-177 | The label and the advice never disagree about the risk. |
| `SessionSpec.InitState` | predictor260106.py:23-32 | Each missing control slot gets its default (False or None). A slot already bound keeps its value. `feature_values`, `features` and the image are untouched. Initialisation preserves the invariant. |
| `SessionSpec.SubmitState` | predictor260106.py:127-162 | After a submit, from any prior state: a prediction exists and the new class, probabilities and vector are stored. The advice is high-risk iff the class is 1. The explanation flag is clear, the image file is untouched and the whole invariant holds. |
| `SessionSpec.DisplayState` | predictor260106.py:169-231 | The image is regenerated exactly when the flag was clear, and the flag is set afterwards. Nothing else changes, and nothing at all changes when the image is not regenerated. Label, percentage and advice come from the stored slots, and the image is the file read back. In a consistent session that file is the one drawn from the stored vector. |
| `SessionSpec.ResetState` | predictor260106.py:253-259 | After a reset, from any prior state: `prediction_made` and the flag are False, and class, probabilities and advice are None. `feature_values`, `features` and the image are unchanged, and the invariant holds. |
| `SessionSpec.RunState` | predictor260106.py:122-259 | In one run, the prompt appears iff no prediction existed before the run's submit is handled. The success message appears iff the form was submitted. Results appear iff submitted or a prediction existed, and the image is regenerated iff submitted, or a prediction existed and the flag was not set. After a submit the new vector's results and image are shown. Otherwise, in a consistent session, the stored prediction and its own image are shown. In a consistent session the image shown was drawn from the vector stored after the run, and the run ends settled (prediction stored implies flag set). |
| `SessionSpec.Replay` | predictor260106.py:122-259 | After any non-empty sequence of runs starting from a consistent session, the session is settled. |
| `SessionProperties.InitIdempotent` | predictor260106.py:23-32 | Initialising twice is the same as initialising once. |
| `SessionProperties.SubmitOverwrites` | predictor260106.py:137-162 | The slots after a submit do not depend on what the session held before: a submit never merges with an earlier prediction. |
| `SessionProperties.SubmitRunForgetsHistory` | predictor260106.py:127-225 | A submit run without reset leaves the session exactly as a new session would be after the same submit. The explanation is regenerated and the image is the new vector's. |
| `SessionProperties.SecondSubmitReplacesFirst` | predictor260106.py:127-231 | With two submits in a row, the second run shows the second vector's results and image and regenerates. The session then equals that of a new session that made only the second submit. |
| `SessionProperties.QuietRunChangesNothing` | predictor260106.py:169-231 | Between runs, a run with no submit and no reset changes no slot, regenerates nothing, and shows results iff a prediction is stored. |
| `SessionProperties.FirstPredictionShowsPromptAndResults` | predictor260106.py:122-169 | On the run that makes the first prediction, the prompt and the results are both shown. |
| `SessionProperties.ResetThenRerunShowsPrompt` | predictor260106.py:253-259 | A reset run leaves no prediction, with all result slots None and the flag False, and the stored vector stays. The rerun that follows shows only the prompt. |
| `SessionProperties.RunKeepsAgreement` | predictor260106.py:127-231 | A run keeps the stored prediction equal to the classifier's answer for the stored vector. What it shows is that answer for the vector of the displayed image. |
| `SessionProperties.ReplayIsFaithful` | predictor260106.py:162-231 | In every run of a sequence, the image shown was drawn from the vector the session stores after that run (a reset keeps it). The label, percentage and advice shown are the classifier's answer for that vector. |
| `SessionProperties.SessionNeverShowsStaleExplanation` | predictor260106.py:162-231 | From the start of a browser session, every run that shows results shows the image drawn from the session's stored vector, and results that are the classifier's answer for it. |
| `SharedImage.ServeShared` | predictor260106.py:224-231 | Serving a schedule of two sessions' requests over the one shared image file yields one view per request. |
| `SharedImage.ServeIsolated` | predictor260106.py:224-231 | Serving a schedule with one image per session yields one view per request. |
| `SharedImage.SharedFileShowsForeignExplanation` | predictor260106.py:224-231 | With the shared file: session A predicts for the all-zero form, then session B predicts for X1 = 1. A's next quiet run then shows A's low-risk result beside B's image without regenerating, so it is not faithful. |
| `SharedImage.IsolatedAfter` | predictor260106.py:224-231 | Serving a schedule with one image per session keeps both session records consistent. |
| `SharedImage.IsolatedFilesStayFaithful` | predictor260106.py:224-231 | With one image per session, in every view of every interleaving of the two sessions, the image shown was drawn from the vector the addressed session stores after that request, and the results shown are the classifier's answer for that vector. |
| `Predictor.Session.constructor` | predictor260106.py:23-32 | A new session holds no slot and no image, and is valid. |
| `Predictor.Session.Init` | predictor260106.py:23-32 | Fills the missing slots in place. The new state is `InitState` of the old one, and it is valid and initialised. |
| `Predictor.Session.Submit` | predictor260106.py:127-162 | Stores the submission in place. The new state is `SubmitState` of the old one, and it is valid with a prediction. |
| `Predictor.Session.ShowResults` | predictor260106.py:169-231 | Displays the stored prediction in place. The flag ends up set, and the image file and the shown image are the stored vector's. State, shown block and regenerated flag are those of `DisplayState`. |
| `Predictor.Session.Reset` | predictor260106.py:253-259 | Clears in place. The new state is `ResetState` of the old one, and it is valid with no prediction. |
| `Predictor.Session.Run` | predictor260106.py:122-259 | One script run in place. The new state and the returned view are those of `RunState`, the session stays valid and settled, and any shown image is the file on disk. |

## Left out

- Loading the model with `joblib.load('RF.pkl')` and calling `predict`/`predict_proba`
  (lines 36, 133-135): the model is an opaque external artifact. Its answer is a parameter
  of each run, or a total function in `Replay` and the schedules.
- `pd.read_csv('X_test.csv')` (line 39) and the commented-out LIME path (lines 233-250): file
  input, used only by dead code.
- SHAP `TreeExplainer`, `force_plot`, matplotlib and `savefig` (lines 194-224) are foreign
  numeric libraries and file output. Generating the image is modelled as writing the feature
  vector it explains into the image file.
- The percentage formatting `:.1f` and `:.2f`, and the advice wording (lines 145-159,
  181-182, 226-228), involve floating point and text formatting. The percentage is the
  exact real `p1 * 100`, and the advice is a template choice carrying it. The caption at
  lines 226-228 repeats that percentage and is not a separate field of the view.
- Streamlit widgets, the form, `st.title`, `st.subheader`, `st.write`, `st.info`,
  `st.success` and `st.image` belong to the UI framework. The view records prompt, success
  message, results block and regeneration, and the widget bounds are types.
- `st.rerun()` (line 259) is taken as the end of the run. The rerun it causes is a further
  run with no submit and no click (`ResetThenRerunShowsPrompt`).
- Failures of foreign steps are not modelled. An exception from the explainer or `savefig`
  (lines 194-224) aborts the run after the submit and leaves the flag False. `Settled` after a
  run therefore assumes every foreign step completes.
- Real concurrency between two sessions' threads is not modelled. `SharedImage` covers only
  sequential interleavings of whole runs.
- `SharedImage.ServeShared`: its contract states only the number of views. Everything about
  their content is stated by `SharedFileShowsForeignExplanation`.
- `SharedImage.ServeIsolated`: its contract states only the number of views. What they show
  is stated by `IsolatedFilesStayFaithful`.

## Findings

| source | as written | input that shows it | evidently intended | confidence | as-written member | corrected member |
|---|---|---|---|---|---|---|
| predictor260106.py:224-231 | The explanation image is written to and read back from the one fixed path `shap_force_plot.png`, which every browser session of the process shares. A session whose flag is set shows whatever image is on disk. | Session A submits the all-zero form. Session B then submits X1 = 1. A's next run without a submit shows A's class-0 result beside the explanation of B's vector. The form's inputs do not start runs, so such a run comes from Streamlit's rerun command, or from A clicking the clear button, which displays the results with B's image before clearing. | Each session displays only an explanation drawn for its own stored prediction: an image per session, or an in-memory buffer. | medium, not executed | `SharedImage.SharedFileShowsForeignExplanation` | `SharedImage.IsolatedFilesStayFaithful` |
