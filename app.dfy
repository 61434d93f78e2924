/** One run of the app's script: resolve the selected model, halt when its
    artifact is missing, and on "Predict" encode the form, ask the classifier
    for a label and pick the result panel. */
module LoanApp {
  import opened Options
  import opened Registry
  import opened ApplicantForm
  import opened FeatureEncoder

  /** The two mutually exclusive result cards. */
  datatype Panel = Approved | Rejected

  /** What one run of the script ends with. */
  datatype Screen =
    | Halted(missingFile: string)   // the error naming the missing artifact, then st.stop()
    | Crashed                       // an uncaught exception from loading or from the classifier
    | AwaitingPredict               // the form is shown and the button was not pressed
    | Decision(panel: Panel)        // the result card after "Predict"

  /** The branch on the predicted label: 1 is the approved card, every other
      label the rejected one. */
  function ResultPanel(prediction: int): (p: Panel)
    ensures p == Approved <==> prediction == 1
    ensures p == Rejected <==> prediction != 1
  {
    if prediction == 1 then Approved else Rejected
  }

  /** One run. `present` is the set of artifact files that exist, `loadable`
      the set of those that `joblib.load` deserialises without raising,
      `pressed` whether "Predict" was clicked, and `predict(path, row)` the label
      the classifier loaded from `path` gives the record `row`, or None when
      `predict` or `predict_proba` raises (both run before the branch). */
  function Run(choice: string, present: set<string>, loadable: set<string>, pressed: bool,
               a: Applicant, predict: (string, Row) -> Option<int>): (s: Screen)
    requires choice in ModelChoices
    ensures s.Halted? <==> ModelPaths[choice] !in present
    ensures s.Halted? ==> s.missingFile == ModelPaths[choice]
    ensures s.Crashed? <==>
      ModelPaths[choice] in present &&
      (ModelPaths[choice] !in loadable || (pressed && predict(ModelPaths[choice], Encode(a)).None?))
    ensures s.AwaitingPredict? <==>
      ModelPaths[choice] in present && ModelPaths[choice] in loadable && !pressed
    ensures s.Decision? <==>
      ModelPaths[choice] in present && ModelPaths[choice] in loadable && pressed &&
      predict(ModelPaths[choice], Encode(a)).Some?
    ensures s.Decision? ==> (s.panel == Approved <==> predict(ModelPaths[choice], Encode(a)) == Some(1))
  {
    SelectionResolves(choice);
    var path := ResolvePath(choice).value;
    if path !in present then Halted(path)
    else if path !in loadable then Crashed
    else if !pressed then AwaitingPredict
    else
      match predict(path, Encode(a))
      case None => Crashed
      case Some(prediction) => Decision(ResultPanel(prediction))
  }

  /** A missing artifact halts the run whatever the form holds: nothing is
      loaded, no record is encoded and no label is asked for. */
  lemma MissingArtifactHalts(choice: string, present: set<string>, loadable: set<string>,
                             other: set<string>, pressed: bool, a: Applicant, b: Applicant,
                             predict: (string, Row) -> Option<int>, classifier: (string, Row) -> Option<int>)
    requires choice in ModelChoices
    requires ModelPaths[choice] !in present
    ensures Run(choice, present, loadable, pressed, a, predict) == Halted(ModelPaths[choice])
    ensures Run(choice, present, loadable, pressed, a, predict) == Run(choice, present, other, !pressed, b, classifier)
  {
  }

  /** The decision depends on the form only through its encoded record: two
      inputs with the same record get the same screen. */
  lemma DecisionFollowsRecord(choice: string, present: set<string>, loadable: set<string>,
                              a: Applicant, b: Applicant, predict: (string, Row) -> Option<int>)
    requires choice in ModelChoices
    requires Encode(a) == Encode(b)
    ensures Run(choice, present, loadable, true, a, predict) == Run(choice, present, loadable, true, b, predict)
  {
  }
}
