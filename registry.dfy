/** The model registry: a constant dictionary from a display name to the file
    that holds the serialised classifier, and the select box that offers its
    keys. */
module Registry {
  import opened Options

  /** The entries of the MODEL_PATHS literal, in the order they are written. */
  const ModelEntries: seq<(string, string)> := [
    ("Logistic Regression", "logistic_regression_smote.pkl"),
    ("Random Forest", "random_forest_smote.pkl"),
    ("XGBoost", "gradient_boosting_smote.pkl"),
    ("KNN", "knn_smote.pkl"),
    ("SVM", "svm_smote.pkl"),
    ("Voting Classifier", "VotingClassifierSoft.pkl")
  ]

  /** The dictionary a literal builds: each entry is inserted in turn, so a
      later entry with the same key overrides an earlier one. */
  function DictOf(entries: seq<(string, string)>): (d: map<string, string>)
    ensures d.Keys == set i | 0 <= i < |entries| :: entries[i].0
  {
    if entries == [] then map[]
    else
      var last := entries[|entries| - 1];
      var prefix := entries[..|entries| - 1];
      var d := DictOf(prefix);
      assert forall i :: 0 <= i < |prefix| ==> prefix[i] == entries[i];
      d[last.0 := last.1]
  }

  /** The keys of a literal's entries, in insertion order. */
  function KeysOf(entries: seq<(string, string)>): (ks: seq<string>)
    ensures |ks| == |entries|
    ensures forall i :: 0 <= i < |entries| ==> ks[i] == entries[i].0
  {
    seq(|entries|, i requires 0 <= i < |entries| => entries[i].0)
  }

  predicate DistinctKeys(entries: seq<(string, string)>) {
    forall i, j :: 0 <= i < j < |entries| ==> entries[i].0 != entries[j].0
  }

  /** MODEL_PATHS, read only. */
  const ModelPaths: map<string, string> := DictOf(ModelEntries)

  /** The options of the "Select Model" box: `list(MODEL_PATHS.keys())`. */
  const ModelChoices: seq<string> := KeysOf(ModelEntries)

  /** When no key repeats, every entry survives in the dictionary. */
  lemma {:induction false} DictOfAt(entries: seq<(string, string)>, k: nat)
    requires DistinctKeys(entries)
    requires k < |entries|
    ensures entries[k].0 in DictOf(entries) && DictOf(entries)[entries[k].0] == entries[k].1
  {
    var n := |entries|;
    if k < n - 1 {
      var prefix := entries[..n - 1];
      assert prefix[k] == entries[k];
      assert entries[k].0 != entries[n - 1].0;
      DictOfAt(prefix, k);
    }
  }

  /** When no key repeats, the dictionary has one key per entry. */
  lemma {:induction false} DictOfSize(entries: seq<(string, string)>)
    requires DistinctKeys(entries)
    ensures |DictOf(entries)| == |entries|
  {
    var n := |entries|;
    if n > 0 {
      var prefix := entries[..n - 1];
      DictOfSize(prefix);
      var last := entries[n - 1];
      assert last.0 !in DictOf(prefix) by {
        forall i | 0 <= i < |prefix| ensures prefix[i].0 != last.0 {
          assert prefix[i] == entries[i];
        }
      }
      assert DictOf(entries).Keys == DictOf(prefix).Keys + {last.0};
    }
  }

  lemma ModelEntriesDistinct()
    ensures DistinctKeys(ModelEntries)
  {
  }

  /** `MODEL_PATHS[choice]`: the path when the name is a key, None where Python
      would raise KeyError. */
  function ResolvePath(choice: string): (r: Option<string>)
    ensures r.Some? <==> choice in ModelPaths
    ensures r.Some? ==> r.value == ModelPaths[choice]
  {
    if choice in ModelPaths then Some(ModelPaths[choice]) else None
  }

  /** The select box lists exactly the registry's keys, each once. */
  lemma ChoicesAreKeys()
    ensures forall c :: c in ModelChoices <==> c in ModelPaths
    ensures forall i, j :: 0 <= i < j < |ModelChoices| ==> ModelChoices[i] != ModelChoices[j]
    ensures |ModelChoices| == |ModelPaths|
  {
    ModelEntriesDistinct();
    DictOfSize(ModelEntries);
  }

  /** Whatever the user selects, the lookup finds the path written beside that
      name in the registry: it never misses. */
  lemma SelectionResolves(choice: string)
    requires choice in ModelChoices
    ensures ResolvePath(choice).Some?
    ensures exists i :: 0 <= i < |ModelEntries| && ModelEntries[i] == (choice, ResolvePath(choice).value)
  {
    var i :| 0 <= i < |ModelChoices| && ModelChoices[i] == choice;
    ModelEntriesDistinct();
    DictOfAt(ModelEntries, i);
    assert ModelEntries[i] == (choice, ResolvePath(choice).value);
  }
}
