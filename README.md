# Loan Approval Predictor: feature encoder and decision rules

The Loan Approval Predictor is a single-page form. The user picks one of six
pre-trained classifiers and fills in an applicant's details. On "Predict" the
app turns the details into a 14-column record, asks the classifier for a label,
and shows an "approved" or a "rejected" card. This project models the parts of
that script that have stateable behaviour:

- **Registry** (`registry.dfy`): the `MODEL_PATHS` literal, kept once as its
  ordered list of entries. The dictionary and the select box's options
  (`list(MODEL_PATHS.keys())`) are both derived from that list. Looking up the
  selected name never misses.
- **ApplicantForm** (`form.dfy`): the raw form values and the closed domains
  the widgets enforce. Incomes and loan amount are naturals (`min_value=0`,
  integer steps). The loan term is one of 360, 180, 120, 84, 60, 36. Credit
  history is one of 1 and 0. Each categorical field is one of its listed options.
- **FeatureEncoder** (`encoder.dfy`): the dictionary built on "Predict". It is
  modelled as an ordered sequence of named entries, the dictionary's insertion
  order, with `ValueOf` as key lookup. Five numeric fields pass through
  unchanged. Nine 0/1 indicators one-hot encode the categorical fields, each
  with an implicit baseline category. `Decode` is its inverse on the form's
  domain, so encode and decode form a bijection between form inputs and
  decodable records.
- **LoanApp** (`app.dfy`): one run of the script. It resolves the path and
  halts with an error naming the file when the artifact is missing. An artifact
  that fails to load ends the run with an uncaught exception. Otherwise the run
  waits for "Predict". Then it encodes the form and asks the classifier for a
  label. If `predict` or `predict_proba` raises, the run ends without a card.
  Otherwise label 1 selects the approved card and any other label the rejected
  card.

The categorical fields stay strings, because the source compares strings
(`1 if Gender_Male == "Male" else 0`). The encoder is total on every string,
like the Python expression. The properties that need the widget domain (round
trip, injectivity, "all-zero means baseline") require `InWidgetDomain`.

Credit history's options are the floats 1.0 and 0.0. Here they are the exact
integers 1 and 0. They pass through unchanged in either form.

The file system, the loader and the classifier are parameters of `LoanApp.Run`:
- `present` is the set of artifact paths that exist;
- `loadable` is the set of paths that `joblib.load` reads without raising;
- `predict(path, row)` is the label the classifier loaded from `path` gives to
  `row`, or None when `predict` or `predict_proba` raises.

## Model

| member | source | states |
|---|---|---|
| Registry.DictOf | app.py:9-16 | the dictionary a literal builds has exactly the keys written in the literal |
| Registry.KeysOf | app.py:29 | the key list has one key per entry, in the order the entries are written |
| Registry.DictOfAt | app.py:9-16 | when no key repeats, each written name maps to the path written beside it |
| Registry.DictOfSize | app.py:9-16 | when no key repeats, the dictionary has exactly one key per written entry |
| Registry.ModelEntriesDistinct | app.py:9-16 | no model name is written twice in the registry |
| Registry.ResolvePath | app.py:32 | the lookup yields a path exactly when the name is a key of the registry, and then it is that key's path; a miss (KeyError) is None |
| Registry.ChoicesAreKeys | app.py:9-29 | the select box lists exactly the registry's keys, each once, as many options as keys |
| Registry.SelectionResolves | app.py:29-32 | every name the select box can return resolves, to the path written beside that name in the registry: the lookup is total on the widget's domain |
| ApplicantForm.InWidgetDomain | app.py:91-103 | the widget domain: each select box holds one of its listed options; a term is therefore a multiple of 12 between 36 and 360, and credit history is 0 or 1 |
| FeatureEncoder.Indicator | app.py:116-124 | `1 if c else 0` is 0 or 1, and 1 exactly when the condition holds |
| FeatureEncoder.Encode | app.py:110-125 | the record has exactly 14 entries whose names are the training columns in the training order |
| FeatureEncoder.ValueOf | app.py:110-125 | key lookup on the record finds a value exactly when some entry has that key |
| FeatureEncoder.ValueOfAt | app.py:110-125 | in a record whose keys are distinct, looking up an entry's key yields that entry's value (dictionary semantics) |
| FeatureEncoder.ColumnsDistinct | app.py:110-125 | no column name occurs twice in the schema |
| FeatureEncoder.EncodeIsRecord | app.py:110-125 | the encoded record has distinct keys, and each schema column looks up to its own entry |
| FeatureEncoder.NumericPassThrough | app.py:111-115 | ApplicantIncome, CoapplicantIncome, LoanAmount, Loan_Amount_Term and Credit_History appear in the record unchanged |
| FeatureEncoder.IndicatorsAreBits | app.py:116-124 | every indicator column from Gender_Male to Property_Area_Urban holds 0 or 1, for any input |
| FeatureEncoder.BinaryIndicators | app.py:116-122 | Gender_Male is 1 iff "Male", Married_Yes iff "Yes", Education_Not Graduate iff "Not Graduate", Self_Employed_Yes iff "Yes"; each is 0 otherwise |
| FeatureEncoder.DependentsIndicators | app.py:118-120 | each of "1", "2", "3+" sets exactly its own indicator, at most one is set, "0" sets none, and on the form's domain all-zero means "0" |
| FeatureEncoder.PropertyAreaIndicators | app.py:123-124 | Semiurban and Urban set their own indicator, never both; "Rural" sets neither, and on the form's domain both-zero means "Rural" |
| FeatureEncoder.BaselineIsAllZero | app.py:98-124 | on the form's domain, all nine indicators are 0 exactly for the baseline selections Female, No, "0", Graduate, No, Rural |
| FeatureEncoder.DecodeFlag | app.py:116-122 | a two-valued field is recoverable from its indicator exactly when the indicator is a bit, and the value recovered is the one whose encoding is that bit |
| FeatureEncoder.DecodeDependents | app.py:118-120 | a Dependents value recovered from its three indicators is one of the form's options, and encoding it gives back exactly those three indicators |
| FeatureEncoder.DecodePropertyArea | app.py:123-124 | a Property_Area value recovered from its two indicators is one of the form's options, and encoding it gives back exactly those two indicators |
| FeatureEncoder.Decode | app.py:91-125 | the inverse of the encoder: whatever it recovers is in the form's domain |
| FeatureEncoder.RoundTrip | app.py:91-125 | every input the form allows, the baseline categories included, is recovered from its record |
| FeatureEncoder.DecodeSound | app.py:91-125 | any record that decodes is exactly the encoding of the decoded input, and that input is in the form's domain |
| FeatureEncoder.EncodeInjective | app.py:91-125 | two different form inputs never produce the same record |
| FeatureEncoder.UrbanMarriedMaleExample | app.py:110-125 | a married male graduate with no dependents, not self employed, urban, with income 5000, loan 128, term 360 and credit 1 encodes to the expected 14 values |
| LoanApp.ResultPanel | app.py:136-156 | label 1 selects the approved card and every other label the rejected card; the two are exclusive |
| LoanApp.Run | app.py:29-136 | the run halts with the artifact's name exactly when the file is missing; it crashes exactly when the file exists but fails to load, or Predict was pressed and the classifier calls raise; it waits exactly when the artifact loaded and Predict was not pressed; a decision is shown exactly when the file exists, it loaded, Predict was pressed and the classifier calls succeed, and it is "approved" exactly when the classifier labels the encoded record 1 |
| LoanApp.MissingArtifactHalts | app.py:33-35 | a missing artifact halts the run whatever the form holds, whether Predict was pressed, whatever would load, and whatever the classifier would say |
| LoanApp.DecisionFollowsRecord | app.py:127-136 | the decision depends on the form only through its encoded record |

## Left out

- Page configuration, CSS and HTML markdown, columns, titles and the sidebar text: presentation only, no logic.
- `joblib.load`: deserialising the artifact. Only whether it raises is modelled, as the `loadable` set; what it loads is abstracted into the `predict(path, row)` parameter of `LoanApp.Run`.
- `os.path.exists`: file-system I/O. It is abstracted into the `present` set of existing paths.
- `model.predict`: an opaque library call. It is an uninterpreted function giving a label or None (raised), and the classifiers themselves are not modelled.
- `model.predict_proba`: only whether it raises is modelled, folded into the None of `predict`.
- The confidence `proba * 100` and its `:.2f` formatting: floating-point arithmetic and string formatting.
- `pd.DataFrame([input_dict])`: a library container. The record stays an ordered sequence of named entries.
- LoanApp.Run: does not state that the classifier is called exactly once per button press. A function has no call count; it applies `predict` once, to the encoded record only.
- Determinism of the encoder holds because every Dafny function is deterministic, so it gets no lemma of its own.
- Credit history: the floats 1.0 and 0.0 are modelled as the integers 1 and 0. The model does not cover float representation.
- The number inputs' `step` values (100, 100, 10): these only set the widgets' increment buttons and do not restrict the values entered, so they are not part of the domain.
