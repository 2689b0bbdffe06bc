# Multiple Disease Prediction System — a Dafny model of its input pipeline

The system is a single Streamlit page (`app.py`) that collects medical
measurements, hands them to three pre-trained classifiers (diabetes, heart
disease, Parkinson's disease), shows a verdict and keeps every prediction in
one of three SQLite tables, which a history page lists newest first.

This project models the part between the form widgets and the classifiers:

- `heart.dfy` (module `Heart`): the heart-disease form, the gate that refuses
  a form with an empty number input or a selectbox left on `"Select"`, the
  0/1 encoding of sex, fasting blood sugar and exercise angina, the
  13-feature vector, the stored row and the history view's decoding of it.
- `diabetes.dfy` (module `Diabetes`): the eight text fields, their reordering
  into the classifier's feature order, the all-or-nothing conversion to
  numbers and the stored row of raw texts.
- `parkinsons.dfy` (module `Parkinsons`): the 22 labels and the loop that
  parses each label's text, collecting the values that parse and clearing a
  validity flag on any failure.
- `verdicts.dfy` (module `Verdicts`): the two verdict texts per disease.
- `history.dfy` (module `History`): a table class with its rows in insertion
  order and an auto-increment counter, the `ORDER BY id DESC` listing and
  the history page's loop over a listing.
- `app.dfy` (module `App`): the three prediction buttons and the history
  page, each tying the outcome and the new table state to the functions
  above.
- `wrappers.dfy` (module `Wrappers`): the `Option` type.

The classifiers, the scalers, Python's float conversion and the Parkinson's
text widget are opaque to the model: they are function-typed parameters
(`predict: seq<real> -> int`, `transform: seq<real> -> seq<real>`,
`parse: string -> Option<real>`, `textInput: string -> string`), so every
property holds whatever they compute. The heart-disease page calls its
classifier on the unscaled vector; the other two pages scale first. The
model keeps that difference.

Where the system's design documentation and the code differ, the model
follows the code:

- The design documentation gives every rejection its own reason naming the field.
  The code shows one message per page ("Please fill all fields before
  predicting.", the ValueError text, "Please fill all 22 inputs with valid
  numbers."). The model has a single `Rejected` outcome.
- The design documentation wants classifier failures reported and never swallowed.
  On the diabetes page the code catches a ValueError from the scaler or the
  classifier just as it catches one from parsing.
- The design documentation says a Parkinson's row holds a serialized vector. The
  code stores `str(inputs)`. The model stores the sequence itself.

## Model

| member | source | states |
|---|---|---|
| `Verdicts.DiabetesVerdict` | app.py:121 | the verdict is one of the two diabetes texts, and it is "The person is Diabetic" exactly when the classifier output is 1 |
| `Verdicts.HeartVerdict` | app.py:205-210 | the verdict is one of the two heart texts, and it is the "likely" text exactly when the output is 1 |
| `Verdicts.ParkinsonsVerdict` | app.py:273-276 | the verdict is one of the two Parkinson's texts, and it is the "likely" text exactly when the output is 1 |
| `Heart.CompleteFields` | app.py:187-191 | a form is complete (every one of the 13 features filled) exactly when none of age, trestbps, chol, thalach, oldpeak is empty and none of sex, cp, fbs, restecg, exang, slope, ca, thal is on the placeholder |
| `Heart.Accept` | app.py:187-201 | the gate accepts exactly the complete forms, and an accepted input carries the form's values unchanged (lifting it back gives the form) |
| `Heart.EncodeSex` | app.py:194 | the encoded sex is 0 or 1, and it is 1 exactly when the choice is "Male" |
| `Heart.EncodeYesNo` | app.py:195-196 | the encoded fbs/exang is 0 or 1, and it is 1 exactly when the choice is "Yes" |
| `Heart.DecodeSex` | app.py:343 | the shown sex is "Male" or "Female", and it is "Male" exactly when the stored value is 1 |
| `Heart.DecodeYesNo` | app.py:347-350 | the shown fbs/exang is "Yes" or "No", and it is "Yes" exactly when the stored value is 1 |
| `Heart.Vector` | app.py:198-201 | the vector has 13 elements, and element i is feature i of the frozen order age, sex, cp, trestbps, chol, fbs, restecg, thalach, exang, oldpeak, slope, ca, thal |
| `Heart.Row` | app.py:214-223 | the 13 feature columns of the stored row, in table order, are exactly the classifier's vector, and the result column is the verdict |
| `Heart.RoundTrip` | app.py:343-350 | for a complete form within the widgets' options, decoding its stored row shows every field as entered (sex, fbs and exang back as their labels) plus the verdict |
| `Heart.RoundTripNeedsWidgets` | app.py:172 | a sex text outside the widget's options ("male") is accepted but decodes to something else, so the round trip depends on the selectbox's option list |
| `Heart.VectorBounds` | app.py:171-183 | for a complete form within the widgets' ranges, every feature lies in its widget's range and the three encoded features are 0 or 1 |
| `Diabetes.Texts` | app.py:117 | the 8 texts are, position by position, pregnancies, glucose, blood pressure, skin thickness, insulin, BMI, pedigree, age — not the form's declaration order |
| `Diabetes.ParseAll` | app.py:117 | conversion succeeds exactly when every text parses, and then yields one value per text, each the parse of the text at the same position |
| `Diabetes.VectorFollowsOrder` | app.py:105-117 | a form yields a vector exactly when all eight fields parse, and the vector then holds the parsed fields in the classifier's order |
| `Diabetes.Row` | app.py:125-129 | the stored row's eight text columns are the raw texts in the vector's order, and its result column is the verdict |
| `Parkinsons.CollectInputs` | app.py:256-265 | after the loop, `inputs` is the parsed values of the labels whose text parses, in label order, and `inputValid` holds exactly when every label's text parses |
| `Parkinsons.SuccessesWhenAllParse` | app.py:260-265 | when every text parses, the collection has one value per label, the parse of that label's text |
| `Parkinsons.SuccessesBound` | app.py:260-265 | the collection never has more values than there are labels, and has as many only when every text parses |
| `Parkinsons.ReadyIffAllParse` | app.py:268 | the condition `input_valid and len(inputs) == 22` holds exactly when all 22 texts parse, and is equivalent to the flag alone |
| `Parkinsons.OneFailureRejects` | app.py:291-292 | one text that does not parse leaves fewer than 22 values and the submission invalid |
| `History.Table.constructor` | app.py:25-38 | a new table is empty and its first id will be 1 |
| `History.Table.Insert` | app.py:125-130 | the row is appended under the counter's id, which is greater than every id in the table; the counter advances; the new row heads the listing |
| `History.Table.NewestFirst` | app.py:300-301 | the listing holds exactly the table's rows (as a multiset), in strictly decreasing id order; as a function of the table it changes nothing, so two listings without an insert between them are equal |
| `History.Display` | app.py:302-314 | the history loop shows one item per row, item i being what the page shows for the i-th row of the newest-first listing |
| `App.SubmitDiabetes` | app.py:115-133 | rejected exactly when some field does not parse, and then the table is unchanged; otherwise the verdict is that of the classifier on the scaled vector and exactly one row (raw texts plus verdict) is appended under the next id |
| `App.SubmitHeart` | app.py:185-227 | rejected exactly when the form is incomplete, and then the table is unchanged; otherwise the verdict is that of the classifier on the unscaled vector and exactly one encoded row is appended under the next id |
| `App.SubmitParkinsons` | app.py:256-292 | rejected exactly when some of the 22 texts does not parse, and then the table is unchanged; otherwise the 22 values are classified after scaling and exactly one row (values plus verdict) is appended under the next id |
| `App.ViewHistory` | app.py:295-358 | each of the three tables is shown newest first; diabetes and Parkinson's rows as stored, heart rows decoded |

## Left out

- Presentation: the page configuration, the sidebar menu and its dispatch on the selected page name, titles, markdown, images, and the `st.success` / `st.error` / `st.warning` / `st.info` messages. The model returns an `Outcome` instead of displaying it.
- Model loading: the pickle files and the scikit-learn objects are opaque; `predict` and `transform` are parameters, assumed total. An exception they raise (for example on a NaN feature) is not modelled.
- Float conversion: Python's `float()` and numpy's `astype(float)` are one abstract `parse` parameter; what text they accept, and non-finite values, are not modelled.
- Widget ranges and option lists: they are enforced by Streamlit; the model states them as the predicate `Heart.WithinWidgets`, used only where a lemma needs it.
- The conversions `int(cp)`, `int(restecg)`, `int(slope)`, `int(ca)`, `int(thal)` act on integer options and are modelled as the identity, never failing.
- SQLite: the connection, the cursor, `commit`, durability and the threading flag are I/O. Each table is an in-memory sequence with a counter; insert failures, the `except` clauses around the inserts that they would reach, and the 64-bit id limit are not modelled.
- SQLite column affinity: the diabetes row is modelled as the raw texts; SQLite's conversion of those texts to INTEGER/REAL column values is not modelled.
- The Parkinson's row: `str(inputs)` is Python repr; the model stores the sequence.
- Streamlit's re-run model: the page script, including the Parkinson's loop, runs on every interaction; the model runs each page once per button press.
