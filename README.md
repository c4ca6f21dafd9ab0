# Obesity-prediction form: the input encoder

This project models the part of `app/app.py` that turns one submission of the
obesity-prediction form into the feature row the classifier receives.

The form asks sixteen questions. Three of them are numbers:
- age, an integer from 14 to 61;
- height in metres, from 1.40 to 2.10;
- weight in kilograms, from 30.0 to 200.0.

The other thirteen are radios or a select box, each with a fixed list of
Portuguese options. The encoder builds a sixteen-column record from the answers:
- the numbers are copied;
- each categorical answer is looked up in a translation dictionary.

There are two kinds of dictionary:
- the `MAP_*` dictionaries give the English labels the model was trained on;
- the `*_MAP` dictionaries number the options of an ordinal question.

A label that is missing from its dictionary raises a `KeyError`, and no record
is built.

The project has four modules:
- `Wrappers` holds the `Result` type.
- `Tables` holds generic facts about a dictionary read against an option list and a code list, position by position:
  - the position of an option (`Position`);
  - the table predicate (`Tabulates`);
  - lookup, injectivity and ordering lemmas.
- `Row` holds the row handed to the classifier: the record (`FeatureRecord`), with one field per column, and the dictionary `row` built from it (`AsDict`).
- `App` holds the form and the encoder:
  - the option lists, the widget bounds and the answers (`Answers`);
  - the ten dictionaries, as the literal maps of the source;
  - the encoder (`Encode`);
  - a reference definition (`Expected`), which reads each code off the option list by position instead of from the dictionaries;
  - the lemmas that connect `Encode` and `Expected`.

Height and weight are modelled as `real`, because the encoder copies them
without doing any arithmetic on them.

The encoder does not check age, height or weight against their ranges. Only
the widgets bound them. The model follows the code here:
- `Encode` copies the numbers whatever they are;
- the range facts are stated only for submissions the widgets can produce (`FromForm`).

## Model

| member | source | states |
|---|---|---|
| App.Encode | app/app.py:218-235 | The row is built exactly when every categorical answer is one of the options its widget offers. When it is not built, the `KeyError` carries an answer its widget does not offer. |
| App.EncodeYieldsExpected | app/app.py:218-235 | On offered answers, the row is the reference record: each categorical column holds the code listed at the answer's position; FCVC, NCP and CH2O hold the position counted from 1; FAF and TUE hold it counted from 0; Age, Height and Weight are the entered numbers. |
| App.LookedUpIsExpected | app/app.py:218-235 | The thirteen looked-up codes and the three copied numbers are, together, the reference record. |
| App.YesNoColumnsExpected | app/app.py:223-230 | family_history, FAVC, SMOKE and SCC are found in the yes/no dictionary and hold the yes/no code at the answer's position. |
| App.TextColumnsExpected | app/app.py:219-234 | Gender, CAEC, CALC and MTRANS are found in their dictionaries and hold the code at the answer's position. |
| App.OrdinalColumnsExpected | app/app.py:225-232 | FCVC, NCP, CH2O, FAF and TUE are found in their dictionaries and hold the answer's position on its scale. |
| App.LookupsSucceedOnForm | app/app.py:218-235 | Each of the thirteen lookups finds its key exactly when the answer is among its widget's options. |
| App.FormAlwaysEncodes | app/app.py:141-198 | Every submission the widgets can produce is encoded. The row has exactly the sixteen columns. Age, Height and Weight equal the entered numbers and lie within their inputs' bounds (Age within 14..61). |
| App.RowHoldsAnswers | app/app.py:218-235 | On offered answers, the row dictionary holds under each of the sixteen column names the value built for it: Gender, family_history, FAVC, CAEC, SMOKE, SCC, CALC and MTRANS the code of the matching answer; FCVC, NCP, CH2O, FAF and TUE its ordinal score; Age, Height and Weight the entered numbers. |
| App.UnofferedAnswerRejected | app/app.py:218-235 | A single answer outside its widget's options makes the encoder raise; no partial row is produced. |
| App.EncodeInjective | app/app.py:218-235 | Two submissions that encode to the same row are the same submission. |
| App.SharedTablesAgree | app/app.py:223-234 | The four yes/no columns are each the yes/no dictionary applied to their answer. CAEC is the CALC dictionary applied to its answer. Two of these columns agree exactly when their answers do. |
| Row.AsDict | app/app.py:218-235 | The record as the dictionary `row`: each column name of lines 219-234 maps to the record field of that name. It has no contract of its own; Row.RowKeys states its keys and Row.RowCells the value under each key. |
| Row.RowKeys | app/app.py:218-235 | The row dictionary has exactly the sixteen column names as keys, and no others. |
| Row.RowCells | app/app.py:218-235 | Each column name of the row dictionary holds the record field of that name, as a string, an integer or a float cell: family_history holds the family-history code, FAVC the caloric-food code, and so on for all sixteen. |
| Row.ColumnsDistinct | app/app.py:218-235 | No column name is listed twice, so there are sixteen distinct keys. |
| App.GenderTableMatchesForm | app/app.py:101 | MAP_GENDER has exactly the gender options as keys: Feminino gives Female, Masculino gives Male. |
| App.YesNoTableMatchesForm | app/app.py:102 | MAP_YESNO has exactly the yes/no options as keys: Sim gives yes, Não gives no. |
| App.CaecTableMatchesForm | app/app.py:104 | MAP_CAEC has exactly the four frequency options as keys, mapped in order to no, Sometimes, Frequently, Always. |
| App.CalcTableMatchesForm | app/app.py:105 | MAP_CALC has exactly the four frequency options as keys, mapped in order to no, Sometimes, Frequently, Always. |
| App.MtransTableMatchesForm | app/app.py:107-113 | MAP_MTRANS has exactly the five transport options as keys, mapped in order to Automobile, Motorbike, Bike, Public_Transportation, Walking. |
| App.FcvcTableMatchesForm | app/app.py:208 | FCVC_MAP has exactly the vegetable options as keys, numbered 1, 2, 3 in order. |
| App.NcpTableMatchesForm | app/app.py:209 | NCP_MAP has exactly the meal options as keys, numbered 1 to 4 in order. |
| App.Ch2oTableMatchesForm | app/app.py:210 | CH2O_MAP has exactly the water options as keys, numbered 1 to 3 in order. |
| App.FafTableMatchesForm | app/app.py:211 | FAF_MAP has exactly the activity options as keys, numbered 0 to 3 in order. |
| App.TueTableMatchesForm | app/app.py:212 | TUE_MAP has exactly the screen-time options as keys, numbered 0 to 2 in order. |
| App.GenderLookup | app/app.py:101 | A gender label is a key of MAP_GENDER exactly when the widget offers it. Its value is the code at the label's position. |
| App.YesNoLookup | app/app.py:102 | A label is a key of MAP_YESNO exactly when the yes/no widgets offer it. Its value is the code at the label's position. |
| App.CaecLookup | app/app.py:104 | A label is a key of MAP_CAEC exactly when the frequency widget offers it. Its value is the code at the label's position. |
| App.CalcLookup | app/app.py:105 | A label is a key of MAP_CALC exactly when the frequency widget offers it. Its value is the code at the label's position. |
| App.MtransLookup | app/app.py:107-113 | A label is a key of MAP_MTRANS exactly when the transport select box offers it. Its value is the code at the label's position. |
| App.FcvcLookup | app/app.py:208 | A label is a key of FCVC_MAP exactly when the vegetable widget offers it. Its value is 1 plus its position. |
| App.NcpLookup | app/app.py:209 | A label is a key of NCP_MAP exactly when the meals widget offers it. Its value is 1 plus its position. |
| App.Ch2oLookup | app/app.py:210 | A label is a key of CH2O_MAP exactly when the water widget offers it. Its value is 1 plus its position. |
| App.FafLookup | app/app.py:211 | A label is a key of FAF_MAP exactly when the activity widget offers it. Its value is its position. |
| App.TueLookup | app/app.py:212 | A label is a key of TUE_MAP exactly when the screen-time widget offers it. Its value is its position. |
| App.CodesDistinct | app/app.py:101-113 | The English vocabularies list no code twice. |
| App.CategoricalTablesInjective | app/app.py:101-113 | MAP_GENDER, MAP_YESNO, MAP_CAEC, MAP_CALC and MAP_MTRANS are each injective: distinct labels get distinct codes. |
| App.OrdinalTablesInjective | app/app.py:208-212 | The five ordinal dictionaries are each injective. |
| App.OrdinalTablesIncreasing | app/app.py:208-212 | Each ordinal dictionary gives the options, in the order the widget lists them, strictly increasing numbers. |
| App.FrequencyTablesEqual | app/app.py:104-105 | MAP_CAEC and MAP_CALC are the same dictionary. |
| App.TypicalSubmission | app/app.py:218-235 | A typical submission (a 25-year-old man, 1.70 m, 75.0 kg, ...) becomes the row Male, 25, 1.70, 75.0, yes, yes, 2, 3, Sometimes, no, 2, no, 1, 0, no, Automobile. |
| App.TopOfEachScale | app/app.py:218-235 | The top option of every ordinal scale (Sempre, 4 ou mais, > 2 L, 5+, > 5 h) encodes to 3, 4, 3, 3, 2. Age 61, height 2.10 and weight 200.0 pass through unchanged. |

## Left out

- The Streamlit page is not modelled: layout, CSS, headers, the form widgets' rendering and the submit button. The widgets appear only as their option lists and the bounds of the number inputs.
- Loading the classifier with joblib, and stopping the page when it is missing, are not modelled: they are file I/O.
- `predict`, `predict_proba` and the DataFrame built from the row are not modelled: they are calls into the trained model and into pandas.
- The formatting of the result (probability, label, messages) is not modelled: it is presentation.
- `round_ordinal_cols` (app/app.py lines 12-14) is not modelled. It exists only so that the saved pipeline can be unpickled, and it rounds floating-point columns with `np.rint`.
- Height and Weight are modelled as exact reals. Floating-point representation, and the `float(...)` conversion, are not modelled. Neither is `int(...)`, which is the identity on the form's integer age and on the integer codes.
- AsDict: a Dafny map has no order. The row's key order, which fixes the DataFrame's column order, is not captured. The key set and the value under each key are (Row.RowKeys, Row.RowCells).
- Encode: the contract says that the `KeyError` names an answer its widget does not offer. It does not say that this is the first such answer in the row's order, although the body checks the lookups in that order.
