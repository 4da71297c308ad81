# Porsche price form: verified model of the feature encoder

The application is a one-page form. The user enters a Porsche's year of
manufacture, mileage, power and engine capacity, each through a bounded
number input. They also choose whether the numbers match (original engine),
the drive type and the transmission, each from a select box. The form turns
these seven values into the eight-column row that a pre-trained CatBoost
regression model expects, and shows the model's price estimate.

This project models that path in Dafny:

- `Form` (`form.dfy`): the request record, with the three select boxes as
  enumerations. It also holds the widget bounds as a `Valid` predicate, the
  widget defaults and the choice lists with their display labels.
- `Features` (`features.dfy`): the row schema and the encoder `Encode`. The
  row is a sequence of `(name, value)` columns, so both the column labels
  and their order are part of it. `ValueOf` is a by-name view of the row's
  labels; `Values` is the positional view. Whether the trained model reads
  its input by name or by position is not visible in the source, so the
  lemmas state both. The module also
  holds the lemmas about the indicator columns and about what the encoding
  loses.
- `Pricing` (`pricing.dfy`): the prediction call. The trained model is a
  parameter `predict: Row -> real`, because it is an external artifact.
- `Wrappers` (`wrappers.dfy`): `Option`, the result of a lookup.

## Model

| member | source | states |
|---|---|---|
| `Form.Valid` | porsche_final.py:186-189 | No contract; it is the predicate that each numeric field lies within its widget's inclusive `min_value`/`max_value` range. `Features.Encode` relies on it. |
| `Form.MatchingLabel` | porsche_final.py:192 | No contract; it is the option text "Yes" or "No" that the select box returns. `Form.ChoicesClosed` ties the labels to the option list. |
| `Form.DriveLabel` | porsche_final.py:193 | No contract; it is the option text "Rear", "Front" or "Other" that the select box returns. |
| `Form.TransmissionLabel` | porsche_final.py:194 | No contract; it is the option text "Manual", "PDK" or "Automatic" that the select box returns. |
| `Form.DefaultRequest` | porsche_final.py:186-194 | The untouched form holds 1985, 100000 km, 250 HP and 3200 cc. Each select box holds its first choice. The request is within every widget's bounds. |
| `Form.ChoicesClosed` | porsche_final.py:192-194 | Each select box lists every value of its enumeration, with no repeats: {Yes, No}, {Rear, Front, Other} and {Manual, PDK, Automatic}. Read through their labels, the choice lists are exactly `["Yes", "No"]`, `["Rear", "Front", "Other"]` and `["Manual", "PDK", "Automatic"]`, in that display order. |
| `Form.LabelTestsAgree` | porsche_final.py:204-207 | The encoder's string tests (`== "Yes"`, `== "Rear"`, `== "Manual"`, `== "PDK"`) each hold for exactly one enumeration value. So testing the enumeration value is equivalent. |
| `Features.Indicator` | porsche_final.py:204-207 | An indicator is 0 or 1, and it is 1 exactly when its condition holds. |
| `Features.Encode` | porsche_final.py:199-208 | The row has exactly the eight trained column names, in the trained order. For a valid request, the year, mileage, power and capacity columns stay within 1950–2025, 0–500000, 50–600 and 0–7000. The four indicator columns are 0 or 1. |
| `Features.EncodeDistinctNames` | porsche_final.py:199-208 | No two columns of the row share a name, as with the keys of the dict literal. |
| `Features.ValueOfAt` | porsche_final.py:199-208 | In a row without repeated names, looking up a column's name returns that column's value. |
| `Features.ValueOfAbsent` | porsche_final.py:199-208 | Looking up a name that no column carries returns nothing. |
| `Features.EncodeOnlySchema` | porsche_final.py:199-208 | The encoded row has no column outside the eight-name schema. |
| `Features.EncodeColumns` | porsche_final.py:200-207 | Under `year`, `mileage_km`, `power_hp` and `cylinder_capacity` the row holds the request's values unchanged. The four other names each hold the indicator of their condition. |
| `Features.EncodeValues` | porsche_final.py:199-208 | Position by position, the row's values are year, mileage, power and capacity unchanged, then the matching-numbers, rear-drive, manual and PDK indicators. |
| `Features.MatchingIndicator` | porsche_final.py:204 | `specs_raw.Matching numbers:` is 1 exactly when matching numbers is "Yes", and 0 exactly when it is "No". |
| `Features.RearDriveIndicator` | porsche_final.py:205 | `specs_raw.Drive:_Rear drive` is 1 exactly when the drive is "Rear", and 0 exactly when it is "Front" or "Other". |
| `Features.TransmissionIndicators` | porsche_final.py:206-207 | "Manual" gives (1, 0), "PDK" gives (0, 1) and "Automatic" gives (0, 0). `transmission_Manual` and `transmission_PDK` are never both 1. |
| `Features.EncodeEqualIff` | porsche_final.py:199-208 | Two requests encode to the same row if and only if they agree on every field, except that two non-"Rear" drives may differ. So the transmission can always be recovered from the row. |
| `Features.DriveCollapses` | porsche_final.py:205 | A "Front" request and the same request with "Other" drive are different, yet they encode to the same row. So the encoding is not injective. |
| `Features.EncodeExamples` | porsche_final.py:199-208 | (1950, 0, 50, 0, No, Other, Automatic) encodes to [1950, 0, 50, 0, 0, 0, 0, 0]. (2000, 120000, 300, 3600, Yes, Rear, PDK) encodes to [2000, 120000, 300, 3600, 1, 1, 0, 1]. |
| `Pricing.Price` | porsche_final.py:211 | No contract; the estimate is `predict(Encode(r))`, where `predict` stands for the loaded model. The two lemmas below state what follows. |
| `Pricing.PriceIgnoresFrontOther` | porsche_final.py:211 | For any model, requests that agree up to "Front" versus "Other" drive get the same estimate. |
| `Pricing.PriceCanSeparate` | porsche_final.py:211 | Requests that differ in any other way reach the model as different rows, so some model prices them differently. |

## Left out

- Clamping by the number inputs (porsche_final.py:186-189) is framework behaviour. The bounds are the `Form.Valid` predicate, and `Encode` is total on all requests.
- The select boxes return strings; the model uses enumerations instead. `Form.LabelTestsAgree` shows that the source's string comparisons reduce to enumeration tests.
- The pandas one-row DataFrame (porsche_final.py:199) is a plain sequence of named integer columns. Its dtypes and index are not modelled.
- Loading the CatBoost pipeline with `joblib.load` (porsche_final.py:126) is left out. So is the model's internal computation: `predict` is an arbitrary function parameter. The model's own schema check, which raises on mismatched columns, is not modelled either.
- The "Predict Price" button (porsche_final.py:210) is left out; it is UI event handling. So is formatting the estimate as `€{pred:,.0f}` (porsche_final.py:212), which is floating-point rounding and text formatting.
- Page styling, the SVG hero image and its base64 embedding, headings, description text and footer (porsche_final.py:14-121, 133-183, 217-219) are presentation.
- The CV download block (porsche_final.py:220-231) is inside a string literal and never runs.
- Determinism and the absence of state between requests hold by construction, since every member is a Dafny function. They are not stated as a lemma.
