# Career-change prediction form: field normalisation and record update

This project models the client-side logic of the career-change prediction form
(`ui/career-predictor-ui/src/App.tsx`). The form keeps one record of 22
fields. Each edit of an input goes through `handleChange`, which normalises the
edited value and stores it under the input's name:

- `capitalizeWords` lower-cases a string, then upper-cases every character
  matched by the regular expression `\b\w`.
- A value from an `<input type="number">` is coerced with `Number`.
- The two free-text fields (`fieldOfStudy`, `currentOccupation`) are
  capitalized. That check runs after the coercion, so it wins over it.
- The record update is `{...prev, [name]: finalValue}`: one key replaced,
  every other key kept.

Modules:

- `Ascii` (ascii.dfy): the character classes and case maps the helper relies
  on. `\w` is `[A-Za-z0-9_]`, as in a JavaScript regular expression without
  the `u` flag.
- `Capitalize` (capitalize.dfy): `capitalizeWords`. It is a lower-casing pass
  followed by a left-to-right scan that upper-cases each `\b\w` match. It is
  proved equal to an independent per-character description
  (`IsCapitalizationOf`): same letters up to case, and a letter is upper-case
  exactly where a word starts.
- `Values` (values.dfy): the value a field can hold (`Str`, `Num`, `NaN`), the
  `Number` coercion, and the decimal rendering a number input shows for a
  stored number. The two are proved to round-trip.
- `Registry` (registry.dfy): the 22 fields with the widget that edits each one
  and its `initialState` default. The initial record is built from them.
- `Reducer` (reducer.dfy): the normalisation, the single-field update, a
  session of updates, and the invariants a session keeps.

Points of the code that are easy to misread:

- A word is a run of `\w` characters (`[A-Za-z0-9_]`), not a run of
  non-whitespace (App.tsx:9). So `o'neil` becomes `O'Neil` and `3d art`
  becomes `3d Art` (`Capitalize.CapitalizeApostrophe`,
  `Capitalize.CapitalizeLeadingDigit`).
- The 1–10 and 0/1 fields do not always hold integers. Their sliders are
  `<input type="range">` (App.tsx:251, 278), and only `type === 'number'` is
  coerced (App.tsx:50). Moving a slider therefore stores the reported string,
  such as `"7"`, over the numeric default (`Reducer.SliderStoresString`,
  `Reducer.WidgetEventValue`).
- `Slider` has range 1–10 and is used for every field labelled 1–10;
  `SliderBin` has range 0–1 and is used for every 0/1 flag (App.tsx:113-126,
  245-288). Only the names of their two props types are swapped. The model
  does not depend on the widgets' ranges.
- `yearsOfExperience` starts at 1 and `jobOpportunities` at 10, as
  `initialState` lists them (App.tsx:20, 23).

## Model

| member | source | states |
|---|---|---|
| `Ascii.ToLower` | ui/career-predictor-ui/src/App.tsx:9 | lower-casing turns each of `A-Z` into the lower-case letter at the same place in the alphabet, keeps word characters word characters, and changes nothing else |
| `Ascii.ToUpper` | ui/career-predictor-ui/src/App.tsx:9 | upper-casing turns each of `a-z` into the upper-case letter at the same place in the alphabet, keeps word characters word characters, and changes nothing else |
| `Ascii.CaseInverse` | ui/career-predictor-ui/src/App.tsx:9 | the two case maps undo each other on letters, and each ignores the case of its input |
| `Ascii.AlphabetsCorrespond` | ui/career-predictor-ui/src/App.tsx:9 | `ABC…Z` lower-cases to `abc…z` letter by letter, and `abc…z` upper-cases to `ABC…Z` |
| `Capitalize.LowerString` | ui/career-predictor-ui/src/App.tsx:9 | `toLowerCase` keeps the length and lower-cases each character in place |
| `Capitalize.UpcaseWordStarts` | ui/career-predictor-ui/src/App.tsx:9 | the global `\b\w` replacement keeps the length and upper-cases exactly the word characters with no word character before them |
| `Capitalize.CapitalizeWords` | ui/career-predictor-ui/src/App.tsx:8-9 | the output has the input's length; each character is the input character at that index, upper-cased at a word start and lower-cased elsewhere |
| `Capitalize.LetterCaseRule` | ui/career-predictor-ui/src/App.tsx:9 | a letter comes out upper-case exactly when it starts a word (index 0 or after a non-`\w` character), and lower-case otherwise |
| `Capitalize.NonLetterUnchanged` | ui/career-predictor-ui/src/App.tsx:9 | digits, `_`, spaces and punctuation pass through unchanged |
| `Capitalize.WordStartsPreserved` | ui/career-predictor-ui/src/App.tsx:9 | the output's word starts are the input's word starts |
| `Capitalize.CapitalizeWordsCharacterized` | ui/career-predictor-ui/src/App.tsx:8-9 | `r` is the result for `s` if and only if `r` spells `s` up to case and its letters are upper-case exactly at word starts |
| `Capitalize.CapitalizeWordsIdempotent` | ui/career-predictor-ui/src/App.tsx:8-9 | capitalizing twice gives the same string as capitalizing once |
| `Capitalize.CapitalizeWordsFixedPoint` | ui/career-predictor-ui/src/App.tsx:8-9 | a string is left unchanged if and only if it is already capitalized word by word |
| `Capitalize.CapitalizeWordsIsCapitalized` | ui/career-predictor-ui/src/App.tsx:8-9 | every result is capitalized word by word |
| `Capitalize.CapitalizeWordsAscii` | ui/career-predictor-ui/src/App.tsx:8-9 | ASCII input gives ASCII output |
| `Capitalize.CapitalizeNewYork` | ui/career-predictor-ui/src/App.tsx:8-9 | `new york` becomes `New York` |
| `Capitalize.CapitalizeApostrophe` | ui/career-predictor-ui/src/App.tsx:8-9 | `o'neil` becomes `O'Neil`: an apostrophe ends a word |
| `Capitalize.CapitalizeLeadingDigit` | ui/career-predictor-ui/src/App.tsx:8-9 | `3d art` becomes `3d Art`: a digit starts a word, so the letter after it stays lower-case |
| `Capitalize.CapitalizeUnderscore` | ui/career-predictor-ui/src/App.tsx:8-9 | `MY_JOB` becomes `My_job`: `_` is a word character |
| `Values.DecimalString` | ui/career-predictor-ui/src/App.tsx:183-195 | the digits a number input shows for a stored non-negative number (up to 2^53) are non-empty, have no leading zero, and read back as that number |
| `Values.IntToString` | ui/career-predictor-ui/src/App.tsx:183-195 | the rendering of a stored integer is non-empty and starts with `-` exactly for negative numbers |
| `Values.ParseNumber` | ui/career-predictor-ui/src/App.tsx:50-52 | `Number(value)` never yields a string; it yields `NaN` exactly when the value is neither empty nor an optionally signed digit string |
| `Values.ParseNumberRoundTrip` | ui/career-predictor-ui/src/App.tsx:50-52 | coercing the rendering of an integer gives that integer back |
| `Values.LeadingZeroValue` | ui/career-predictor-ui/src/App.tsx:51 | a leading zero does not change the value of a digit string |
| `Values.LeadingZeroIgnored` | ui/career-predictor-ui/src/App.tsx:51 | `Number` gives the same result for a digit string with or without a leading zero, signed or not (`Number("007") === Number("7")`) |
| `Values.ParseNumberExamples` | ui/career-predictor-ui/src/App.tsx:51 | the empty string is 0; `42`, `-7` and `007` are numbers; `abc` and `-` are `NaN` |
| `Registry.DistinctCardinality` | ui/career-predictor-ui/src/App.tsx:12-35 | a list of fields without repeated keys has as many keys as entries |
| `Registry.FieldNamesDistinct` | ui/career-predictor-ui/src/App.tsx:12-35 | there are 22 fields and no two share a key |
| `Registry.FieldCount` | ui/career-predictor-ui/src/App.tsx:12-35 | the key set of the record has exactly 22 names |
| `Registry.CapitalizedAreTextInputs` | ui/career-predictor-ui/src/App.tsx:105-106 | the two capitalized fields are exactly the fields edited by a text input, and both are record keys |
| `Registry.InputType` | ui/career-predictor-ui/src/App.tsx:159-278 | the element type a widget reports (lines 160, 189, 251, 278): `number` exactly for a number input, `range` exactly for the two sliders, `text` exactly for a text input; a `<select>` (line 218) has no `type` attribute in the markup, and the widget reports the DOM value `select-one` |
| `Registry.InitialState` | ui/career-predictor-ui/src/App.tsx:12-35 | the initial record has exactly the 22 field keys, each at its listed default |
| `Registry.FieldDefaultsByWidget` | ui/career-predictor-ui/src/App.tsx:105-126 | text and choice fields default to the empty string, 1–10 sliders to 5, 0/1 sliders to 0, number inputs to a number |
| `Registry.InitialStateDefaults` | ui/career-predictor-ui/src/App.tsx:12-35 | the initial record has 22 keys; text fields are `""`, 1–10 scales 5, 0/1 flags 0, number fields numbers, age 25, salary 50000 |
| `Reducer.Normalize` | ui/career-predictor-ui/src/App.tsx:47-57 | a capitalized field stores the capitalized raw value whatever the input type; otherwise a number input stores the coerced value and any other input the raw string |
| `Reducer.ApplyChange` | ui/career-predictor-ui/src/App.tsx:60-63 | the updated record has the old keys plus the edited name, holds the normalised value there, and keeps every other key's value |
| `Reducer.ApplyChanges` | ui/career-predictor-ui/src/App.tsx:42-64 | after a session the keys are the old keys plus the edited names, and every field no event names keeps its value |
| `Reducer.ApplyChangesSnoc` | ui/career-predictor-ui/src/App.tsx:60-63 | a session extended by one event is the session followed by that event's update |
| `Reducer.ApplyChangesLatest` | ui/career-predictor-ui/src/App.tsx:60-63 | after a session each field holds the normalised value of the last event that named it, or its old value |
| `Reducer.KeySetInvariant` | ui/career-predictor-ui/src/App.tsx:60-63 | edits that name only the 22 fields keep the key set exactly those 22 keys |
| `Reducer.UnknownNameAddsKey` | ui/career-predictor-ui/src/App.tsx:60-63 | the update has no guard: an edit under another name adds a 23rd key |
| `Reducer.ApplyChangeIdempotent` | ui/career-predictor-ui/src/App.tsx:60-63 | repeating an edit changes nothing more |
| `Reducer.ApplyChangeCommutes` | ui/career-predictor-ui/src/App.tsx:60-63 | edits of different fields commute |
| `Reducer.CapitalizedRedisplayStable` | ui/career-predictor-ui/src/App.tsx:55-57 | re-sending the stored text of a free-text field leaves the record unchanged |
| `Reducer.NumberRedisplayStable` | ui/career-predictor-ui/src/App.tsx:50-52 | re-sending the rendering of a stored integer from a number input leaves the record unchanged |
| `Reducer.WidgetEvent` | ui/career-predictor-ui/src/App.tsx:105-126 | the event a field's own widget sends carries that field's own key, which is one of the 22, the reported value, and the type of that widget's element, which is `number` exactly when the widget is a number input |
| `Reducer.WidgetEventValue` | ui/career-predictor-ui/src/App.tsx:47-57 | an edit from a text input stores its capitalization, a select its raw value, a number input its coercion, and a slider its raw string |
| `Reducer.NumberInputStoresNumber` | ui/career-predictor-ui/src/App.tsx:50-52 | a number input never stores a string; it stores a number exactly when its value is empty or an integer literal |
| `Reducer.InitialStateWellFormed` | ui/career-predictor-ui/src/App.tsx:12-35 | the initial record has the 22 keys and capitalized free-text fields |
| `Reducer.ApplyChangePreservesWellFormed` | ui/career-predictor-ui/src/App.tsx:55-63 | an edit of a known field keeps the 22 keys and the free-text fields capitalized |
| `Reducer.SessionWellFormed` | ui/career-predictor-ui/src/App.tsx:42-64 | any session of edits of known fields keeps the record well-formed |
| `Reducer.FieldOfStudyExample` | ui/career-predictor-ui/src/App.tsx:55-57 | typing `new york` into the field of study stores `New York` |
| `Reducer.SliderStoresString` | ui/career-predictor-ui/src/App.tsx:47-52 | moving the job-satisfaction slider to 7 stores the string `"7"` |

## Left out

- Submission (App.tsx:67-89) is left out: the `fetch` POST, JSON serialisation, `alert` and `console.error`. It is network I/O with no pure behaviour beyond sending the record.
- The JSX components (App.tsx:92-288) are left out except for two facts: which widget edits which field, and the `type` each widget reports. Their `min`, `max`, `step` and `required` attributes are enforced by the browser, so no range invariant is claimed for any field.
- The prediction backend (`ui/api/main.py`) is not part of this model: routing, CORS, the Spark pipeline and the logistic-regression inference. Its `UserInput` field list (main.py:16-38) names the same 22 keys as `initialState`.
- React's state mechanics (`useState`, batching of functional updates) are left out. A session is modelled as the updates applied one after another in event order.
- The key order of the JavaScript object is left out, and so is the order in which `JSON.stringify` would emit the keys. The record is an unordered map.
- Values.ParseNumber: models only the integer subset of `Number`: the empty string, and digit strings with an optional sign. Decimals, exponents, surrounding whitespace, `0x`/`0o`/`0b` prefixes and `Infinity` give `NaN` here, whereas JavaScript gives a number. A browser number input reports either `""` or a valid floating-point string, so of these only fractional and exponent inputs can arrive from the form.
- Values.ParseNumber: stored numbers are unbounded integers, not IEEE-754 doubles. JavaScript rounds digit strings above 2^53 to the nearest double (`Number("9007199254740993")` is 9007199254740992) and turns very long digit strings into `Infinity`; the model keeps the exact integer.
- Values.IntToString: spells out every digit, whereas `String(n)` switches to exponent form from 1e21 (`"1e+21"`). Together with the unbounded integers, the round trip `Values.ParseNumberRoundTrip` describes JavaScript only for integers of magnitude at most 2^53.
- Capitalize.LowerString: `toLowerCase` is modelled on ASCII only; non-ASCII characters are treated as having no case. JavaScript's Unicode case mapping is not modelled, and it can change the length of the string (`"İ".toLowerCase()` has two code units), so "keeps the length" holds for the model, not for every JavaScript string.
- Capitalize.CapitalizeWords: non-ASCII characters are treated as having no case, through `Capitalize.LowerString` and `Ascii.ToUpper`. JavaScript's Unicode case mapping is not modelled.
