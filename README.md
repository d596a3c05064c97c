# Dynamic form schema synthesis and choice widgets

A model of the logic inside a small React form page built on react-hook-form
and Yup. The page renders inputs for a first and a last name and an
issue-topic select. `email` is only a default value: it has no input and no
rule. The page also fetches a list of question descriptors and shows each
RADIO question as a radio group and each CHECKBOX question as a checkbox group.
Every question is bound to the form field named after its numeric id. Each
answer becomes an option whose label and stored value are both the answer's
text.

The model covers three pieces:

- **DynamicForm** (`dynamic_form.dfy`, from `src/App.tsx`):
  - The fetched list is split by `questionType` into a radio bucket and a checkbox bucket.
  - On every render, two loops write one default value and one validation rule per question, keyed by the decimal form of the question's id.
  - The default values are rebuilt on each render. The rule dictionary is memoized, so it lives across renders and only grows.
  - The schema is the two static name-field rules followed by the rule dictionary.
  - Rules are data that record what was built (`StringRule`, `ArrayRule`). Yup never evaluates anything here.
  - The page is the class `App`. Its fields are the two buckets (component state) and the persistent rule dictionary. `Render` runs the two loops as `while` loops over map-valued state.
- **Checkbox** (`checkbox.dfy`, from `src/rhf-components/Checkbox.tsx`): the field value is a list of option values, or undefined. Clicking an option toggles that value. If the value is present, every occurrence is removed. Otherwise it is appended.
- **Radio** (`radio.dfy`, from `src/rhf-components/Radio.tsx`): clicking an option sets the field value to that option's value. An option is checked iff the value equals the option's value.

Shared pieces:

- `form_types.dfy`: the `{key, value}` option, the error entry, and the error gate both components use.
- `sequences.dfy`: `Filter`, the model of `Array.prototype.filter`, with its membership, count, order and distinctness lemmas.
- `wrappers.dfy`: `Option`, which stands for JavaScript's `undefined`.

A consequence the model makes explicit: every dynamic field name is a
non-empty string of digits. So no dynamic rule can ever replace the static
`firstName`/`lastName` rules, and `email` never gets a rule, even though the
merge order would let a dynamic rule win on a shared name.

The test at `src/rhf-components/Radio.test.tsx:62-76` passes the message
"This is an error message" but looks for the text "Initial Radio". The model
follows the component: it shows the message that was passed
(`Radio.PassedMessageShown`). Likewise, the test at
`src/rhf-components/Radio.test.tsx:78-91` expects no text at all, yet the
component renders the option labels as text (`src/rhf-components/Radio.tsx:45`).
The model states only the narrower fact that no error paragraph is shown
(`Radio.NoErrorsNoText`).

## Model

| member | source | states |
|---|---|---|
| `Sequences.Filter` | src/rhf-components/Checkbox.tsx:45-47 | `Array.prototype.filter`: the result is no longer than the input, and every element it keeps passes the test. |
| `DynamicForm.RadioBucket` | src/App.tsx:54-56 | The radio bucket is no longer than the fetched list, and every question in it has type "RADIO". |
| `DynamicForm.CheckboxBucket` | src/App.tsx:58-60 | The checkbox bucket is no longer than the fetched list, and every question in it has type "CHECKBOX". |
| `DynamicForm.BucketIsExact` | src/App.tsx:54-60 | A bucket contains a question iff it was fetched and has the bucket's type. Each such question appears as often as in the fetched list, and the bucket keeps the fetched order (it is a subsequence). |
| `DynamicForm.BucketsSeparate` | src/App.tsx:54-60 | No question is in both buckets. A question whose type is neither "RADIO" nor "CHECKBOX" is in neither bucket. |
| `DynamicForm.InactiveQuestionKept` | src/App.tsx:54-56 | The filters read only `questionType`: an inactive RADIO question, fetched alone, stays in the radio bucket and gets its rule all the same. An example for one question; the general fact is `BucketIsExact`, whose membership condition does not mention `active`. |
| `DynamicForm.AnswerOptions` | src/App.tsx:173-176 | A question is rendered with one option per answer, in order. Each option's label and stored value are both the answer's text. |
| `DynamicForm.AnswerOptionsDistinct` | src/App.tsx:188-193 | A question's options have distinct stored values exactly when its answers have distinct texts. |
| `DynamicForm.DecimalString` | src/App.tsx:72 | The field name of an id (`DynamicForm.Key`, `item.id.toString()`) is a non-empty string of decimal digits. It has no leading zero unless the id is 0. |
| `DynamicForm.ParseDecimalString` | src/App.tsx:72 | Reading an id's field name back as a decimal number gives the id, so the name is a round-trip encoding of the id. |
| `DynamicForm.DecimalStringInjective` | src/App.tsx:72 | Different ids get different field names. |
| `DynamicForm.StaticNamesAreNotIdKeys` | src/App.tsx:36-42 | None of "firstName", "lastName" and "email" has the shape of an id field name. |
| `DynamicForm.LastIndexOfKey` | src/App.tsx:71-93 | Returns the index of the last question bound to a field, or -1 when no question is bound to it. |
| `DynamicForm.LastIndexFinds` | src/App.tsx:71-93 | A field belongs to some question of a list exactly when the search from the end finds one. |
| `DynamicForm.WriteAll` | src/App.tsx:71-93 | Models the writes `target[item.id.toString()] = value(item)` for each question, in order. No earlier field disappears, and every question's field is present afterwards. |
| `DynamicForm.WriteAllStep` | src/App.tsx:71-93 | One more loop iteration adds exactly the write for the next question. |
| `DynamicForm.WriteAllSpec` | src/App.tsx:71-93 | After a loop's writes, the field set is the old fields plus the questions' fields. A question's field holds the value written for the last question bound to it (later writes overwrite earlier ones). Every other field keeps its old value. |
| `DynamicForm.WriteAllKeys` | src/App.tsx:43-45 | The loops add exactly the questions' fields to a dictionary and never remove one, so rule fields build up over repeated renders. |
| `DynamicForm.WriteAllTwice` | src/App.tsx:43-45 | Running the same writes again on the result changes nothing. |
| `DynamicForm.RadioRule` | src/App.tsx:74-80 | The rule left by a radio question's two writes is a string rule. It has a required check iff the question is required, and that check carries the question's errorMessage. |
| `DynamicForm.CheckboxRule` | src/App.tsx:85-92 | The rule left by a checkbox question's two writes is an array rule whose element rule is a string rule. Each of the three checks (element required, at least 1 element, array required) is present iff the question is required, and each carries errorMessage. |
| `DynamicForm.StaticDefaults` | src/App.tsx:36-42 | Each render starts its defaults with exactly firstName, lastName and email, each mapped to "". |
| `DynamicForm.StaticRules` | src/App.tsx:96-97 | The static rules cover exactly firstName and lastName, each a string rule with a required check. |
| `DynamicForm.InitialValues` | src/App.tsx:36-93 | One render's defaults: the static defaults (lines 36-42), then the radio writes (71-72), then the checkbox writes (82-83). Every static field and every question's field has a default. |
| `DynamicForm.SynthesizedRules` | src/App.tsx:71-93 | The rule dictionary after one render: the earlier rules, then the radio writes, then the checkbox writes. No earlier field is lost, and every question's field has a rule. |
| `DynamicForm.InitialValuesSpec` | src/App.tsx:36-93 | The default values hold exactly the three static fields and the fields of both buckets. The static fields hold "". A checkbox field holds [], so a checkbox wins over a radio question with the same id. A field used only by a radio question holds "". |
| `DynamicForm.SynthesizedRulesSpec` | src/App.tsx:71-93 | After a render, the rules hold the earlier fields plus both buckets' fields. A checkbox field holds the rule of the last checkbox question with that id. A field used only by radio questions holds the rule of the last such radio question. Every other field keeps its earlier rule. |
| `DynamicForm.SynthesisIdempotent` | src/App.tsx:43-93 | A second render over the same buckets leaves the persistent rule dictionary as the first render left it. |
| `DynamicForm.DefaultsMatchRules` | src/App.tsx:71-93 | Every dynamic field has both a default and a rule, and they agree: [] goes with an array rule and "" with a string rule. |
| `DynamicForm.Schema` | src/App.tsx:95-99 | The schema's fields are firstName, lastName and every rule field. On a shared field the dynamic rule replaces the static one, and elsewhere the static rule stands. The schema has an entry for "email" exactly when email is a rule field. |
| `DynamicForm.StaticRulesStand` | src/App.tsx:95-99 | When every rule field is an id field name, the schema keeps the static required rules with their messages for firstName and lastName, and has no entry for email. |
| `DynamicForm.FirstSchemaKeys` | src/App.tsx:95-99 | For rules synthesized from an empty dictionary, the schema's fields are exactly firstName, lastName and the fields of both buckets. |
| `DynamicForm.App.constructor` | src/App.tsx:29-45 | On mount, both buckets are empty and the memoized rule dictionary is empty. |
| `DynamicForm.App.ReceiveQuestions` | src/App.tsx:54-63 | The fetch handler stores the radio bucket and the checkbox bucket of the fetched list. It leaves the rule dictionary untouched and keeps the id-field-name invariant. |
| `DynamicForm.App.Render` | src/App.tsx:36-99 | A render builds fresh defaults equal to `InitialValues` of the buckets. It extends the persistent rule dictionary to `SynthesizedRules` of its old value. It returns the static-then-dynamic schema, and it keeps the invariant that every rule field is an id field name. |
| `DynamicForm.App.WriteRadioFields` | src/App.tsx:71-81 | The radio loop writes "" and the radio rule for each radio question, in order, into the defaults and the persistent rules. It keeps the id-field-name invariant. |
| `DynamicForm.App.WriteCheckboxFields` | src/App.tsx:82-93 | The checkbox loop writes [] and the checkbox rule for each checkbox question, in order. It keeps the id-field-name invariant. |
| `DynamicForm.UnbatchedRenderSameRules` | src/App.tsx:62-63 | If the two bucket setters cause a render with only the radio bucket filled before the render with both, the rule dictionary ends up the same as after the single render. |
| `DynamicForm.MountAndLoad` | src/App.tsx:27-109 | Mount renders once with no questions, the fetch stores the buckets, and the page renders again (the two setters taken as one batched update; `UnbatchedRenderSameRules` covers the unbatched case). The second render's defaults cover both buckets. The schema's fields are exactly firstName, lastName and both buckets' fields. firstName keeps its static rule. email has a default but no rule. |
| `FormTypes.ErrorText` | src/rhf-components/Checkbox.tsx:16-61 | The gate `!!errors[name]` (Checkbox.tsx:16, Radio.tsx:16) and the paragraph (Checkbox.tsx:60-61, Radio.tsx:51-52): an error paragraph is shown iff the errors hold an entry for the field name. Its text is the entry's message, or nothing when the entry has no message. |
| `Checkbox.IsChecked` | src/rhf-components/Checkbox.tsx:42 | A box is checked iff some position of the field value holds the option's value. An undefined value checks no box. |
| `Checkbox.Toggle` | src/rhf-components/Checkbox.tsx:44-48 | The new value holds the toggled value iff the old one did not, and it is at most one element longer than the old list. |
| `Checkbox.ToggleOnAppends` | src/rhf-components/Checkbox.tsx:44-48 | Toggling a value that is not selected appends it after the existing list, which stays unchanged in front. |
| `Checkbox.ToggleUndefined` | src/rhf-components/Checkbox.tsx:48 | An undefined field value counts as the empty list, so the first toggle yields the one-element list. |
| `Checkbox.ToggleOffRemovesAll` | src/rhf-components/Checkbox.tsx:44-47 | Toggling a selected value removes every occurrence of it. Every other value keeps its number of occurrences and its original order. |
| `Checkbox.ToggleFlipsMembership` | src/rhf-components/Checkbox.tsx:43-50 | After a toggle, the toggled value is included iff it was not before. Every other value is included iff it was before. |
| `Checkbox.ToggleKeepsDistinct` | src/rhf-components/Checkbox.tsx:44-48 | A list without duplicates stays without duplicates after a toggle. |
| `Checkbox.ToggleTwiceRestores` | src/rhf-components/Checkbox.tsx:44-48 | Toggling an unselected value twice gives back the original list. |
| `Checkbox.ToggleTwiceMovesToEnd` | src/rhf-components/Checkbox.tsx:44-48 | Toggling a selected value twice removes its occurrences and puts it once at the end. |
| `Checkbox.ToggleChangesOneBox` | src/rhf-components/Checkbox.tsx:42-50 | With distinct option values, toggling option i changes the set of checked boxes only at box i. |
| `Radio.IsChecked` | src/rhf-components/Radio.tsx:41 | An option is checked iff the field value is defined and equals the option's value. An undefined value checks no option. |
| `Radio.Choose` | src/rhf-components/Radio.tsx:42 | After an option is chosen, that option is checked. |
| `Radio.ChooseIgnoresPrevious` | src/rhf-components/Radio.tsx:42 | Choosing gives the option's value whatever the previous value was. Choosing the same option again changes nothing. |
| `Radio.AtMostOneChecked` | src/rhf-components/Radio.tsx:41 | With distinct option values, at most one option is checked, whatever the field value. |
| `Radio.ChooseChecksExactly` | src/rhf-components/Radio.tsx:41-42 | With distinct option values, right after option i is chosen, option i is the only one checked. |
| `Radio.NoErrorsNoText` | src/rhf-components/Radio.test.tsx:78-91 | With no error entries, the group shows no error text. |
| `Radio.PassedMessageShown` | src/rhf-components/Radio.test.tsx:58-76 | For the error entry of the component's test, the paragraph shows the message in the entry. |

## Left out

- The network fetch and JSON decoding (`src/App.tsx:47-69`): the fetched list is a parameter of `App.ReceiveQuestions`.
- The effect's dependency on the memoized dictionary: because the dictionary's identity never changes, the fetch runs once. The model lets the caller decide when the questions arrive.
- `src/rhf-components/DynamicRadio.tsx`: it repeats Radio's selection (`src/rhf-components/DynamicRadio.tsx:52-64`) and its error gate (`src/rhf-components/DynamicRadio.tsx:16`), but its paragraph shows the first RADIO question's `errorMessage` instead of the error entry's message (`src/rhf-components/DynamicRadio.tsx:68-70`), and it shows the question text only when a `label` prop is passed. It is not modelled.
- Yup's evaluation of rules and `yupResolver`: rules are recorded as built, never applied to values.
- react-hook-form internals (`useForm`, `Controller`, form-state storage): `field.onChange(v)` is read as "the field value becomes v". A radio question and a checkbox question that share an id are bound to one field. `Radio.Choose` could then leave a string where `src/rhf-components/Checkbox.tsx:42-48` expects a list, making `includes` a substring test and the spread split the string into characters. The checkbox model's `Option<seq<string>>` value excludes that case. In particular, the model does not capture that `useForm` reads `defaultValues` only on its first render, when the buckets are still empty.
- Rendering: labels, `additionalLabels`, class names and element ids are not modelled. The Select and Input wrappers and `ErrorMessage.tsx` are not part of this model either. They only render and apply the same error gate.
- `onSubmit` (`src/App.tsx:111-121`): it only logs and sets an error string.
- The static issue-topic select (`SELECT_OPTIONS`), which has no default value and no rule.
- DynamicForm.DecimalString: ids are natural numbers, and the model's field name is exactly `id.toString()` only for ids up to `Number.MAX_SAFE_INTEGER` (2^53 - 1). A JavaScript number above that prints the shortest digits that round-trip, padded with zeros: `(2**56).toString()` is "72057594037927940", but `DecimalString(72057594037927936)` is "72057594037927936". There the model's names still consist of digits only, stay distinct for distinct ids and never equal a static name, but their digits can differ from the page's. Exponent notation (10^21 and above) and negative or fractional ids are not modelled.
- `active` and `locale` (of questions and answers) are never read by the page. So an inactive question is still put in its bucket and still gets a rule, a required one if it is required. The model does the same (`DynamicForm.InactiveQuestionKept`).
- `questionText` and `additionalLabels` only feed labels, which are not modelled.
- Answers become options through `DynamicForm.AnswerOptions`: label and value are both the answer's text. The widgets' "distinct option values" condition therefore means distinct answer texts (`DynamicForm.AnswerOptionsDistinct`). Answer ids are not used.
- The expectation of `src/rhf-components/Radio.test.tsx:62-76`: it looks for a text other than the message it passes, so it is not taken as the component's behaviour.
