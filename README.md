# FormBuilder core in Dafny

FormBuilder lets an owner build a form (an ordered list of fields with
optional show-if conditions and PII flags), publish it, collect responses
and view analytics. This project models its core logic and proves
properties about it:

- the data model of forms, fields, conditions, responses and bucket
  distributions (`Models`, backend/api/models.go);
- the backend's submission validator and its published gate (`Validation`),
  the creation checks of `CreateFormHandler` and the unguarded overwrite of
  `UpdateFormHandler` (`Schema`), all from backend/api/handlers.go;
- `computeAnalytics` (`Analytics`, backend/api/analytics.go):
  - the response scan is an imperative method proved equal to a left fold;
  - the fold's per-field totals are proved equal to direct sums over the
    responses;
  - the averages, most-common and skipped-fields loops;
- the Authorization-header gate of `AuthMiddleware` (`Auth`,
  backend/api/auth.go);
- the three editor pages, frontend/app/page.tsx (the "builder"),
  page-improved.tsx and page-original.tsx:
  - the field-list operations as functions on sequences (`FieldList`);
  - the page state as a class whose methods are the handlers (`Editor`);
  - the builder's save checks, proved to imply the backend's creation checks;
  - the white-space and decimal helpers these need (`Text`).

Answers and condition values are a closed `Value` datatype (string, number as
`real`, boolean, list, null, other). A condition compares an answer decoded
from JSON with a value decoded from the database; lists and objects have a
different Go type on each side and never match (`Validation.Matches`). Fresh ids,
the outcome of network requests and token verification are parameters.

Behaviour of the code that the model keeps, and that a reader might not expect:

- Forms are not locked once published. `UpdateFormHandler` overwrites
  title, status and fields with no checks, so a published form can be
  emptied or moved back to draft (`Schema.PublishedFormIsNotLocked`).
- Visibility is single-level: a field's condition reads the stored answer to
  its dependency even when that dependency is itself hidden
  (`Validation.HiddenDependencyStillCounts`).
- The analytics scan does not re-evaluate visibility: any stored value of a
  non-PII field is aggregated.
- Numbers all land in one "value" bucket.
- A field id carried by several non-PII fields is visited once per such
  field. The per-key lemmas therefore carry that multiplicity.
- The improved and original pages create fields of kinds "multiple_choice"
  and "checkboxes". The validator does not know these kinds and accepts any
  answer to them (`FieldList.UnknownKindsUnchecked`).
- The builder trims the title and labels before its emptiness checks; the
  backend does not trim (`Editor.SpacesTitleRefusedOnlyByEditor`).

## Model

| member | source | states |
|---|---|---|
| Models.Inc | backend/api/analytics.go:75 | `m[k]++` on a Go map: the key is added if missing, its count rises by one, every other count is unchanged |
| Validation.Message | backend/api/handlers.go:202-241 | every violation message ends with the field's label |
| Validation.Matches | backend/api/handlers.go:190-191 | the condition holds for a string, number, boolean or null answer exactly when it equals the condition value; a list or object answer never matches |
| Validation.Visible | backend/api/handlers.go:189-197 | a field without a condition is visible; one with a condition is visible exactly when its dependency has an answer that matches the condition value |
| Validation.RatingMin | backend/api/handlers.go:236-238 | an unset (zero) minimum means 1, any other value is kept |
| Validation.RatingMax | backend/api/handlers.go:237-239 | an unset (zero) maximum means 5, any other value is kept |
| Validation.SelectionViolation | backend/api/handlers.go:224-232 | a list of selections passes exactly when every element is a string among the options; a failure names the field |
| Validation.TypeViolation | backend/api/handlers.go:206-245 | per type, the answer passes exactly when: text is a non-empty string; single_choice is a non-empty string among the options; multi_select is a list of option strings; rating is a number within the defaulted bounds; unknown types accept anything |
| Validation.CheckField | backend/api/handlers.go:189-246 | a hidden field is never in violation; a visible required field missing from the answers is reported missing; a present answer is judged by its type rule |
| Validation.FirstViolation | backend/api/handlers.go:187-248 | no violation exactly when every field passes; otherwise the result is the violation of the first failing field in schema order |
| Validation.InOptions | backend/api/handlers.go:216-219 | the `allowed` loop with `break` finds the choice exactly when it is among the options |
| Validation.CheckSelections | backend/api/handlers.go:224-232 | the element loop returns the same verdict as the selection rule |
| Validation.CheckAnswer | backend/api/handlers.go:207-245 | the type switch returns the same verdict as the type rule |
| Validation.ValidateSubmission | backend/api/handlers.go:186-249 | the field loop with `continue` and early returns yields the first violation in schema order, or none |
| Validation.AcceptedIff | backend/api/handlers.go:186-249 | a submission is accepted exactly when every visible field has its required answer and every present answer to a visible field passes its type rule |
| Validation.Submit | backend/api/handlers.go:160-172 | an unpublished form refuses before validation; a published one accepts exactly the answers that have no violation and stores them unchanged |
| Validation.UnpublishedRejectsAll | backend/api/handlers.go:160-162 | an unpublished form gives the same refusal whatever the answers |
| Validation.HiddenDependencyStillCounts | backend/api/handlers.go:189-197 | visibility is single-level: a field is shown when its dependency's stored answer matches, even though the dependency is itself hidden |
| Validation.ConditionalRequiredExample | backend/api/handlers.go:189-204 | a required field shown only if A is "Yes" is skipped when A is "No" and reported missing when A is "Yes" |
| Validation.EmptySelectionPasses | backend/api/handlers.go:221-232 | a required, visible multi_select answered with an empty list passes |
| Validation.NullFailsKnownTypes | backend/api/handlers.go:200-245 | a null answer satisfies the required check but fails every known type rule; unknown types accept it |
| Schema.FieldProblem | backend/api/handlers.go:86-104 | a field passes exactly when its label is neither empty nor "Question", a PII field is required, and a choice field has options, none of them empty. A failing field reports the first failed check in the order label, PII, no options, empty option |
| Schema.FirstFieldProblem | backend/api/handlers.go:85-105 | no problem exactly when every field passes |
| Schema.CreateCheck | backend/api/handlers.go:65-105 | an empty or "Untitled Form" title is refused first and an empty field list second. Next, a form with no required field is refused. Only then is the first field problem in schema order reported |
| Schema.Message | backend/api/handlers.go:66-101 | every refusal has a non-empty 400 message |
| Schema.MessagesDistinct | backend/api/handlers.go:66-101 | different refusals carry different messages |
| Schema.CreateCheckIff | backend/api/handlers.go:64-105 | creation accepts a form exactly when it has a real title, at least one field, a required field, and every field passes |
| Schema.ValidateNewForm | backend/api/handlers.go:64-105 | the `hasRequiredField` loop and the field and option loops return the first refusal in check order |
| Schema.CreateForm | backend/api/handlers.go:64-115 | refuses exactly the forms the checks refuse; an accepted form gets the fresh id and the caller as owner, keeps title and fields, and its empty status becomes "draft" |
| Schema.UpdateForm | backend/api/handlers.go:133-148 | an update takes the incoming title, status and fields unchecked, keeps the id, and replaces the owner only by a non-empty one |
| Schema.PublishedFormIsNotLocked | backend/api/handlers.go:133-148 | a published form can be emptied and put back to draft, leaving a form that creation would refuse |
| Analytics.FoldSplit | backend/api/analytics.go:60-109 | scanning a batch equals scanning its two halves one after the other |
| Analytics.Tallied | backend/api/analytics.go:80-103 | an empty string, an empty list or null leaves the buckets unchanged |
| Analytics.FieldStep | backend/api/analytics.go:71-106 | a PII field changes nothing; any other field adds exactly one visit to its id, and at most one skip |
| Analytics.StepFields | backend/api/analytics.go:70-107 | the field loop leaves the response counter alone and changes nothing when every field is PII |
| Analytics.Step | backend/api/analytics.go:61-107 | each response adds one to the response counter |
| Analytics.FoldFrom | backend/api/analytics.go:61-108 | the response counter rises by the number of responses scanned |
| Analytics.Fold | backend/api/analytics.go:53-108 | after the scan the counter is the number of responses, and no responses leave every map empty |
| Analytics.ReadBack | backend/api/analytics.go:62 | a stored list is handed back as a value the `[]interface{}` case does not match; every other answer is unchanged |
| Analytics.ReadBackResponse | backend/api/analytics.go:62 | decoding keeps every answered key and reads each answer back as above |
| Analytics.FoldAsDeployed | backend/api/analytics.go:60-108 | the scan over responses as the driver decodes them counts the responses, and agrees with the intended scan when no answer is a list |
| Analytics.ListAnswersMiscounted | backend/api/analytics.go:93-99 | as deployed, the selection ["a"] lands in "other" and an empty selection is not a skip |
| Analytics.ListAnswersCounted | backend/api/analytics.go:93-99 | as intended, the selection ["a"] is counted under "a" and an empty selection is a skip |
| Analytics.SkippedAtMost | backend/api/analytics.go:76-107 | each response skips a field at most once |
| Analytics.AddStringsAt | backend/api/analytics.go:94-97 | a list answer adds to bucket b the number of times the string b occurs in it, ignoring non-strings |
| Analytics.TalliedAt | backend/api/analytics.go:80-103 | a present answer adds to each bucket exactly its hits: a non-empty string its own bucket, a number "value", a boolean "true" or "false", a list its strings, anything else "other" |
| Analytics.FieldStepAt | backend/api/analytics.go:70-107 | one field visit touches only the totals of its own id, and none for a PII field |
| Analytics.StepFieldsAt | backend/api/analytics.go:70-108 | the field loop visits an id once per non-PII field carrying it |
| Analytics.FoldAt | backend/api/analytics.go:60-111 | after the scan, `count` is the number of responses. For each id, the totals are those direct sums times the number of non-PII fields with that id: visits, skips, numeric answers and their sum, and each bucket. Breakdown, sums and skips hold the id exactly when some response contributed to it |
| Analytics.PIINeverAggregated | backend/api/analytics.go:71-73 | an id carried only by PII fields never receives a bucket, a sum, a numeric count, a visit or a skip |
| Analytics.SkipsBounded | backend/api/analytics.go:76-107 | a field's skips never exceed its visits, nor the response count when one non-PII field carries the id |
| Analytics.MeanOfNumericAnswers | backend/api/analytics.go:87-118 | an id with a sum has numeric answers, and sum over count is the mean of those answers, however many non-PII fields carry the id |
| Analytics.TallyAnswer | backend/api/analytics.go:80-103 | the type switch on one answer updates the buckets as the fold does and reports the empty string or empty list as a skip |
| Analytics.VisitField | backend/api/analytics.go:70-107 | one pass of the field loop body, updating the maps in place, reaches the fold's field step |
| Analytics.Aggregate | backend/api/analytics.go:53-111 | the nested response and field loops, incrementing the maps in place, end in the state of the fold |
| Analytics.Averages | backend/api/analytics.go:114-118 | an average exists exactly for the summed fields with a positive count and equals sum divided by count |
| Analytics.MostCommon | backend/api/analytics.go:122-129 | the scan ends with a maximal count, the key holding it, or "" when no count is positive |
| Analytics.MostCommonAnswers | backend/api/analytics.go:121-133 | every recorded answer is a non-empty key of maximal positive count; a field is left out only when it has no positive bucket or the empty key holds the maximum |
| Analytics.NonPII | backend/api/analytics.go:146-149 | the kept fields are all non-PII and no more than the input |
| Analytics.NonPIIMembers | backend/api/analytics.go:146-149 | the filter keeps exactly the non-PII fields |
| Analytics.NonPIIConcat | backend/api/analytics.go:146-149 | the filter keeps schema order: filtering a concatenation filters each part |
| Analytics.SkippedFields | backend/api/analytics.go:146-162 | one entry per non-PII field in schema order, holding its id, label and skip count |
| Analytics.ComputeAnalytics | backend/api/analytics.go:34-133 | count is the response count and the breakdown is the fold's. Averages exist for the summed fields with a positive count, and each is the mean of that id's numeric answers. Every most-common answer is maximal, and a field is left out only when it has no positive bucket or "" holds the maximum. Skipped fields are as above |
| Auth.BearerToken | backend/api/auth.go:129-132 | the prefix is stripped only from a header longer than "Bearer " that starts with it; otherwise the header is the token |
| Auth.Message | backend/api/auth.go:126-152 | every refusal has a non-empty 401 message |
| Auth.MessagesDistinct | backend/api/auth.go:126-152 | different refusals carry different messages |
| Auth.BearerRoundTrip | backend/api/auth.go:130-132 | "Bearer " followed by a non-empty token yields that token |
| Auth.PrefixAloneKept | backend/api/auth.go:129-130 | the header "Bearer " alone is kept whole as the token |
| Auth.StripsOnce | backend/api/auth.go:130-132 | only one prefix is stripped |
| Auth.Authenticate | backend/api/auth.go:124-156 | an empty header is refused first, then a rejected token, then claims that are not a map; the request proceeds exactly when the `user_id` claim is a string, under that id |
| Auth.PrefixOptional | backend/api/auth.go:129-156 | a token authenticates identically with or without the prefix, unless it itself starts with the prefix |
| Auth.NonStringUserIdRefused | backend/api/auth.go:150-153 | a `user_id` claim that is not a string is refused |
| Text.Decimal | frontend/app/page-improved.tsx:391 | the rendered count is a non-empty string of digits with no leading zero |
| Text.DecimalRoundTrip | frontend/app/page-improved.tsx:391 | reading the rendered count back gives the count |
| Text.DecimalInjective | frontend/app/page-improved.tsx:391 | different counts render differently |
| Text.NotBlankNotEmpty | frontend/app/page.tsx:54 | a string that survives `trim` non-empty is non-empty |
| Text.IsSpace | frontend/app/page.tsx:54 | in ASCII, exactly the space and the five control characters from tab to carriage return are white space; no letter or digit is |
| Text.TrimStart | frontend/app/page.tsx:72 | the result is a suffix, everything stripped before it is white space, and it does not start with white space |
| Text.BlankIffTrimmedEmpty | frontend/app/page.tsx:54 | `trim` leaves nothing exactly when every character is white space |
| FieldList.NewField | frontend/app/page.tsx:27-34 | a new field has the fresh id, the kind, no requirement, no PII and no condition. On the builder its label is "" and a choice field gets one blank option; on the other pages its label is "Question" and every non-text field gets "Option 1". A rating gets bounds 1 and 5 |
| FieldList.NewFieldNeedsLabel | frontend/app/page-improved.tsx:44-58 | every page's new field carries a placeholder label that the backend refuses at creation |
| FieldList.AddField | frontend/app/page-original.tsx:23-30 | exactly one field is appended and the others are kept |
| FieldList.Moved | frontend/app/page.tsx:40-50 | the reordered list has the same length and holds the dragged field at the drop index |
| FieldList.MovedAt | frontend/app/page.tsx:40-50 | the dragged field lands at the drop index. The fields between the two indices shift by one, the others keep their place, and the length is unchanged |
| FieldList.MovedPermutes | frontend/app/page-improved.tsx:68-78 | reordering is a permutation |
| FieldList.MovedSame | frontend/app/page-original.tsx:36-46 | dropping a field where it was changes nothing |
| FieldList.MovedBack | frontend/app/page.tsx:40-50 | dragging the field back undoes the move |
| FieldList.Without | frontend/app/page.tsx:99-101 | the result is no longer than the list and holds no field with the id |
| FieldList.WithoutMembers | frontend/app/page.tsx:99-101 | a field is in the result exactly when it is in the list and does not carry the id |
| FieldList.WithoutConcat | frontend/app/page-improved.tsx:91-93 | removal keeps the survivors in order |
| FieldList.WithoutAbsent | frontend/app/page.tsx:99-101 | removing an unused id changes nothing |
| FieldList.WithoutIdempotent | frontend/app/page.tsx:99-101 | removing twice is removing once |
| FieldList.FindById | frontend/app/page.tsx:104 | the result is the first field with the id, or none when no field has it |
| FieldList.Copy | frontend/app/page.tsx:105-106 | the copy has the fresh id and the label with " (Copy)" appended, and is otherwise the original |
| FieldList.Duplicate | frontend/app/page.tsx:103-109 | with the id absent nothing changes. Otherwise one field is appended: the first match under the fresh id, with " (Copy)" after its label and otherwise identical |
| FieldList.DuplicateThenRemove | frontend/app/page-improved.tsx:95-105 | deleting the copy right after duplicating restores the list when the fresh id was unused |
| FieldList.ReplaceAt | frontend/app/page.tsx:409 | option edit replaces exactly index `oi` and keeps the length |
| FieldList.RemoveAt | frontend/app/page-original.tsx:98 | option removal drops exactly index `oi`, and nothing when `oi` is out of range |
| FieldList.OptionText | frontend/app/page-original.tsx:102 | the builder appends "", the other pages "Option N+1" for N current options |
| FieldList.OptionTextsDistinct | frontend/app/page-improved.tsx:384-396 | generated option texts for different counts differ |
| FieldList.Apply | frontend/app/page.tsx:333-525 | every edit keeps id and kind and cannot leave a PII field optional. A label edit changes only the label. The required box changes only `required`, and leaves a PII field alone. The PII toggle changes only PII and required: turning it on sets required, turning it off keeps it. Option edits change only the options. Condition edits change only the condition: choosing "" clears it, choosing a field asks for "", and a value edit keeps the dependency. Min and max change only themselves |
| FieldList.UpdateById | frontend/app/page-original.tsx:80-110 | the edit applies to exactly the fields with the id; the others and the length are unchanged |
| FieldList.UpdateKeepsPIIRequired | frontend/app/page.tsx:364-368 | no edit leaves a PII field optional |
| FieldList.UpdateKeepsIds | frontend/app/page.tsx:333 | edits keep every field's id in place |
| FieldList.UpdateAbsent | frontend/app/page-improved.tsx:351-377 | an edit aimed at an unused id changes nothing |
| FieldList.RatingCondition | frontend/app/page.tsx:488-498 | a parsed rating is stored exactly when it lies within the dependency's bounds (defaults 1 and 5) |
| FieldList.RatingConditionAcceptable | frontend/app/page.tsx:488-498 | a stored rating condition is an answer the validator accepts for the dependency |
| FieldList.FreshConditionHides | frontend/app/page.tsx:436-449 | a freshly chosen condition asks for "", which a valid single-choice answer never is, so the field stays hidden |
| FieldList.UnknownKindsUnchecked | frontend/app/page-original.tsx:23-30 | fields of kind "multiple_choice" or "checkboxes" accept any answer |
| Editor.CountNonBlank | frontend/app/page.tsx:78 | the count of non-blank options equals the length exactly when no option is blank, and is zero exactly when all are |
| Editor.FieldSaveProblem | frontend/app/page.tsx:71-87 | a field passes the builder's checks exactly when its trimmed label is non-empty and not "Question", and a choice field has options, none blank. A failing field reports the first failed check: the label alert, then the no-option alert when every option is blank, then the blank-option alert when some but not all are blank, both quoting the label |
| Editor.FirstSaveProblem | frontend/app/page.tsx:71-88 | no problem exactly when every field passes; otherwise the problem of the first failing field in schema order |
| Editor.SaveCheck | frontend/app/page.tsx:53-89 | a blank or "Untitled Form" title is refused first, an empty field list second, a form with no required field third; only then is the first failing field reported |
| Editor.Alert | frontend/app/page.tsx:55-85 | every refusal alerts with a non-empty text; the option alerts end with the field's label in quotes |
| Editor.SaveCheckIff | frontend/app/page.tsx:53-89 | the builder saves exactly when the trimmed title is non-empty and not "Untitled Form", there are fields, one is required, and every field passes |
| Editor.CountValidOptions | frontend/app/page.tsx:78 | the counting loop returns the number of non-blank options |
| Editor.FindSaveProblem | frontend/app/page.tsx:53-89 | the builder's `some` and loops find the first refusal in check order |
| Editor.SavableIsCreatable | frontend/app/page.tsx:52-96 | a form the builder sends, with PII fields required, passes the backend's creation checks |
| Editor.SpacesTitleRefusedOnlyByEditor | frontend/app/page.tsx:54 | a title of spaces is refused by the builder but not by the backend's title check |
| Editor.NewFieldBlocksSave | frontend/app/page.tsx:27-34 | a form with a freshly added builder field cannot be saved |
| Editor.Editor.constructor | frontend/app/page.tsx:20-25 | a page starts empty, not saving, with title "" on the builder and "Untitled Form" elsewhere |
| Editor.Editor.SetTitle | frontend/app/page-original.tsx:59 | only the title changes |
| Editor.Editor.AddField | frontend/app/page-improved.tsx:44-58 | the page's new field is appended; nothing else changes |
| Editor.Editor.OnDragStart | frontend/app/page.tsx:38 | the drag source is recorded |
| Editor.Editor.OnDrop | frontend/app/page-original.tsx:36-46 | without a source, or onto the source, nothing changes. Otherwise the field moves, the drag ends and the fields are permuted |
| Editor.Editor.RemoveField | frontend/app/page-improved.tsx:91-93 | on the builder and improved pages, the fields become the survivors of the removal; nothing else changes |
| Editor.Editor.DuplicateField | frontend/app/page-improved.tsx:95-105 | on the builder and improved pages, the fields become the duplicated list; nothing else changes |
| Editor.Editor.EditField | frontend/app/page-original.tsx:80-110 | the edit applies to the fields with the id, keeping PII fields required; the PII toggle and the condition editors exist only on the builder |
| Editor.Editor.SetRatingCondition | frontend/app/page.tsx:484-498 | the condition value changes only when the rating guard lets the parsed value through |
| Editor.Editor.Save | frontend/app/page-improved.tsx:80-137 | save runs only while no save is pending, as every page disables its save buttons while saving. The builder only alerts on a failed check. Otherwise the payload is sent, a returned id is recorded, and the builder shows its success panel. `saving` stays set after a failed request except on the improved page, whose `finally` resets it. Every payload the builder sends passes the creation checks |

## Left out

- Database and HTTP plumbing: Mongo collections and cursors, request parsing and status codes. The handlers are modelled from the decoded form or answers to their verdict.
- The websocket registry and broadcast: concurrent connection tracking and socket writes.
- JWT signing, parsing and verification, and bcrypt: verification is the `verify` parameter of `Auth.Authenticate`.
- Skip rates, the approximate completion rate and float rounding of averages: sums are exact `real`s and averages are sum over count.
- The 7-day response trends and every timestamp: they depend on the clock.
- CSV export and its value formatting.
- The type switch of the analytics scan is modelled on answers as written to the database (`Analytics.TallyAnswer`, `Analytics.CountsAsSkip`, `Analytics.Fold`). How the driver reads them back is modelled separately (`Analytics.FoldAsDeployed`); see "Findings".
- Random ids (`crypto.randomUUID`, `makeId`, new object ids): they are parameters.
- Rendering, previews and every page other than the three editors, and the api-client's fetch calls. The request outcome is a parameter of `Save`.
- Configuration lookup.
- Header length is counted in characters, not bytes. This agrees with Go's byte test because the prefix is ASCII.
- `parseInt` yielding NaN: min, max and rating inputs are modelled as parsed integers (`None` for the rating guard).
- Editor.Editor.OnDrop: requires the drag source and drop index to be positions in the current list. A stale index makes JavaScript's `splice` insert `undefined`, which the model does not represent.
- FieldList.Apply: the required checkbox is disabled for the rendered field, while the edit reaches every field with its id. The model applies the PII guard to each field the edit reaches. This is the same whenever ids are unique.
- Editor.Editor.SetRatingCondition: requires the condition's dependency to be a rating field, because the rating input is rendered only then. The choice-value select is `EditField` with a string value.
- The builder's PII toggle and required checkbox are rendered only for text fields, or only enabled for non-PII fields. Those are rendering conditions; the edits are modelled for any field.

## Findings

| source | as written | input that shows it | evidently intended | confidence | as-written member | corrected member |
|---|---|---|---|---|---|---|
| backend/api/analytics.go:62-99 | responses are read back with `cur.Decode` into `map[string]interface{}`. The driver's default decoding of a BSON array there is `primitive.A`, which `case []interface{}` does not match, so list answers fall into `default` | a multi_select field answered once with ["a"] and once with [] | count "a" in its own bucket and count the empty selection as a skip | not executed; rests on the driver's documented default type map | Analytics.ListAnswersMiscounted | Analytics.ListAnswersCounted |
