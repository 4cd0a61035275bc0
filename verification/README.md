# Dynamic reactive form: the form-model builder

A Dafny model of the form-model builder of the `dynamic-reactive-form`
Angular library, that is of `DynamicFormComponent`. The component takes a
list of field descriptors (`fieldset`), optional prefill key/value pairs
and a `readOnly` flag. From them it builds one flat form group:

- one control per field, with each field's children placed right after it;
- an initial value per control, resolved from prefill, from `defaultValue`,
  or from the slide-toggle default `true`;
- a disabled flag per control, from `disabled`, `readOnly`, or being the
  child of a slide toggle whose default is falsy.

The component also records the toggle/child bindings and the "false
toggles". It can enable or disable a toggle's children, and it extracts the
controls' values back into key/value pairs.

Files and modules:

- `form_model.dfy` (`FormModel`): JavaScript values with their truthiness,
  key/value pairs, field types and the field descriptor. An absent optional
  member reads as `Undefined`, `[]` or `false`.
- `form_state.dfy` (`FormState`): the form the component builds. It is an
  ordered list of named controls; a control is a leaf (value, disabled
  flag, validators) or a nested group. This file also holds the `enable()` /
  `disable()` calls.
- `dynamic_form.dfy` (`DynamicForm`): the component's operations.
  - `InitialValue` and `InitializeFormControl` model `initializeFormControl`.
  - The loops of `initializeForm` are modelled as the methods `AddChildren`
    and `AddControls`, each proved equal to a recursive reference description
    (`Layout`, `InitControls`, `Bindings`, `FalseToggleNames`).
  - `ToggleChildren`, the initial pass `HandleSlideToggleChildren`,
    `InitializeForm`, `NgOnInit` and `ExtractFormValues` model the operations
    of the same names.
- `dynamic_form_properties.dfy` (`DynamicFormProperties`): what the built
  form holds, what is recorded, how prefill values travel through to the
  extracted result, and how toggling behaves.
- `as_written.dfy` (`AsWritten`): the slide-toggle handling as the code
  reads for a fieldset that is a `Field[]`; see "## Findings".
- `demo_form.dfy` (`DemoForm`): two concrete instances. The first is a
  toggle with one child. The second is the demo application's left-hand form
  with its prefill data.

Several properties hold only for a fieldset whose produced controls have
pairwise distinct names (`UniqueNames`); those lemmas require it. A form
group cannot hold two controls under one key, and the component's `find`
by name returns the first match.

`ngOnInit` tests only that `fieldset` is present. An empty list is truthy in
JavaScript, so an empty fieldset builds an empty form that is ready
(`EmptyFieldsetIsReady`); it is not rejected like a missing one.

## Model

| member | source | states |
|---|---|---|
| FormState.SetDisabled | projects/dynamic-reactive-form/src/lib/dynamic-form/dynamic-form.component.ts:160-162 | `enable()`/`disable()` gives every leaf at or below the control the requested flag and keeps shape, names, values and validators |
| FormState.SetDisabledLastWins | projects/dynamic-reactive-form/src/lib/dynamic-form/dynamic-form.component.ts:159-163 | of two successive enable/disable calls on one control only the last is visible |
| FormState.SetControl | projects/dynamic-reactive-form/src/lib/dynamic-form/dynamic-form.component.ts:160-162 | `get(name)` then enable/disable changes only the controls called `name`; a name no control has leaves the form unchanged |
| DynamicForm.PrefillMatches | projects/dynamic-reactive-form/src/lib/dynamic-form/dynamic-form.component.ts:110-112 | the `filter` keeps exactly the prefill entries whose key is the field's name; it is non-empty iff the name is a prefill key, and its head is the first such entry |
| DynamicForm.InitialValue | projects/dynamic-reactive-form/src/lib/dynamic-form/dynamic-form.component.ts:91-116 | the first prefill entry for the field wins over everything; without one, a defined default is used; otherwise a slide toggle starts `true` and any other field `undefined` |
| DynamicForm.AddChildren | projects/dynamic-reactive-form/src/lib/dynamic-form/dynamic-form.component.ts:60-68 | the children loop appends one control per child in order, one `{section, name}` binding per child, and the name of every child that is a false toggle |
| DynamicForm.AddControls | projects/dynamic-reactive-form/src/lib/dynamic-form/dynamic-form.component.ts:49-69 | the field loop yields exactly the controls of `Layout` (each field, then its children), all bindings and all false-toggle names, in order |
| DynamicForm.FindField | projects/dynamic-reactive-form/src/lib/dynamic-form/dynamic-form.component.ts:154-156 | the lookup finds nothing iff no top-level field has the name; otherwise it returns the first field with that name |
| DynamicForm.ToggleEach | projects/dynamic-reactive-form/src/lib/dynamic-form/dynamic-form.component.ts:158-164 | every control named like one of the children gets the flag; every other control is unchanged |
| DynamicForm.ToggleChildren | projects/dynamic-reactive-form/src/lib/dynamic-form/dynamic-form.component.ts:152-167 | the child controls of the named field are enabled when the toggle value is truthy and disabled otherwise; all other controls are unchanged; an unknown name is a no-op |
| DynamicForm.InitialPassAt | projects/dynamic-reactive-form/src/lib/dynamic-form/dynamic-form.component.ts:134-137 | after the false-toggle pass a control is disabled, with everything below it, iff a recorded toggle names a field it is a child of; otherwise it is unchanged |
| DynamicForm.NgOnInit | projects/dynamic-reactive-form/src/lib/dynamic-form/dynamic-form.component.ts:41-47 | the component becomes ready iff a fieldset is given, and a form exists iff it is ready |
| DynamicForm.ExtractControl | projects/dynamic-reactive-form/src/lib/dynamic-form/dynamic-form.component.ts:176-183 | a control's pair is keyed by the control's name; a leaf's pair holds the leaf's value, and a group's pair holds the nested extraction of the group's controls |
| DynamicForm.ExtractFormValues | projects/dynamic-reactive-form/src/lib/dynamic-form/dynamic-form.component.ts:172-187 | one pair per control, in the form's insertion order, keyed by control name; a leaf yields its value, and a group yields the extraction of its own controls, one entry per sub-control |
| DynamicFormProperties.LayoutPlacement | projects/dynamic-reactive-form/src/lib/dynamic-form/dynamic-form.component.ts:50-69 | field `i`'s control sits at its offset, its children's controls follow it in order, and the form has exactly one control per field and child |
| DynamicFormProperties.LayoutWithoutChildren | projects/dynamic-reactive-form/src/lib/dynamic-form/dynamic-form.component.ts:51-55 | without children the controls are the fields in fieldset order |
| DynamicFormProperties.FindOwnField | projects/dynamic-reactive-form/src/lib/dynamic-form/dynamic-form.component.ts:154-156 | with unique names, looking a top-level field up by its own name returns that field |
| DynamicFormProperties.FalseToggleNamesSpec | projects/dynamic-reactive-form/src/lib/dynamic-form/dynamic-form.component.ts:100-107 | a name is recorded as a false toggle iff some field with that name is a slide toggle whose default is falsy |
| DynamicFormProperties.BindingsSound | projects/dynamic-reactive-form/src/lib/dynamic-form/dynamic-form.component.ts:61-66 | every recorded binding pairs a field with one of its children |
| DynamicFormProperties.BindingsComplete | projects/dynamic-reactive-form/src/lib/dynamic-form/dynamic-form.component.ts:61-66 | every field/child pair is recorded as a binding |
| DynamicFormProperties.InitControlsAt | projects/dynamic-reactive-form/src/lib/dynamic-form/dynamic-form.component.ts:55-62 | the `k`-th control added is the control created for the `k`-th field of the layout |
| DynamicFormProperties.InitialPassSound | projects/dynamic-reactive-form/src/lib/dynamic-form/dynamic-form.component.ts:134-137 | a control the initial pass disables is the child of a top-level slide toggle with a falsy default |
| DynamicFormProperties.InitialPassComplete | projects/dynamic-reactive-form/src/lib/dynamic-form/dynamic-form.component.ts:134-137 | every child of a top-level slide toggle with a falsy default is disabled by the initial pass |
| DynamicFormProperties.InitialPassDisables | projects/dynamic-reactive-form/src/lib/dynamic-form/dynamic-form.component.ts:134-137 | the initial pass disables a control iff it is such a child (both directions) |
| DynamicFormProperties.InitialControl | projects/dynamic-reactive-form/src/lib/dynamic-form/dynamic-form.component.ts:90-131 | once built, control `k` is a leaf for the `k`-th layout field holding the resolved initial value and its validators; it is disabled iff the field is disabled, the form is read-only, or it is a child of a false toggle |
| DynamicFormProperties.InitialForm | projects/dynamic-reactive-form/src/lib/dynamic-form/dynamic-form.component.ts:49-88 | after `initializeForm` the component is ready and every control is as `InitialControl` states |
| DynamicFormProperties.ReadOnlyDisablesEveryControl | projects/dynamic-reactive-form/src/lib/dynamic-form/dynamic-form.component.ts:123 | with `readOnly` every control starts disabled |
| DynamicFormProperties.EnabledUnlessDisabled | projects/dynamic-reactive-form/src/lib/dynamic-form/dynamic-form.component.ts:123 | without `readOnly` a top-level field's control starts disabled iff the field is disabled; with unique names it is never the child of a false toggle |
| DynamicFormProperties.ChildEnabledUnlessDisabled | projects/dynamic-reactive-form/src/lib/dynamic-form/dynamic-form.component.ts:121-137 | without `readOnly` a child's control sits right after its parent's and its earlier siblings', and starts disabled iff the child is disabled or its parent is a slide toggle with a falsy default |
| DynamicFormProperties.ChildOfFalseToggleIff | projects/dynamic-reactive-form/src/lib/dynamic-form/dynamic-form.component.ts:134-137 | with unique names, a child is reached by the false-toggle pass iff its own parent is a false toggle |
| DynamicFormProperties.TopLevelNotChildOfFalseToggle | projects/dynamic-reactive-form/src/lib/dynamic-form/dynamic-form.component.ts:134-137 | with unique names, the false-toggle pass never reaches a top-level field |
| DynamicFormProperties.FalseToggleChildrenStartDisabled | projects/dynamic-reactive-form/src/lib/dynamic-form/dynamic-form.component.ts:82 | every child of a slide toggle with a falsy default starts disabled, even when prefill makes the toggle itself truthy |
| DynamicFormProperties.InitialRecords | projects/dynamic-reactive-form/src/lib/dynamic-form/dynamic-form.component.ts:49-69 | the recorded bindings are exactly the field/child pairs, one per child; the recorded false toggles are exactly the false toggles of the layout, whatever the prefill |
| DynamicFormProperties.EmptyFieldsetIsReady | projects/dynamic-reactive-form/src/lib/dynamic-form/dynamic-form.component.ts:42-43 | an empty fieldset builds an empty, ready form with nothing recorded |
| DynamicFormProperties.UndefinedToggleQuirk | projects/dynamic-reactive-form/src/lib/dynamic-form/dynamic-form.component.ts:100-106 | a slide toggle without a default is recorded as a false toggle although its control starts `true` |
| DynamicFormProperties.UnmatchedPrefillIgnored | projects/dynamic-reactive-form/src/lib/dynamic-form/dynamic-form.component.ts:109-116 | prefill entries for other names do not change a field's initial value |
| DynamicFormProperties.LeadingPrefillWins | projects/dynamic-reactive-form/src/lib/dynamic-form/dynamic-form.component.ts:113-114 | a leading entry for the field decides its value, whatever follows |
| DynamicFormProperties.EarlierPrefillWins | projects/dynamic-reactive-form/src/lib/dynamic-form/dynamic-form.component.ts:110-114 | entries after the first matching one are never consulted |
| DynamicFormProperties.ExtractAt | projects/dynamic-reactive-form/src/lib/dynamic-form/dynamic-form.component.ts:175-184 | the `k`-th extracted pair is the `k`-th control's pair |
| DynamicFormProperties.SetDisabledKeepsValue | projects/dynamic-reactive-form/src/lib/dynamic-form/dynamic-form.component.ts:182 | enabling or disabling a control never changes what is extracted from it, including disabled values |
| DynamicFormProperties.ExtractAppend | projects/dynamic-reactive-form/src/lib/dynamic-form/dynamic-form.component.ts:175-184 | extraction distributes over concatenation of control lists |
| DynamicFormProperties.PrefillRoundTrip | projects/dynamic-reactive-form/src/lib/dynamic-form/dynamic-form.component.ts:172-187 | extracting the freshly built form yields one pair per layout field, keyed by its name; a field named in the prefill carries its first entry's value |
| DynamicFormProperties.PrefillRoundTripExact | projects/dynamic-reactive-form/src/lib/dynamic-form/dynamic-form.component.ts:109-116 | prefill naming every control once, in layout order, comes back unchanged from extraction |
| DynamicFormProperties.ToggleKeepsValues | projects/dynamic-reactive-form/src/lib/dynamic-form/dynamic-form.component.ts:152-167 | toggling never changes an extracted value |
| DynamicFormProperties.ToggleLastWins | projects/dynamic-reactive-form/src/lib/dynamic-form/dynamic-form.component.ts:152-167 | toggling the same field twice equals toggling it once with the second value |
| DynamicFormProperties.ToggleField | projects/dynamic-reactive-form/src/lib/dynamic-form/dynamic-form.component.ts:152-167 | with unique names, toggling a top-level field sets every leaf child to enabled iff the value is truthy, keeping value and validators, and touches nothing else |
| AsWritten.Find | projects/dynamic-reactive-form/src/lib/dynamic-form/dynamic-form.component.ts:154-156 | `find` on a list of fields returns nothing iff no field has the name; on a single field descriptor the call raises |
| AsWritten.Sections | projects/dynamic-reactive-form/src/lib/dynamic-form/dynamic-form.component.ts:153-154 | `Object.keys` of the fieldset array visits one key per position, and the value read at each is that position's single field, never a list |
| AsWritten.ToggleChildrenVia | projects/dynamic-reactive-form/src/lib/dynamic-form/dynamic-form.component.ts:153-166 | the loop raises iff one of the visited values is a single field descriptor; over no values the form is unchanged |
| AsWritten.ToggleChildrenViaList | projects/dynamic-reactive-form/src/lib/dynamic-form/dynamic-form.component.ts:153-166 | had the fieldset been one list of fields, and the children's controls been looked up in the flat form, the loop would do what the intended `toggleChildren` does |
| AsWritten.ControlNamed | projects/dynamic-reactive-form/src/lib/dynamic-form/dynamic-form.component.ts:144 | `this.form.controls[key]` finds nothing iff no control is called `key`, and otherwise the first control so called |
| AsWritten.ChildControl | projects/dynamic-reactive-form/src/lib/dynamic-form/dynamic-form.component.ts:144-146 | `this.form.controls[section]['controls'][name]` raises on a form of leaves, and succeeds only when a control called `section` is a group |
| AsWritten.SubscribeAll | projects/dynamic-reactive-form/src/lib/dynamic-form/dynamic-form.component.ts:139-149 | on a form of leaves the subscription loop completes iff there is no binding |
| AsWritten.ToggleChildrenAsWritten | projects/dynamic-reactive-form/src/lib/dynamic-form/dynamic-form.component.ts:153-156 | as written, `Object.keys` of the fieldset array yields its positions and each value is a single field, so the loop raises at the first position of every non-empty fieldset, and an empty fieldset leaves the form unchanged |
| AsWritten.HandleSlideToggleChildrenAsWritten | projects/dynamic-reactive-form/src/lib/dynamic-form/dynamic-form.component.ts:134-149 | as written, on a form of leaves the pass completes iff no false toggle reaches a non-empty fieldset and no binding exists, and then leaves the form unchanged |
| AsWritten.InitializeFormAsWritten | projects/dynamic-reactive-form/src/lib/dynamic-form/dynamic-form.component.ts:49-88 | as written, the form is assigned but becomes ready iff there are no false toggles and no children |
| AsWritten.AsWrittenNeverReady | projects/dynamic-reactive-form/src/lib/dynamic-form/dynamic-form.component.ts:82-87 | as written, one false toggle or one child keeps the form from becoming ready, while the intended builder is ready |
| AsWritten.AsWrittenAgreesWithoutToggles | projects/dynamic-reactive-form/src/lib/dynamic-form/dynamic-form.component.ts:49-88 | without false toggles and children, the code as written builds exactly the intended component |
| DemoForm.ToggleExampleFalseChildren | projects/dynamic-reactive-form/src/lib/dynamic-form/dynamic-form.component.ts:104-105 | only `c` is the child of a false toggle |
| DemoForm.ToggleExampleControl | projects/dynamic-reactive-form/src/lib/dynamic-form/dynamic-form.component.ts:90-131 | each of the example's three controls has the expected value and disabled flag |
| DemoForm.ToggleExampleInitial | projects/dynamic-reactive-form/src/lib/dynamic-form/dynamic-form.component.ts:82-87 | the example builds `a` undefined and enabled, `b` false and enabled, and `c` undefined and disabled |
| DemoForm.ToggleExampleSwitchOn | projects/dynamic-reactive-form/src/lib/dynamic-form/dynamic-form.component.ts:159-160 | switching `b` on enables `c` and leaves `a` and `b` as they were |
| DemoForm.ToggleExampleBuildThenSwitchOn | projects/dynamic-reactive-form/src/lib/dynamic-form/dynamic-form.component.ts:152-167 | building the example and then switching `b` on leaves `c` enabled |
| DemoForm.ToggleExampleAsWritten | projects/dynamic-reactive-form/src/lib/dynamic-form/dynamic-form.component.ts:153-156 | as written, the example never becomes ready; as intended, it does |
| DemoForm.LeftFormShape | projects/demo-with-dynamic-form/src/app/form.constants.ts:3-49 | its four names are distinct and are the prefill keys, in the same order |
| DemoForm.LeftFormRoundTrip | projects/demo-with-dynamic-form/src/app/form.constants.ts:44-49 | building the left-hand form from its prefill data and extracting it returns that prefill data |
| DemoForm.LeftFormAsWritten | projects/demo-with-dynamic-form/src/app/form.constants.ts:3-22 | the code as written builds the left-hand form exactly as intended, and it becomes ready |

## Left out

- `valueChanges` subscriptions and the debounced logging (dynamic-form.component.ts:75-77 and 139-149) are left out. They are event-driven and, per the source comment, only for the demo. `toggleChildren` is modelled as a direct operation instead; the model of the code as written (`AsWritten`) keeps only the subscription loop's control lookup, whose failure raises.
- Console output (`console.warn`, `console.log`) is left out, since it has no effect on the form.
- The `errors` input and the `emitFormValues` output are left out, because the builder never reads or emits them.
- The template and Angular's change detection are left out.
- Validators are carried as opaque names. Angular evaluates them, not the component, so validity and error state are not modelled.
- Angular's `addControl` keeps the first control when a name is added twice. The model appends instead; every lemma that describes the built form requires `UniqueNames`, so duplicate names are simply outside its claims.
- Numbers are integers. `NaN`, non-integer numbers, dates and other objects are outside `Value`. Arrays and objects are one `Pairs` case, which is always truthy.
- `FormArray` is not modelled. Nested `FormGroup` controls are modelled only for `extractFormValues`, because the builder never creates them.
- The `section` lookup of `toggleChildren` (lines 153-156 and 160-162) cannot run on a flat fieldset; see "## Findings". Outside `AsWritten`, the model uses the intended lookup: the first top-level field with that name, whose children's controls are found by name in the flat form. A child with no control is skipped, where `get(...)` on a missing name would return `null` and raise.
- An absent `children` is the empty list. For a recorded false toggle without children, the model's `toggleChildren` changes nothing, where `specifiedField.children.forEach` would raise.
- The component's arrays are never cleared, so calling `initializeForm` twice would record toggles and bindings twice. The model builds from a fresh component once, as `ngOnInit` does.
- The intermediate states inside `initializeForm`, such as the form existing while `formReady` is still false, are not modelled. Each operation is one step from input to result.
- DynamicForm.HandleSlideToggleChildren: its own contract states only that the number of controls is kept. What it does to each control is stated by `DynamicForm.InitialPassAt`.
- DynamicForm.InitializeForm: its own contract states only that a form with one control per layout field is built and the component is ready. What the form holds is stated by `DynamicFormProperties.InitialForm`, and what is recorded by `DynamicFormProperties.InitialRecords`.
- DynamicForm.IsFalseToggle: a predicate with no contract of its own. It is characterised by `DynamicFormProperties.FalseToggleNamesSpec` and `DynamicFormProperties.UndefinedToggleQuirk`.
- DynamicForm.ExtractFormValues: the pairs follow the form's insertion order. `Object.keys` (line 175) lists integer-like keys such as "0" or "42" first, in ascending numeric order, so for a form with such a control name the source's order differs from the model's. `form.get(key)` (line 182) also reads a name containing a dot as a path; for such a name it yields `null` and reading `.value` raises. The model reads each control directly and covers neither case.
- DynamicFormProperties.PrefillRoundTrip: the order it states is insertion order. It matches the source only when no control name is integer-like and none contains a dot (see `DynamicForm.ExtractFormValues`).
- DynamicFormProperties.PrefillRoundTripExact: as for `PrefillRoundTrip`, equality with the prefill list holds in the source only when no control name is integer-like and none contains a dot.
- FormState.SetControl: `get(name)` (lines 160-162) reads a dotted name as a path, finds nothing, and `enable()`/`disable()` on the resulting `null` raises. The model matches control names exactly, so toggling a child whose name contains a dot is not modelled.
- AsWritten.ToggleChildrenViaList: a list receiver switches the children's controls in the whole flat form, the intended lookup. It does not model `this.form.controls[section].get(child.name)` (lines 160-162), which on the flat form reads the position key, finds no control and raises. It also does not raise for a field without `children` (line 158) or a child without a control. The `Field[]` path that `Sections` produces never reaches this branch.
- DynamicForm.InitializeFormControl: it carries no contract of its own, and what it builds is stated per control by `DynamicFormProperties.InitialControl`.

## Findings

| source | as written | input that shows it | evidently intended | confidence | as-written member | corrected member |
|---|---|---|---|---|---|---|
| projects/dynamic-reactive-form/src/lib/dynamic-form/dynamic-form.component.ts:153-156 | `Object.keys(this.fieldset)` yields positions, and `this.fieldset[section]` is then a single field descriptor with no `find` method, so the first call raises a `TypeError`. The subscription loop at line 144 likewise reads `controls` of a leaf control. Both run inside `initializeForm` before `formReady = true`. | a text field `a` plus a slide toggle `b` with default `false` and one child `c` | look up the first field called `name` and enable or disable its children's controls; the form then becomes ready with `c` disabled | high, not executed | AsWritten.AsWrittenNeverReady (with DemoForm.ToggleExampleAsWritten) | DynamicFormProperties.ToggleField (with DynamicFormProperties.InitialForm) |
