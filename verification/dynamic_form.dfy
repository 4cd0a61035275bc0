/** The form-model builder of `DynamicFormComponent`: it turns a field list
    into a flat list of controls, disables the children of slide toggles
    whose default is falsy, lets a caller enable or disable a field's
    children, and extracts the controls' values as key/value pairs. */
module DynamicForm {
  import opened FormModel
  import opened FormState

  /** `{ section, name }`: control `name` is a child of the field `section`. */
  datatype ToggleBinding = ToggleBinding(section: string, name: string)

  /** The component's state after `ngOnInit`. `form` is `None` while no
      form has been built; `falseTogglesWithChildren` keeps only the names,
      since the value recorded beside each name is always `false`. */
  datatype DynamicFormComponent = DynamicFormComponent(
    form: Option<Form>,
    formReady: bool,
    togglesWithChildren: seq<ToggleBinding>,
    falseTogglesWithChildren: seq<string>)

  // ---------------------------------------------------------------------
  // initializeFormControl

  /** The prefill entries whose key is `key`, in order (the `filter` call). */
  function PrefillMatches(prefill: seq<KeyValue>, key: string): (r: seq<KeyValue>)
    ensures forall e :: e in r <==> e in prefill && e.key == key
    ensures |r| > 0 <==> key in Keys(prefill)
    ensures forall i :: IsFirst(Keys(prefill), key, i) ==> |r| > 0 && r[0] == prefill[i]
  {
    if prefill == [] then []
    else
      var rest := PrefillMatches(prefill[1..], key);
      assert Keys(prefill) == [prefill[0].key] + Keys(prefill[1..]);
      assert forall i :: IsFirst(Keys(prefill), key, i) && prefill[0].key != key ==>
        IsFirst(Keys(prefill[1..]), key, i - 1) by {
        forall i | IsFirst(Keys(prefill), key, i) && prefill[0].key != key {
          IsFirstInTail(Keys(prefill), key, i);
        }
      }
      (if prefill[0].key == key then [prefill[0]] else []) + rest
  }

  /** The value a field's control starts with: the defined default, else
      `true` for a slide toggle, and in any case the first prefill entry
      for the field when there is one. */
  function InitialValue(field: Field, prefill: seq<KeyValue>): (v: Value)
    ensures forall i :: IsFirst(Keys(prefill), field.name, i) ==> v == prefill[i].value
    ensures field.name !in Keys(prefill) && field.defaultValue != Undefined ==>
              v == field.defaultValue
    ensures field.name !in Keys(prefill) && field.defaultValue == Undefined ==>
              v == (if field.kind == SlideToggle then Bool(true) else Undefined)
  {
    // a defined default is copied; otherwise the value stays undefined
    var declared := field.defaultValue;
    var toggled := if field.kind == SlideToggle && declared == Undefined then Bool(true) else declared;
    var matches := PrefillMatches(prefill, field.name);
    if |matches| > 0 then matches[0].value else toggled
  }

  /** A slide toggle is recorded for the initial disable pass when its
      DEFAULT is falsy, whatever value prefill or the `true` default gives
      its control. */
  predicate IsFalseToggle(field: Field) {
    field.kind == SlideToggle && !Truthy(field.defaultValue)
  }

  /** The control created for one field. */
  function InitializeFormControl(field: Field, prefill: seq<KeyValue>, readOnly: bool): Control {
    Control(field.name, Leaf(InitialValue(field, prefill), field.disabled || readOnly, field.validation))
  }

  // ---------------------------------------------------------------------
  // initializeForm: the reference description of what it adds and records

  /** The fields in the order their controls are added: every field of the
      fieldset followed by its children. */
  function Layout(fieldset: seq<Field>): seq<Field> {
    if fieldset == [] then [] else [fieldset[0]] + fieldset[0].children + Layout(fieldset[1..])
  }

  /** The names of all controls the fieldset produces are distinct, as the
      form group's keys must be. */
  predicate UniqueNames(fieldset: seq<Field>) {
    Distinct(Names(Layout(fieldset)))
  }

  /** The number of controls a fieldset produces. */
  function Span(fieldset: seq<Field>): nat {
    if fieldset == [] then 0 else 1 + |fieldset[0].children| + Span(fieldset[1..])
  }

  /** The position of `fieldset[i]`'s control in the built form. */
  function Offset(fieldset: seq<Field>, i: nat): nat
    requires i <= |fieldset|
  {
    Span(fieldset[..i])
  }

  /** The controls for a list of fields, in the same order. */
  function InitControls(fields: seq<Field>, prefill: seq<KeyValue>, readOnly: bool): (r: Form)
    ensures |r| == |fields|
    ensures forall k :: 0 <= k < |r| ==> r[k].slot.Leaf?
  {
    if fields == [] then []
    else [InitializeFormControl(fields[0], prefill, readOnly)] + InitControls(fields[1..], prefill, readOnly)
  }

  /** The bindings recorded for one field's children. */
  function ChildBindings(field: Field): (r: seq<ToggleBinding>)
    ensures |r| == |field.children|
    ensures forall j :: 0 <= j < |field.children| ==>
              r[j] == ToggleBinding(field.name, field.children[j].name)
  {
    seq(|field.children|, j requires 0 <= j < |field.children| =>
      ToggleBinding(field.name, field.children[j].name))
  }

  /** All bindings `initializeForm` records: one per child, parent first. */
  function Bindings(fieldset: seq<Field>): (r: seq<ToggleBinding>)
    ensures |r| + |fieldset| == Span(fieldset)
  {
    if fieldset == [] then [] else ChildBindings(fieldset[0]) + Bindings(fieldset[1..])
  }

  /** The names of the fields recorded as false toggles, in order. */
  function FalseToggleNames(fields: seq<Field>): seq<string> {
    if fields == [] then []
    else (if IsFalseToggle(fields[0]) then [fields[0].name] else []) + FalseToggleNames(fields[1..])
  }

  lemma AppendAssoc<T>(a: seq<T>, b: seq<T>, c: seq<T>)
    ensures (a + b) + c == a + (b + c)
  {
  }

  lemma {:induction false} LayoutAppend(a: seq<Field>, b: seq<Field>)
    ensures Layout(a + b) == Layout(a) + Layout(b)
    ensures Bindings(a + b) == Bindings(a) + Bindings(b)
  {
    if a == [] {
      assert a + b == b;
    } else {
      assert (a + b)[0] == a[0];
      assert (a + b)[1..] == a[1..] + b;
      LayoutAppend(a[1..], b);
    }
  }

  lemma {:induction false} FalseToggleNamesAppend(a: seq<Field>, b: seq<Field>)
    ensures FalseToggleNames(a + b) == FalseToggleNames(a) + FalseToggleNames(b)
  {
    if a == [] {
      assert a + b == b;
    } else {
      assert (a + b)[0] == a[0];
      assert (a + b)[1..] == a[1..] + b;
      FalseToggleNamesAppend(a[1..], b);
    }
  }

  lemma {:induction false} InitControlsAppend(a: seq<Field>, b: seq<Field>, prefill: seq<KeyValue>, readOnly: bool)
    ensures InitControls(a + b, prefill, readOnly) == InitControls(a, prefill, readOnly) + InitControls(b, prefill, readOnly)
  {
    if a == [] {
      assert a + b == b;
    } else {
      assert (a + b)[0] == a[0];
      assert (a + b)[1..] == a[1..] + b;
      InitControlsAppend(a[1..], b, prefill, readOnly);
    }
  }

  /** The inner `forEach` of `initializeForm`: each child of `field` gets a
      control, appended after those already present, and a binding to
      `field`; a child that is a false toggle records its name. */
  method AddChildren(field: Field, prefill: seq<KeyValue>, readOnly: bool,
                     form0: Form, bindings0: seq<ToggleBinding>, falseToggles0: seq<string>)
    returns (form: Form, bindings: seq<ToggleBinding>, falseToggles: seq<string>)
    ensures form == form0 + InitControls(field.children, prefill, readOnly)
    ensures bindings == bindings0 + ChildBindings(field)
    ensures falseToggles == falseToggles0 + FalseToggleNames(field.children)
  {
    form, bindings, falseToggles := form0, bindings0, falseToggles0;
    var j := 0;
    while j < |field.children|
      invariant 0 <= j <= |field.children|
      invariant form == form0 + InitControls(field.children[..j], prefill, readOnly)
      invariant bindings == bindings0 + ChildBindings(field)[..j]
      invariant falseToggles == falseToggles0 + FalseToggleNames(field.children[..j])
    {
      var child := field.children[j];
      ExtendChildren(field, j, prefill, readOnly);
      var control := InitializeFormControl(child, prefill, readOnly);
      AppendAssoc(form0, InitControls(field.children[..j], prefill, readOnly), [control]);
      form := form + [control];
      var binding := ToggleBinding(field.name, child.name);
      AppendAssoc(bindings0, ChildBindings(field)[..j], [binding]);
      bindings := bindings + [binding];
      var recorded := if IsFalseToggle(child) then [child.name] else [];
      AppendAssoc(falseToggles0, FalseToggleNames(field.children[..j]), recorded);
      falseToggles := falseToggles + recorded;
      j := j + 1;
    }
    assert field.children[..j] == field.children;
    assert ChildBindings(field)[..j] == ChildBindings(field);
  }

  /** How the reference description of a field's children grows by one child. */
  lemma ExtendChildren(field: Field, j: nat, prefill: seq<KeyValue>, readOnly: bool)
    requires j < |field.children|
    ensures InitControls(field.children[..j + 1], prefill, readOnly)
         == InitControls(field.children[..j], prefill, readOnly)
          + [InitializeFormControl(field.children[j], prefill, readOnly)]
    ensures ChildBindings(field)[..j + 1]
         == ChildBindings(field)[..j] + [ToggleBinding(field.name, field.children[j].name)]
    ensures FalseToggleNames(field.children[..j + 1])
         == FalseToggleNames(field.children[..j])
          + (if IsFalseToggle(field.children[j]) then [field.children[j].name] else [])
  {
    var child := field.children[j];
    assert field.children[..j + 1] == field.children[..j] + [child];
    assert [child][1..] == [];
    assert InitControls(field.children[..j + 1], prefill, readOnly)
        == InitControls(field.children[..j], prefill, readOnly) + [InitializeFormControl(child, prefill, readOnly)] by {
      InitControlsAppend(field.children[..j], [child], prefill, readOnly);
    }
    assert FalseToggleNames(field.children[..j + 1])
        == FalseToggleNames(field.children[..j]) + (if IsFalseToggle(child) then [child.name] else []) by {
      FalseToggleNamesAppend(field.children[..j], [child]);
    }
    assert ChildBindings(field)[..j + 1] == ChildBindings(field)[..j] + [ToggleBinding(field.name, child.name)] by {
      assert ChildBindings(field)[j] == ToggleBinding(field.name, child.name);
    }
  }

  /** The outer `forEach` of `initializeForm`: each field's control is
      added, then its children's; every control created for a false toggle
      records the toggle's name. The result is exactly the reference
      description above. */
  method AddControls(fieldset: seq<Field>, prefill: seq<KeyValue>, readOnly: bool)
    returns (form: Form, bindings: seq<ToggleBinding>, falseToggles: seq<string>)
    ensures form == InitControls(Layout(fieldset), prefill, readOnly)
    ensures bindings == Bindings(fieldset)
    ensures falseToggles == FalseToggleNames(Layout(fieldset))
  {
    form, bindings, falseToggles := [], [], [];
    var i := 0;
    while i < |fieldset|
      invariant 0 <= i <= |fieldset|
      invariant form == InitControls(Layout(fieldset[..i]), prefill, readOnly)
      invariant bindings == Bindings(fieldset[..i])
      invariant falseToggles == FalseToggleNames(Layout(fieldset[..i]))
    {
      var field := fieldset[i];
      var recorded := if IsFalseToggle(field) then [field.name] else [];
      ExtendLayout(fieldset, i, prefill, readOnly);
      form, bindings, falseToggles :=
        AddChildren(field, prefill, readOnly,
                    form + [InitializeFormControl(field, prefill, readOnly)], bindings, falseToggles + recorded);
      i := i + 1;
    }
    assert fieldset[..i] == fieldset;
  }

  /** How the reference description grows by one field. */
  lemma ExtendLayout(fieldset: seq<Field>, i: nat, prefill: seq<KeyValue>, readOnly: bool)
    requires i < |fieldset|
    ensures Layout(fieldset[..i + 1]) == Layout(fieldset[..i]) + [fieldset[i]] + fieldset[i].children
    ensures InitControls(Layout(fieldset[..i + 1]), prefill, readOnly)
         == InitControls(Layout(fieldset[..i]), prefill, readOnly)
          + [InitializeFormControl(fieldset[i], prefill, readOnly)]
          + InitControls(fieldset[i].children, prefill, readOnly)
    ensures Bindings(fieldset[..i + 1]) == Bindings(fieldset[..i]) + ChildBindings(fieldset[i])
    ensures FalseToggleNames(Layout(fieldset[..i + 1]))
         == FalseToggleNames(Layout(fieldset[..i]))
          + (if IsFalseToggle(fieldset[i]) then [fieldset[i].name] else [])
          + FalseToggleNames(fieldset[i].children)
  {
    var field := fieldset[i];
    var before := fieldset[..i];
    var added := [field] + field.children;
    assert fieldset[..i + 1] == before + [field];
    assert [field][1..] == [];
    assert Layout(fieldset[..i + 1]) == Layout(before) + added by {
      LayoutAppend(before, [field]);
      assert Layout([field]) == added;
    }
    assert Layout(before) + added == Layout(before) + [field] + field.children by {
      AppendAssoc(Layout(before), [field], field.children);
    }
    assert Bindings(fieldset[..i + 1]) == Bindings(before) + ChildBindings(field) by {
      LayoutAppend(before, [field]);
      assert Bindings([field]) == ChildBindings(field);
    }
    assert InitControls(Layout(before) + added, prefill, readOnly)
        == InitControls(Layout(before), prefill, readOnly)
         + [InitializeFormControl(field, prefill, readOnly)]
         + InitControls(field.children, prefill, readOnly) by {
      InitControlsAppend(Layout(before), added, prefill, readOnly);
      InitControlsAppend([field], field.children, prefill, readOnly);
      assert InitControls([field], prefill, readOnly) == [InitializeFormControl(field, prefill, readOnly)];
      AppendAssoc(InitControls(Layout(before), prefill, readOnly),
                  [InitializeFormControl(field, prefill, readOnly)],
                  InitControls(field.children, prefill, readOnly));
    }
    assert FalseToggleNames(Layout(before) + added)
        == FalseToggleNames(Layout(before))
         + (if IsFalseToggle(field) then [field.name] else [])
         + FalseToggleNames(field.children) by {
      FalseToggleNamesAppend(Layout(before), added);
      FalseToggleNamesAppend([field], field.children);
      assert FalseToggleNames([field]) == (if IsFalseToggle(field) then [field.name] else []);
      AppendAssoc(FalseToggleNames(Layout(before)),
                  (if IsFalseToggle(field) then [field.name] else []),
                  FalseToggleNames(field.children));
    }
  }

  // ---------------------------------------------------------------------
  // toggleChildren

  /** The first field of the fieldset called `name` (the `find` call). */
  function FindField(fieldset: seq<Field>, name: string): (r: Option<Field>)
    ensures r.None? <==> name !in Names(fieldset)
    ensures forall i :: IsFirst(Names(fieldset), name, i) ==> r == Some(fieldset[i])
  {
    if fieldset == [] then None
    else if fieldset[0].name == name then
      assert forall i :: IsFirst(Names(fieldset), name, i) ==> i == 0 by {
        forall i | IsFirst(Names(fieldset), name, i) {
          IsFirstAtHead(Names(fieldset), name, i);
        }
      }
      Some(fieldset[0])
    else
      assert Names(fieldset) == [fieldset[0].name] + Names(fieldset[1..]);
      assert forall i :: IsFirst(Names(fieldset), name, i) ==>
        IsFirst(Names(fieldset[1..]), name, i - 1) by {
        forall i | IsFirst(Names(fieldset), name, i) {
          IsFirstInTail(Names(fieldset), name, i);
        }
      }
      FindField(fieldset[1..], name)
  }

  /** Control `c` is one of the children of the field `toggleChildren`
      looks up under `name`. */
  predicate IsChildOf(fieldset: seq<Field>, name: string, c: string) {
    var found := FindField(fieldset, name);
    found.Some? && c in Names(found.value.children)
  }

  /** The `forEach` over a field's children: each child's control is
      enabled (d = false) or disabled (d = true) in turn. */
  function ToggleEach(form: Form, children: seq<Field>, d: bool): (r: Form)
    ensures |r| == |form|
    ensures forall k :: 0 <= k < |form| && form[k].name in Names(children) ==>
              r[k] == Control(form[k].name, SetDisabled(form[k].slot, d))
    ensures forall k :: 0 <= k < |form| && form[k].name !in Names(children) ==> r[k] == form[k]
    decreases |children|
  {
    if children == [] then form
    else
      var next := SetControl(form, children[0].name, d);
      var r := ToggleEach(next, children[1..], d);
      assert Names(children) == [children[0].name] + Names(children[1..]);
      assert forall k :: 0 <= k < |form| && form[k].name in Names(children) ==>
        r[k] == Control(form[k].name, SetDisabled(form[k].slot, d)) by {
        forall k | 0 <= k < |form| && form[k].name in Names(children) {
          SetDisabledLastWins(form[k].slot, d, d);
        }
      }
      r
  }

  /** `toggleChildren(name, toggleValue)`: every child control of the first
      field called `name` is enabled when `toggleValue` is truthy and
      disabled otherwise; values and all other controls are untouched. */
  function ToggleChildren(fieldset: seq<Field>, form: Form, name: string, toggleValue: Value): (r: Form)
    ensures |r| == |form|
    ensures forall k :: 0 <= k < |form| && IsChildOf(fieldset, name, form[k].name) ==>
              r[k] == Control(form[k].name, SetDisabled(form[k].slot, !Truthy(toggleValue)))
    ensures forall k :: 0 <= k < |form| && !IsChildOf(fieldset, name, form[k].name) ==>
              r[k] == form[k]
    ensures name !in Names(fieldset) ==> r == form
  {
    match FindField(fieldset, name)
    case None => form
    case Some(field) => ToggleEach(form, field.children, !Truthy(toggleValue))
  }

  // ---------------------------------------------------------------------
  // handleSlideToggleChildren (initial pass) and ngOnInit

  /** Control `c` is a child of a field some recorded toggle names. */
  predicate DisabledByToggles(fieldset: seq<Field>, toggles: seq<string>, c: string) {
    exists t :: t in toggles && IsChildOf(fieldset, t, c)
  }

  /** `toggleChildren(name, false)` for every recorded false toggle. */
  function HandleSlideToggleChildren(fieldset: seq<Field>, form: Form, toggles: seq<string>): (r: Form)
    ensures |r| == |form|
    decreases |toggles|
  {
    if toggles == [] then form
    else HandleSlideToggleChildren(fieldset, ToggleChildren(fieldset, form, toggles[0], Bool(false)), toggles[1..])
  }

  /** After the initial pass, a control is disabled (with everything below
      it) exactly when one of the recorded toggles names a field it is a
      child of; every other control is untouched. */
  lemma {:induction false} InitialPassAt(fieldset: seq<Field>, form: Form, toggles: seq<string>, k: nat)
    requires k < |form|
    ensures HandleSlideToggleChildren(fieldset, form, toggles)[k]
         == if DisabledByToggles(fieldset, toggles, form[k].name)
            then Control(form[k].name, SetDisabled(form[k].slot, true))
            else form[k]
    decreases |toggles|
  {
    if toggles != [] {
      var next := ToggleChildren(fieldset, form, toggles[0], Bool(false));
      InitialPassAt(fieldset, next, toggles[1..], k);
      assert forall t :: t in toggles <==> t == toggles[0] || t in toggles[1..];
      SetDisabledLastWins(form[k].slot, true, true);
    }
  }

  /** `initializeForm`: add the controls, record the bindings and false
      toggles, run the initial disable pass, then mark the form ready. */
  function InitializeForm(fieldset: seq<Field>, prefill: seq<KeyValue>, readOnly: bool): (st: DynamicFormComponent)
    ensures st.form.Some? && st.formReady
    ensures |st.form.value| == |Layout(fieldset)|
  {
    var fields := Layout(fieldset);
    var toggles := FalseToggleNames(fields);
    var form := HandleSlideToggleChildren(fieldset, InitControls(fields, prefill, readOnly), toggles);
    DynamicFormComponent(Some(form), true, Bindings(fieldset), toggles)
  }

  /** `ngOnInit`: without a fieldset nothing is built and the form never
      becomes ready. An absent `prefillData` is the empty list. */
  function NgOnInit(fieldset: Option<seq<Field>>, prefill: seq<KeyValue>, readOnly: bool): (st: DynamicFormComponent)
    ensures st.formReady <==> fieldset.Some?
    ensures st.form.Some? <==> st.formReady
  {
    match fieldset
    case None => DynamicFormComponent(None, false, [], [])
    case Some(fs) => InitializeForm(fs, prefill, readOnly)
  }

  // ---------------------------------------------------------------------
  // extractFormValues

  /** One control as a key/value pair: a leaf gives its value, a group the
      pairs of its own controls. */
  function ExtractControl(c: Control): (kv: KeyValue)
    ensures kv.key == c.name
    ensures c.slot.Leaf? ==> kv.value == c.slot.value
    ensures c.slot.Group? ==> kv.value == Pairs(ExtractFormValues(c.slot.controls))
    decreases c
  {
    match c.slot
    case Leaf(v, _, _) => KeyValue(c.name, v)
    case Group(cs) => KeyValue(c.name, Pairs(ExtractFormValues(cs)))
  }

  /** `extractFormValues`: one pair per control, in insertion order;
      disabled controls are included. */
  function ExtractFormValues(form: Form): (r: seq<KeyValue>)
    ensures |r| == |form|
    ensures Keys(r) == ControlNames(form)
    ensures forall k :: 0 <= k < |form| && form[k].slot.Leaf? ==> r[k].value == form[k].slot.value
    ensures forall k :: 0 <= k < |form| && form[k].slot.Group? ==>
              r[k].value == Pairs(ExtractFormValues(form[k].slot.controls))
    decreases form
  {
    if form == [] then [] else [ExtractControl(form[0])] + ExtractFormValues(form[1..])
  }
}
