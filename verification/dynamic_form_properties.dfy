/** Properties of the form-model builder: where each field's control is
    placed, what every control holds once the form is ready, how prefill
    values reach the extracted result and how toggling a field's children
    behaves. */
module DynamicFormProperties {
  import opened FormModel
  import opened FormState
  import opened DynamicForm

  // ---------------------------------------------------------------------
  // Layout of the built form

  lemma {:induction false} SpanAppend(a: seq<Field>, b: seq<Field>)
    ensures Span(a + b) == Span(a) + Span(b)
  {
    if a == [] {
      assert a + b == b;
    } else {
      assert (a + b)[0] == a[0];
      assert (a + b)[1..] == a[1..] + b;
      SpanAppend(a[1..], b);
    }
  }

  lemma OffsetNext(fieldset: seq<Field>, i: nat)
    requires i < |fieldset|
    ensures Offset(fieldset, i + 1) == Offset(fieldset, i) + 1 + |fieldset[i].children|
  {
    assert fieldset[..i + 1] == fieldset[..i] + [fieldset[i]];
    SpanAppend(fieldset[..i], [fieldset[i]]);
    assert [fieldset[i]][1..] == [];
  }

  lemma OffsetTail(fieldset: seq<Field>, i: nat)
    requires 1 <= i <= |fieldset|
    ensures Offset(fieldset, i) == 1 + |fieldset[0].children| + Offset(fieldset[1..], i - 1)
  {
    assert fieldset[..i][0] == fieldset[0];
    assert fieldset[..i][1..] == fieldset[1..][..i - 1];
  }

  lemma {:induction false} LayoutLength(fieldset: seq<Field>)
    ensures |Layout(fieldset)| == Span(fieldset)
  {
    if fieldset != [] {
      LayoutLength(fieldset[1..]);
    }
  }

  lemma {:induction false} LayoutFieldAt(fieldset: seq<Field>, i: nat)
    requires i < |fieldset|
    ensures Offset(fieldset, i) + 1 + |fieldset[i].children| <= |Layout(fieldset)|
    ensures Layout(fieldset)[Offset(fieldset, i)] == fieldset[i]
  {
    var rest := fieldset[1..];
    var head := [fieldset[0]] + fieldset[0].children;
    assert Layout(fieldset) == head + Layout(rest);
    if i == 0 {
      assert fieldset[..0] == [];
      LayoutLength(rest);
    } else {
      OffsetTail(fieldset, i);
      assert rest[i - 1] == fieldset[i];
      LayoutFieldAt(rest, i - 1);
    }
  }

  lemma {:induction false} LayoutChildAt(fieldset: seq<Field>, i: nat, j: nat)
    requires i < |fieldset| && j < |fieldset[i].children|
    ensures Offset(fieldset, i) + 1 + j < |Layout(fieldset)|
    ensures Layout(fieldset)[Offset(fieldset, i) + 1 + j] == fieldset[i].children[j]
  {
    var rest := fieldset[1..];
    var head := [fieldset[0]] + fieldset[0].children;
    assert Layout(fieldset) == head + Layout(rest);
    LayoutFieldAt(fieldset, i);
    if i == 0 {
      assert fieldset[..0] == [];
      assert head[1 + j] == fieldset[0].children[j];
    } else {
      OffsetTail(fieldset, i);
      assert rest[i - 1] == fieldset[i];
      LayoutChildAt(rest, i - 1, j);
    }
  }

  /** Each field's control sits at its offset, its children's controls
      right after it in order, and nothing else is added. */
  lemma LayoutPlacement(fieldset: seq<Field>)
    ensures |Layout(fieldset)| == Span(fieldset)
    ensures forall i :: 0 <= i < |fieldset| ==>
              Offset(fieldset, i) + 1 + |fieldset[i].children| <= |Layout(fieldset)| &&
              Layout(fieldset)[Offset(fieldset, i)] == fieldset[i]
    ensures forall i, j :: 0 <= i < |fieldset| && 0 <= j < |fieldset[i].children| ==>
              Layout(fieldset)[Offset(fieldset, i) + 1 + j] == fieldset[i].children[j]
  {
    LayoutLength(fieldset);
    forall i | 0 <= i < |fieldset|
      ensures Offset(fieldset, i) + 1 + |fieldset[i].children| <= |Layout(fieldset)| &&
              Layout(fieldset)[Offset(fieldset, i)] == fieldset[i]
    {
      LayoutFieldAt(fieldset, i);
    }
    forall i, j | 0 <= i < |fieldset| && 0 <= j < |fieldset[i].children|
      ensures Layout(fieldset)[Offset(fieldset, i) + 1 + j] == fieldset[i].children[j]
    {
      LayoutChildAt(fieldset, i, j);
    }
  }

  /** A fieldset without children yields one control per field, in
      fieldset order. */
  lemma {:induction false} LayoutWithoutChildren(fieldset: seq<Field>)
    requires forall i :: 0 <= i < |fieldset| ==> fieldset[i].children == []
    ensures Layout(fieldset) == fieldset
  {
    if fieldset != [] {
      LayoutWithoutChildren(fieldset[1..]);
      assert fieldset == [fieldset[0]] + fieldset[1..];
    }
  }

  lemma {:induction false} OffsetIncreasing(fieldset: seq<Field>, i: nat, i': nat)
    requires i < i' <= |fieldset|
    ensures Offset(fieldset, i) < Offset(fieldset, i')
    decreases i' - i
  {
    OffsetNext(fieldset, i);
    if i + 1 < i' {
      OffsetIncreasing(fieldset, i + 1, i');
    }
  }

  /** With unique names, `find` by a field's own name returns that field. */
  lemma FindOwnField(fieldset: seq<Field>, i: nat)
    requires UniqueNames(fieldset)
    requires i < |fieldset|
    ensures FindField(fieldset, fieldset[i].name) == Some(fieldset[i])
  {
    var name := fieldset[i].name;
    var names := Names(Layout(fieldset));
    LayoutPlacement(fieldset);
    forall i' | 0 <= i' < i
      ensures Names(fieldset)[..i][i'] != name
    {
      OffsetIncreasing(fieldset, i', i);
      assert names[Offset(fieldset, i')] == fieldset[i'].name;
      assert names[Offset(fieldset, i)] == name;
    }
    assert IsFirst(Names(fieldset), name, i);
  }

  /** Everything produced for field `i` comes before field `i'`'s control. */
  lemma OffsetAfter(fieldset: seq<Field>, i: nat, i': nat)
    requires i < i' <= |fieldset|
    ensures Offset(fieldset, i) + 1 + |fieldset[i].children| <= Offset(fieldset, i')
  {
    OffsetNext(fieldset, i);
    if i + 1 < i' {
      OffsetIncreasing(fieldset, i + 1, i');
    }
  }

  /** With unique names, no top-level field shares its name with a child. */
  lemma TopLevelNotChild(fieldset: seq<Field>, i: nat, i': nat, j': nat)
    requires UniqueNames(fieldset)
    requires i < |fieldset| && i' < |fieldset| && j' < |fieldset[i'].children|
    ensures fieldset[i].name != fieldset[i'].children[j'].name
  {
    var names := Names(Layout(fieldset));
    var p := Offset(fieldset, i);
    var q := Offset(fieldset, i') + 1 + j';
    LayoutFieldAt(fieldset, i);
    LayoutChildAt(fieldset, i', j');
    if i <= i' {
      if i < i' {
        OffsetAfter(fieldset, i, i');
      }
      assert p < q;
    } else {
      OffsetAfter(fieldset, i', i);
      assert q < p;
    }
    assert names[p] == fieldset[i].name && names[q] == fieldset[i'].children[j'].name;
  }

  /** With unique names, two different children have different names, also
      across parents. */
  lemma ChildNamesDistinct(fieldset: seq<Field>, i: nat, j: nat, i': nat, j': nat)
    requires UniqueNames(fieldset)
    requires i < |fieldset| && j < |fieldset[i].children|
    requires i' < |fieldset| && j' < |fieldset[i'].children|
    ensures i != i' || j != j' ==> fieldset[i].children[j].name != fieldset[i'].children[j'].name
  {
    if i != i' || j != j' {
      var names := Names(Layout(fieldset));
      var p := Offset(fieldset, i) + 1 + j;
      var q := Offset(fieldset, i') + 1 + j';
      LayoutChildAt(fieldset, i, j);
      LayoutChildAt(fieldset, i', j');
      if i < i' {
        OffsetAfter(fieldset, i, i');
        assert p < q;
      } else if i' < i {
        OffsetAfter(fieldset, i', i);
        assert q < p;
      } else {
        assert p != q;
      }
      assert names[p] == fieldset[i].children[j].name && names[q] == fieldset[i'].children[j'].name;
    }
  }

  // ---------------------------------------------------------------------
  // What initializeForm records

  /** Exactly the false toggles among the given fields are recorded. */
  lemma {:induction false} FalseToggleNamesSpec(fields: seq<Field>)
    ensures forall t :: t in FalseToggleNames(fields) <==>
              exists k :: 0 <= k < |fields| && fields[k].name == t && IsFalseToggle(fields[k])
  {
    if fields != [] {
      FalseToggleNamesSpec(fields[1..]);
      assert forall k :: 0 < k < |fields| ==> fields[1..][k - 1] == fields[k];
    }
  }

  /** Every recorded binding names a child and its parent. */
  lemma {:induction false} BindingsSound(fieldset: seq<Field>, b: ToggleBinding)
    requires b in Bindings(fieldset)
    ensures exists i, j :: 0 <= i < |fieldset| && 0 <= j < |fieldset[i].children| &&
                           b == ToggleBinding(fieldset[i].name, fieldset[i].children[j].name)
  {
    var rest := fieldset[1..];
    if b in ChildBindings(fieldset[0]) {
      var j :| 0 <= j < |fieldset[0].children| && ChildBindings(fieldset[0])[j] == b;
    } else {
      BindingsSound(rest, b);
      var i, j :| 0 <= i < |rest| && 0 <= j < |rest[i].children| &&
                  b == ToggleBinding(rest[i].name, rest[i].children[j].name);
      assert rest[i] == fieldset[i + 1];
    }
  }

  /** Every child's binding to its parent is recorded. */
  lemma {:induction false} BindingsComplete(fieldset: seq<Field>, i: nat, j: nat)
    requires i < |fieldset| && j < |fieldset[i].children|
    ensures ToggleBinding(fieldset[i].name, fieldset[i].children[j].name) in Bindings(fieldset)
  {
    if i == 0 {
      assert ChildBindings(fieldset[0])[j] == ToggleBinding(fieldset[0].name, fieldset[0].children[j].name);
    } else {
      assert fieldset[1..][i - 1] == fieldset[i];
      BindingsComplete(fieldset[1..], i - 1, j);
    }
  }

  lemma {:induction false} InitControlsAt(fields: seq<Field>, prefill: seq<KeyValue>, readOnly: bool, k: nat)
    requires k < |fields|
    ensures InitControls(fields, prefill, readOnly)[k] == InitializeFormControl(fields[k], prefill, readOnly)
  {
    if k > 0 {
      InitControlsAt(fields[1..], prefill, readOnly, k - 1);
    }
  }

  // ---------------------------------------------------------------------
  // The form once it is ready

  /** Control `c` is a child of a top-level slide toggle whose default is
      falsy. */
  predicate ChildOfFalseToggle(fieldset: seq<Field>, c: string) {
    exists i :: 0 <= i < |fieldset| && IsFalseToggle(fieldset[i]) && c in Names(fieldset[i].children)
  }

  /** A control the initial pass disables is a child of a top-level false
      toggle: a recorded toggle that is itself a child is looked up among
      the top-level fields, is not found there, and changes nothing. */
  lemma InitialPassSound(fieldset: seq<Field>, c: string)
    requires UniqueNames(fieldset)
    requires DisabledByToggles(fieldset, FalseToggleNames(Layout(fieldset)), c)
    ensures ChildOfFalseToggle(fieldset, c)
  {
    var fields := Layout(fieldset);
    var t :| t in FalseToggleNames(fields) && IsChildOf(fieldset, t, c);
    // the toggle is found among the top-level fields ...
    assert t in Names(fieldset);
    var i :| 0 <= i < |fieldset| && Names(fieldset)[i] == t;
    assert c in Names(fieldset[i].children) by {
      FindOwnField(fieldset, i);
    }
    // ... and, names being unique, the recorded field is that very field
    assert exists m :: 0 <= m < |fields| && fields[m].name == t && IsFalseToggle(fields[m]) by {
      FalseToggleNamesSpec(fields);
    }
    var m :| 0 <= m < |fields| && fields[m].name == t && IsFalseToggle(fields[m]);
    assert fields[m] == fieldset[i] by {
      LayoutPlacement(fieldset);
      assert Names(fields)[m] == Names(fields)[Offset(fieldset, i)];
    }
  }

  /** Every child of a top-level false toggle is disabled by the initial
      pass. */
  lemma InitialPassComplete(fieldset: seq<Field>, c: string)
    requires UniqueNames(fieldset)
    requires ChildOfFalseToggle(fieldset, c)
    ensures DisabledByToggles(fieldset, FalseToggleNames(Layout(fieldset)), c)
  {
    var fields := Layout(fieldset);
    var i :| 0 <= i < |fieldset| && IsFalseToggle(fieldset[i]) && c in Names(fieldset[i].children);
    FindOwnField(fieldset, i);
    LayoutPlacement(fieldset);
    FalseToggleNamesSpec(fields);
    assert fields[Offset(fieldset, i)] == fieldset[i];
    assert fieldset[i].name in FalseToggleNames(fields);
  }

  /** The initial pass disables exactly the children of the top-level false
      toggles. */
  lemma InitialPassDisables(fieldset: seq<Field>, c: string)
    requires UniqueNames(fieldset)
    ensures DisabledByToggles(fieldset, FalseToggleNames(Layout(fieldset)), c) <==> ChildOfFalseToggle(fieldset, c)
  {
    if DisabledByToggles(fieldset, FalseToggleNames(Layout(fieldset)), c) {
      InitialPassSound(fieldset, c);
    }
    if ChildOfFalseToggle(fieldset, c) {
      InitialPassComplete(fieldset, c);
    }
  }

  /** The control at position `k` once `initializeForm` has run: a leaf
      for the `k`-th field of the layout, holding the resolved value and
      disabled exactly when the field is disabled, the form is read-only,
      or it is a child of a false toggle. */
  lemma InitialControl(fieldset: seq<Field>, prefill: seq<KeyValue>, readOnly: bool, k: nat)
    requires UniqueNames(fieldset)
    requires k < |Layout(fieldset)|
    ensures var form := InitializeForm(fieldset, prefill, readOnly).form.value;
      var field := Layout(fieldset)[k];
      && |form| == |Layout(fieldset)|
      && form[k] == Control(field.name,
           Leaf(InitialValue(field, prefill),
                field.disabled || readOnly || ChildOfFalseToggle(fieldset, field.name),
                field.validation))
  {
    LayoutPlacement(fieldset);
    var built := InitControls(Layout(fieldset), prefill, readOnly);
    InitControlsAt(Layout(fieldset), prefill, readOnly, k);
    InitialPassAt(fieldset, built, FalseToggleNames(Layout(fieldset)), k);
    InitialPassDisables(fieldset, Layout(fieldset)[k].name);
  }

  /** Once `initializeForm` has run, the form is ready and holds one leaf
      control per field, children after their parent, each as described
      by `InitialControl`. */
  lemma InitialForm(fieldset: seq<Field>, prefill: seq<KeyValue>, readOnly: bool)
    requires UniqueNames(fieldset)
    ensures var st := InitializeForm(fieldset, prefill, readOnly);
      var fields := Layout(fieldset);
      && st.formReady
      && st.form.Some?
      && |st.form.value| == |fields| == Span(fieldset)
      && forall k :: 0 <= k < |fields| ==>
           st.form.value[k] == Control(fields[k].name,
             Leaf(InitialValue(fields[k], prefill),
                  fields[k].disabled || readOnly || ChildOfFalseToggle(fieldset, fields[k].name),
                  fields[k].validation))
  {
    LayoutPlacement(fieldset);
    forall k | 0 <= k < |Layout(fieldset)| {
      InitialControl(fieldset, prefill, readOnly, k);
    }
  }

  /** `readOnly = true` leaves every control disabled. */
  lemma ReadOnlyDisablesEveryControl(fieldset: seq<Field>, prefill: seq<KeyValue>)
    requires UniqueNames(fieldset)
    ensures var form := InitializeForm(fieldset, prefill, true).form.value;
      forall k :: 0 <= k < |form| ==> form[k].slot.Leaf? && form[k].slot.disabled
  {
    InitialForm(fieldset, prefill, true);
  }

  /** With unique names, a top-level field is never a child of a false
      toggle. */
  lemma TopLevelNotChildOfFalseToggle(fieldset: seq<Field>, i: nat)
    requires UniqueNames(fieldset)
    requires i < |fieldset|
    ensures !ChildOfFalseToggle(fieldset, fieldset[i].name)
  {
    forall i', j' | 0 <= i' < |fieldset| && 0 <= j' < |fieldset[i'].children|
      ensures Names(fieldset[i'].children)[j'] != fieldset[i].name
    {
      TopLevelNotChild(fieldset, i, i', j');
    }
  }

  /** With unique names, a child is the child of a false toggle exactly when
      its own parent is a false toggle. */
  lemma ChildOfFalseToggleIff(fieldset: seq<Field>, i: nat, j: nat)
    requires UniqueNames(fieldset)
    requires i < |fieldset| && j < |fieldset[i].children|
    ensures ChildOfFalseToggle(fieldset, fieldset[i].children[j].name) <==> IsFalseToggle(fieldset[i])
  {
    var c := fieldset[i].children[j].name;
    assert Names(fieldset[i].children)[j] == c;
    forall i', j' | 0 <= i' < |fieldset| && i' != i && 0 <= j' < |fieldset[i'].children|
      ensures Names(fieldset[i'].children)[j'] != c
    {
      ChildNamesDistinct(fieldset, i, j, i', j');
    }
  }

  /** Without `readOnly`, a top-level field's control starts disabled exactly
      when the field says so. */
  lemma EnabledUnlessDisabled(fieldset: seq<Field>, prefill: seq<KeyValue>, i: nat)
    requires UniqueNames(fieldset)
    requires i < |fieldset|
    ensures var form := InitializeForm(fieldset, prefill, false).form.value;
      Offset(fieldset, i) < |form| && form[Offset(fieldset, i)].slot.Leaf? &&
      (form[Offset(fieldset, i)].slot.disabled <==> fieldset[i].disabled)
  {
    LayoutPlacement(fieldset);
    InitialControl(fieldset, prefill, false, Offset(fieldset, i));
    TopLevelNotChildOfFalseToggle(fieldset, i);
  }

  /** Without `readOnly`, a child's control starts disabled exactly when the
      child says so or its parent is a slide toggle whose default is falsy. */
  lemma ChildEnabledUnlessDisabled(fieldset: seq<Field>, prefill: seq<KeyValue>, i: nat, j: nat)
    requires UniqueNames(fieldset)
    requires i < |fieldset| && j < |fieldset[i].children|
    ensures var form := InitializeForm(fieldset, prefill, false).form.value;
      var k := Offset(fieldset, i) + 1 + j;
      k < |form| && form[k].name == fieldset[i].children[j].name && form[k].slot.Leaf? &&
      (form[k].slot.disabled <==> fieldset[i].children[j].disabled || IsFalseToggle(fieldset[i]))
  {
    var k := Offset(fieldset, i) + 1 + j;
    var child := fieldset[i].children[j];
    assert k < |Layout(fieldset)| && Layout(fieldset)[k] == child by {
      LayoutChildAt(fieldset, i, j);
    }
    assert ChildOfFalseToggle(fieldset, child.name) <==> IsFalseToggle(fieldset[i]) by {
      ChildOfFalseToggleIff(fieldset, i, j);
    }
    var form := InitializeForm(fieldset, prefill, false).form.value;
    assert k < |form| && form[k].name == child.name && form[k].slot.Leaf? &&
           (form[k].slot.disabled <==> child.disabled || ChildOfFalseToggle(fieldset, child.name)) by {
      InitialControl(fieldset, prefill, false, k);
    }
  }

  /** The children of a slide toggle whose default is falsy start disabled,
      even when prefill sets the toggle itself to a truthy value. */
  lemma FalseToggleChildrenStartDisabled(fieldset: seq<Field>, prefill: seq<KeyValue>, readOnly: bool, i: nat, j: nat)
    requires UniqueNames(fieldset)
    requires i < |fieldset| && IsFalseToggle(fieldset[i])
    requires j < |fieldset[i].children|
    ensures var form := InitializeForm(fieldset, prefill, readOnly).form.value;
      Offset(fieldset, i) + 1 + j < |form| &&
      form[Offset(fieldset, i) + 1 + j].name == fieldset[i].children[j].name &&
      form[Offset(fieldset, i) + 1 + j].slot.Leaf? &&
      form[Offset(fieldset, i) + 1 + j].slot.disabled
  {
    var k := Offset(fieldset, i) + 1 + j;
    var child := fieldset[i].children[j];
    assert k < |Layout(fieldset)| && Layout(fieldset)[k] == child by {
      LayoutPlacement(fieldset);
    }
    assert ChildOfFalseToggle(fieldset, child.name) by {
      assert Names(fieldset[i].children)[j] == child.name;
    }
    var form := InitializeForm(fieldset, prefill, readOnly).form.value;
    assert k < |form| && form[k].name == child.name && form[k].slot.Leaf? &&
           (form[k].slot.disabled <==> child.disabled || readOnly || ChildOfFalseToggle(fieldset, child.name)) by {
      InitialControl(fieldset, prefill, readOnly, k);
    }
  }

  /** What `initializeForm` records: a binding per child and the names of
      all false toggles, top-level or child, independently of prefill. */
  lemma InitialRecords(fieldset: seq<Field>, prefill: seq<KeyValue>, readOnly: bool)
    ensures var st := InitializeForm(fieldset, prefill, readOnly);
      && |st.togglesWithChildren| + |fieldset| == Span(fieldset)
      && (forall b :: b in st.togglesWithChildren <==>
            exists i, j :: 0 <= i < |fieldset| && 0 <= j < |fieldset[i].children| &&
                           b == ToggleBinding(fieldset[i].name, fieldset[i].children[j].name))
      && (forall t :: t in st.falseTogglesWithChildren <==>
            exists k :: 0 <= k < |Layout(fieldset)| && Layout(fieldset)[k].name == t &&
                        IsFalseToggle(Layout(fieldset)[k]))
  {
    var st := InitializeForm(fieldset, prefill, readOnly);
    assert st.togglesWithChildren == Bindings(fieldset);
    assert st.falseTogglesWithChildren == FalseToggleNames(Layout(fieldset));
    assert forall b :: b in Bindings(fieldset) <==>
             exists i, j :: 0 <= i < |fieldset| && 0 <= j < |fieldset[i].children| &&
                            b == ToggleBinding(fieldset[i].name, fieldset[i].children[j].name) by {
      forall b | b in Bindings(fieldset)
        ensures exists i, j :: 0 <= i < |fieldset| && 0 <= j < |fieldset[i].children| &&
                               b == ToggleBinding(fieldset[i].name, fieldset[i].children[j].name)
      {
        BindingsSound(fieldset, b);
      }
      forall i, j | 0 <= i < |fieldset| && 0 <= j < |fieldset[i].children|
        ensures ToggleBinding(fieldset[i].name, fieldset[i].children[j].name) in Bindings(fieldset)
      {
        BindingsComplete(fieldset, i, j);
      }
    }
    assert forall t :: t in FalseToggleNames(Layout(fieldset)) <==>
             exists k :: 0 <= k < |Layout(fieldset)| && Layout(fieldset)[k].name == t &&
                         IsFalseToggle(Layout(fieldset)[k]) by {
      FalseToggleNamesSpec(Layout(fieldset));
    }
  }

  /** An empty fieldset is present, unlike an absent one: an empty form is
      built and the component becomes ready. */
  lemma EmptyFieldsetIsReady(prefill: seq<KeyValue>, readOnly: bool)
    ensures NgOnInit(Some([]), prefill, readOnly) == DynamicFormComponent(Some([]), true, [], [])
  {
  }

  // ---------------------------------------------------------------------
  // Initial value resolution

  /** A toggle without a default is recorded as a false toggle although its
      control starts as `true` when no prefill entry names it. */
  lemma UndefinedToggleQuirk(field: Field, prefill: seq<KeyValue>)
    requires field.kind == SlideToggle && field.defaultValue == Undefined
    requires field.name !in Keys(prefill)
    ensures IsFalseToggle(field)
    ensures InitialValue(field, prefill) == Bool(true)
  {
  }

  /** Prefill entries for other fields change nothing. */
  lemma UnmatchedPrefillIgnored(field: Field, prefill: seq<KeyValue>)
    requires field.name !in Keys(prefill)
    ensures InitialValue(field, prefill) == InitialValue(field, [])
  {
  }

  /** An entry for the field placed first decides the value, whatever the
      default and the remaining entries. */
  lemma LeadingPrefillWins(field: Field, x: Value, prefill: seq<KeyValue>)
    ensures InitialValue(field, [KeyValue(field.name, x)] + prefill) == x
  {
    assert IsFirst(Keys([KeyValue(field.name, x)] + prefill), field.name, 0);
  }

  /** Entries after the first matching one are never consulted. */
  lemma EarlierPrefillWins(field: Field, p: seq<KeyValue>, q: seq<KeyValue>)
    requires field.name in Keys(p)
    ensures InitialValue(field, p + q) == InitialValue(field, p)
  {
    var i := FirstIndex(Keys(p), field.name);
    assert Keys(p + q) == Keys(p) + Keys(q);
    assert Keys(p + q)[..i] == Keys(p)[..i];
    assert IsFirst(Keys(p + q), field.name, i);
  }

  /** The first position of a key that occurs. */
  function FirstIndex(keys: seq<string>, key: string): (i: nat)
    requires key in keys
    ensures IsFirst(keys, key, i)
  {
    if keys[0] == key then 0
    else
      var i := FirstIndex(keys[1..], key) + 1;
      assert keys[..i] == [keys[0]] + keys[1..][..i - 1];
      i
  }

  // ---------------------------------------------------------------------
  // extractFormValues

  lemma {:induction false} ExtractAt(form: Form, k: nat)
    requires k < |form|
    ensures ExtractFormValues(form)[k] == ExtractControl(form[k])
  {
    if k > 0 {
      ExtractAt(form[1..], k - 1);
    }
  }

  /** Enabling or disabling a control does not change what is extracted
      from it. */
  lemma {:induction false} SetDisabledKeepsValue(c: Control, d: bool)
    ensures ExtractControl(Control(c.name, SetDisabled(c.slot, d))) == ExtractControl(c)
    decreases c
  {
    match c.slot
    case Leaf(_, _, _) =>
    case Group(cs) =>
      var cs' := SetDisabled(c.slot, d).controls;
      forall k | 0 <= k < |cs|
        ensures ExtractFormValues(cs')[k] == ExtractFormValues(cs)[k]
      {
        ExtractAt(cs, k);
        ExtractAt(cs', k);
        SetDisabledKeepsValue(cs[k], d);
      }
      assert ExtractFormValues(cs') == ExtractFormValues(cs);
  }

  /** Extraction splits over a concatenation of control lists. */
  lemma {:induction false} ExtractAppend(a: Form, b: Form)
    ensures ExtractFormValues(a + b) == ExtractFormValues(a) + ExtractFormValues(b)
  {
    if a == [] {
      assert a + b == b;
    } else {
      assert (a + b)[0] == a[0];
      assert (a + b)[1..] == a[1..] + b;
      ExtractAppend(a[1..], b);
    }
  }

  /** After the form is ready, extraction returns one pair per control in
      form order, and a field named in the prefill carries the value of its
      first prefill entry, whatever the initial pass disabled. */
  lemma PrefillRoundTrip(fieldset: seq<Field>, prefill: seq<KeyValue>, readOnly: bool)
    requires UniqueNames(fieldset)
    ensures var out := ExtractFormValues(InitializeForm(fieldset, prefill, readOnly).form.value);
      var fields := Layout(fieldset);
      && Keys(out) == Names(fields)
      && forall k, i :: 0 <= k < |fields| && IsFirst(Keys(prefill), fields[k].name, i) ==>
           out[k] == KeyValue(fields[k].name, prefill[i].value)
  {
    InitialForm(fieldset, prefill, readOnly);
    var form := InitializeForm(fieldset, prefill, readOnly).form.value;
    var out := ExtractFormValues(form);
    assert Keys(out) == ControlNames(form);
  }

  /** Prefill data naming every control once, in layout order, is exactly
      what extraction returns from the freshly built form. */
  lemma PrefillRoundTripExact(fieldset: seq<Field>, prefill: seq<KeyValue>, readOnly: bool)
    requires UniqueNames(fieldset)
    requires Names(Layout(fieldset)) == Keys(prefill)
    ensures ExtractFormValues(InitializeForm(fieldset, prefill, readOnly).form.value) == prefill
  {
    var out := ExtractFormValues(InitializeForm(fieldset, prefill, readOnly).form.value);
    var keys := Keys(prefill);
    PrefillRoundTrip(fieldset, prefill, readOnly);
    forall k | 0 <= k < |prefill|
      ensures out[k] == prefill[k]
    {
      assert IsFirst(keys, keys[k], k);
    }
  }

  // ---------------------------------------------------------------------
  // toggleChildren

  /** Toggling children never changes any extracted value. */
  lemma ToggleKeepsValues(fieldset: seq<Field>, form: Form, name: string, v: Value)
    ensures ExtractFormValues(ToggleChildren(fieldset, form, name, v)) == ExtractFormValues(form)
  {
    var r := ToggleChildren(fieldset, form, name, v);
    forall k | 0 <= k < |form|
      ensures ExtractFormValues(r)[k] == ExtractFormValues(form)[k]
    {
      ExtractAt(form, k);
      ExtractAt(r, k);
      SetDisabledKeepsValue(form[k], !Truthy(v));
    }
  }

  /** Only the last toggle of the same field is visible. */
  lemma ToggleLastWins(fieldset: seq<Field>, form: Form, name: string, v1: Value, v2: Value)
    ensures ToggleChildren(fieldset, ToggleChildren(fieldset, form, name, v1), name, v2)
         == ToggleChildren(fieldset, form, name, v2)
  {
    var once := ToggleChildren(fieldset, form, name, v1);
    forall k | 0 <= k < |form|
      ensures ToggleChildren(fieldset, once, name, v2)[k] == ToggleChildren(fieldset, form, name, v2)[k]
    {
      SetDisabledLastWins(form[k].slot, !Truthy(v1), !Truthy(v2));
    }
  }

  /** Toggling a top-level field of a well-formed fieldset enables (truthy
      value) or disables (falsy value) each leaf child control and touches
      no other control. */
  lemma ToggleField(fieldset: seq<Field>, form: Form, i: nat, v: Value)
    requires UniqueNames(fieldset)
    requires i < |fieldset|
    ensures var r := ToggleChildren(fieldset, form, fieldset[i].name, v);
      && |r| == |form|
      && (forall k :: 0 <= k < |form| && form[k].name in Names(fieldset[i].children) && form[k].slot.Leaf? ==>
            r[k] == Control(form[k].name, Leaf(form[k].slot.value, !Truthy(v), form[k].slot.validators)))
      && (forall k :: 0 <= k < |form| && form[k].name !in Names(fieldset[i].children) ==> r[k] == form[k])
  {
    FindOwnField(fieldset, i);
  }
}
