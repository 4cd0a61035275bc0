/** The slide-toggle handling of `DynamicFormComponent` as its code reads
    for a fieldset that is a `Field[]`, kept apart from the model proper.

    `toggleChildren` walks `Object.keys(this.fieldset)` (the positions
    "0", "1", ...) and calls `find` on `this.fieldset[section]`, which is a
    single field descriptor and has no `find` method; the subscription
    loop of `handleSlideToggleChildren` reads `controls` of
    `this.form.controls[toggle.section]`, which is a leaf control and has
    none, and then indexes the resulting `undefined`. Either way a
    `TypeError` is raised, and since both run inside `initializeForm`
    before `formReady` is set, the form never becomes ready.

    The rest of the model uses the evidently intended lookup instead
    (`DynamicForm.ToggleChildren`). */
module AsWritten {
  import opened FormModel
  import opened FormState
  import opened DynamicForm
  import opened DynamicFormProperties

  /** The result of a call that may raise a JavaScript exception. */
  datatype Outcome<T> = Done(value: T) | Raised(message: string)

  /** What `this.fieldset[section]` holds: a list of fields, which has
      `find`, or a single field descriptor, which has not. */
  datatype Receiver = FieldList(fields: seq<Field>) | OneField(field: Field)

  /** `receiver.find(field => field.name === name)`: the first field called
      `name` of a list; calling the missing `find` of a single descriptor
      raises. */
  function Find(receiver: Receiver, name: string): (r: Outcome<Option<Field>>)
    ensures r.Raised? <==> receiver.OneField?
    ensures r.Done? ==> (r.value.None? <==> name !in Names(receiver.fields))
  {
    match receiver
    case FieldList(fields) => Done(FindField(fields, name))
    case OneField(_) => Raised("TypeError: this.fieldset[section].find is not a function")
  }

  /** What `Object.keys(this.fieldset)` visits and `this.fieldset[section]`
      reads: the fieldset is an array, so the keys are its positions and
      each value is one field. */
  function Sections(fieldset: seq<Field>): (r: seq<Receiver>)
    ensures |r| == |fieldset|
    ensures forall k :: 0 <= k < |r| ==> r[k].OneField? && r[k].field == fieldset[k]
  {
    seq(|fieldset|, k requires 0 <= k < |fieldset| => OneField(fieldset[k]))
  }

  /** The loop of `toggleChildren` over the values `receivers`: each is
      searched for `name` and the children of a match are enabled or
      disabled; the first search that raises ends the call. */
  function ToggleChildrenVia(receivers: seq<Receiver>, form: Form, name: string, toggleValue: Value): (r: Outcome<Form>)
    ensures r.Raised? <==> exists k :: 0 <= k < |receivers| && receivers[k].OneField?
    ensures receivers == [] ==> r == Done(form)
    decreases |receivers|
  {
    if receivers == [] then Done(form)
    else
      var rest := receivers[1..];
      assert forall k :: 0 <= k < |rest| ==> rest[k] == receivers[k + 1];
      match Find(receivers[0], name)
      case Raised(m) => Raised(m)
      case Done(None) => ToggleChildrenVia(rest, form, name, toggleValue)
      case Done(Some(field)) =>
        ToggleChildrenVia(rest, ToggleEach(form, field.children, !Truthy(toggleValue)), name, toggleValue)
  }

  /** Searching the fieldset as one list, the loop does what the rest of the
      model takes `toggleChildren` to do. A list receiver switches the
      children's controls in the flat form, the intended lookup; it does not
      model the per-section `this.form.controls[section].get(...)`. */
  lemma ToggleChildrenViaList(fieldset: seq<Field>, form: Form, name: string, toggleValue: Value)
    ensures ToggleChildrenVia([FieldList(fieldset)], form, name, toggleValue)
            == Done(ToggleChildren(fieldset, form, name, toggleValue))
  {
    assert [FieldList(fieldset)][1..] == [];
  }

  /** `toggleChildren` as written: the loop over the fieldset's positions.
      On a non-empty fieldset the first `find` call raises before any
      control changes; on an empty one the loop body never runs. */
  function ToggleChildrenAsWritten(fieldset: seq<Field>, form: Form, name: string, toggleValue: Value): (r: Outcome<Form>)
    ensures r.Raised? <==> |fieldset| > 0
    ensures r.Done? ==> r.value == form
  {
    var sections := Sections(fieldset);
    assert |fieldset| > 0 ==> sections[0].OneField?;
    ToggleChildrenVia(sections, form, name, toggleValue)
  }

  /** `this.form.controls[key]`: the first control called `key`. */
  function ControlNamed(form: Form, key: string): (r: Option<Control>)
    ensures r.None? <==> key !in ControlNames(form)
    ensures r.Some? ==> r.value in form && r.value.name == key
    ensures forall i :: IsFirst(ControlNames(form), key, i) ==> r == Some(form[i])
  {
    if form == [] then None
    else if form[0].name == key then
      assert forall i :: IsFirst(ControlNames(form), key, i) ==> i == 0 by {
        forall i | IsFirst(ControlNames(form), key, i) {
          IsFirstAtHead(ControlNames(form), key, i);
        }
      }
      Some(form[0])
    else
      assert ControlNames(form) == [form[0].name] + ControlNames(form[1..]);
      assert forall i :: IsFirst(ControlNames(form), key, i) ==>
        IsFirst(ControlNames(form[1..]), key, i - 1) by {
        forall i | IsFirst(ControlNames(form), key, i) {
          IsFirstInTail(ControlNames(form), key, i);
        }
      }
      ControlNamed(form[1..], key)
  }

  /** `this.form.controls[section]['controls'][name]`: only a group has
      `controls`; indexing the `undefined` that a leaf or a missing control
      gives raises. */
  function ChildControl(form: Form, binding: ToggleBinding): (r: Outcome<Option<Control>>)
    ensures (forall k :: 0 <= k < |form| ==> form[k].slot.Leaf?) ==> r.Raised?
    ensures r.Done? ==> exists k :: 0 <= k < |form| && form[k].name == binding.section && form[k].slot.Group?
  {
    match ControlNamed(form, binding.section)
    case Some(Control(_, Group(cs))) => Done(ControlNamed(cs, binding.name))
    case _ => Raised("TypeError: Cannot read properties of undefined")
  }

  /** The subscription loop of `handleSlideToggleChildren`: each binding's
      child control is looked up and its `valueChanges` read; the first
      lookup that fails ends the call. */
  function SubscribeAll(form: Form, bindings: seq<ToggleBinding>): (r: Outcome<()>)
    ensures (forall k :: 0 <= k < |form| ==> form[k].slot.Leaf?) ==> (r.Done? <==> bindings == [])
    decreases |bindings|
  {
    if bindings == [] then Done(())
    else
      match ChildControl(form, bindings[0])
      case Done(Some(_)) => SubscribeAll(form, bindings[1..])
      case Done(None) => Raised("TypeError: Cannot read properties of undefined (reading 'valueChanges')")
      case Raised(m) => Raised(m)
  }

  /** `handleSlideToggleChildren` as written: the false-toggle pass through
      `ToggleChildrenAsWritten`, then the subscription loop. On a form of
      leaves, as `initializeForm` builds, it completes only when there is
      nothing to toggle or no field to search, and nothing to subscribe. */
  function HandleSlideToggleChildrenAsWritten(fieldset: seq<Field>, form: Form, toggles: seq<string>,
                                              bindings: seq<ToggleBinding>): (r: Outcome<Form>)
    ensures r.Done? ==> r.value == form
    ensures (forall k :: 0 <= k < |form| ==> form[k].slot.Leaf?) ==>
              (r.Done? <==> (toggles == [] || fieldset == []) && bindings == [])
    decreases |toggles|
  {
    if toggles != [] then
      match ToggleChildrenAsWritten(fieldset, form, toggles[0], Bool(false))
      case Raised(m) => Raised(m)
      case Done(next) => HandleSlideToggleChildrenAsWritten(fieldset, next, toggles[1..], bindings)
    else
      match SubscribeAll(form, bindings)
      case Raised(m) => Raised(m)
      case Done(_) => Done(form)
  }

  /** `initializeForm` as written: the controls are added and the form is
      assigned, but a raised error skips `formReady = true`. */
  function InitializeFormAsWritten(fieldset: seq<Field>, prefill: seq<KeyValue>, readOnly: bool): (st: DynamicFormComponent)
    ensures st.form.Some?
    ensures st.formReady <==> FalseToggleNames(Layout(fieldset)) == [] && Bindings(fieldset) == []
  {
    var fields := Layout(fieldset);
    var toggles := FalseToggleNames(fields);
    var built := InitControls(fields, prefill, readOnly);
    match HandleSlideToggleChildrenAsWritten(fieldset, built, toggles, Bindings(fieldset))
    case Done(form) => DynamicFormComponent(Some(form), true, Bindings(fieldset), toggles)
    case Raised(_) => DynamicFormComponent(Some(built), false, Bindings(fieldset), toggles)
  }

  /** As written, a fieldset with a slide toggle whose default is falsy, or
      with any field that has children, never becomes ready, while the
      intended builder always does. */
  lemma AsWrittenNeverReady(fieldset: seq<Field>, prefill: seq<KeyValue>, readOnly: bool, i: nat)
    requires i < |fieldset|
    requires IsFalseToggle(fieldset[i]) || |fieldset[i].children| > 0
    ensures !InitializeFormAsWritten(fieldset, prefill, readOnly).formReady
    ensures InitializeForm(fieldset, prefill, readOnly).formReady
  {
    if |fieldset[i].children| > 0 {
      BindingsComplete(fieldset, i, 0);
    } else {
      var fields := Layout(fieldset);
      LayoutFieldAt(fieldset, i);
      FalseToggleNamesSpec(fields);
      assert fieldset[i].name in FalseToggleNames(fields);
    }
  }

  lemma {:induction false} NoFalseToggleNames(fields: seq<Field>)
    requires forall k :: 0 <= k < |fields| ==> !IsFalseToggle(fields[k])
    ensures FalseToggleNames(fields) == []
  {
    if fields != [] {
      NoFalseToggleNames(fields[1..]);
    }
  }

  /** As written, a fieldset without false toggles and without children
      (a plain list of inputs) is built exactly as intended. */
  lemma AsWrittenAgreesWithoutToggles(fieldset: seq<Field>, prefill: seq<KeyValue>, readOnly: bool)
    requires forall i :: 0 <= i < |fieldset| ==> !IsFalseToggle(fieldset[i]) && fieldset[i].children == []
    ensures InitializeFormAsWritten(fieldset, prefill, readOnly) == InitializeForm(fieldset, prefill, readOnly)
  {
    LayoutWithoutChildren(fieldset);
    NoFalseToggleNames(fieldset);
    assert |Bindings(fieldset)| == 0 by {
      LayoutLength(fieldset);
    }
  }
}
