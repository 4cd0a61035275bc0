/** Concrete instances: the worked example of a toggle with one child and
    the left-hand form of the demo application with its prefill data. */
module DemoForm {
  import opened FormModel
  import opened FormState
  import opened DynamicForm
  import opened DynamicFormProperties
  import opened AsWritten

  /** A text field `a`, and a slide toggle `b` defaulting to `false` with
      one child text field `c`. */
  function ToggleExample(): seq<Field> {
    [ PlainField("a", TextField),
      PlainField("b", SlideToggle).(children := [PlainField("c", TextField)], defaultValue := Bool(false)) ]
  }

  /** The three controls, in layout order: `a`, `b`, then `b`'s child `c`. */
  lemma ToggleExampleLayout()
    ensures var fs := ToggleExample();
      Layout(fs) == [fs[0], fs[1], fs[1].children[0]] && UniqueNames(fs)
  {
    var fs := ToggleExample();
    assert fs[1..] == [fs[1]];
    assert fs[1..][1..] == [];
    assert Names([fs[0], fs[1], fs[1].children[0]]) == ["a", "b", "c"];
  }

  /** Only `c` sits under a toggle that defaults to `false`. */
  lemma ToggleExampleFalseChildren()
    ensures !ChildOfFalseToggle(ToggleExample(), "a")
    ensures !ChildOfFalseToggle(ToggleExample(), "b")
    ensures ChildOfFalseToggle(ToggleExample(), "c")
  {
    var fs := ToggleExample();
    assert Names(fs[1].children) == ["c"];
    assert IsFalseToggle(fs[1]);
  }

  /** The controls built for the example without prefill data. */
  function ToggleExampleControls(): Form {
    [ Control("a", Leaf(Undefined, false, [])),
      Control("b", Leaf(Bool(false), false, [])),
      Control("c", Leaf(Undefined, true, [])) ]
  }

  lemma ToggleExampleControl(fs: seq<Field>, k: nat)
    requires fs == ToggleExample() && k < 3
    ensures InitializeForm(fs, [], false).form.Some?
    ensures var form := InitializeForm(fs, [], false).form.value;
      |form| == 3 && form[k] == ToggleExampleControls()[k]
  {
    ToggleExampleLayout();
    ToggleExampleFalseChildren();
    InitialControl(fs, [], false, k);
  }

  /** The toggle starts `false` with its child disabled. */
  lemma ToggleExampleInitial(fs: seq<Field>)
    requires fs == ToggleExample()
    ensures InitializeForm(fs, [], false).form.Some?
    ensures InitializeForm(fs, [], false).form.value == ToggleExampleControls()
  {
    ToggleExampleControl(fs, 0);
    ToggleExampleControl(fs, 1);
    ToggleExampleControl(fs, 2);
  }

  /** Switching the toggle on enables its child and leaves the toggle and
      the unrelated field as they were. */
  lemma ToggleExampleSwitchOn(fs: seq<Field>, form: Form)
    requires fs == ToggleExample() && form == ToggleExampleControls()
    ensures ToggleChildren(fs, form, "b", Bool(true))
      == [ Control("a", Leaf(Undefined, false, [])),
           Control("b", Leaf(Bool(false), false, [])),
           Control("c", Leaf(Undefined, false, [])) ]
  {
    assert Names(fs[1].children) == ["c"];
    assert fs[1].name == "b" && UniqueNames(fs) by {
      ToggleExampleLayout();
    }
    ToggleField(fs, form, 1, Bool(true));
  }

  /** Built, then switched on: the child ends up enabled. */
  lemma ToggleExampleBuildThenSwitchOn(fs: seq<Field>)
    requires fs == ToggleExample()
    ensures InitializeForm(fs, [], false).form.Some?
    ensures var form := InitializeForm(fs, [], false).form.value;
      var r := ToggleChildren(fs, form, "b", Bool(true));
      |r| == 3 && r[2] == Control("c", Leaf(Undefined, false, []))
  {
    ToggleExampleInitial(fs);
    ToggleExampleSwitchOn(fs, InitializeForm(fs, [], false).form.value);
  }

  /** As written, building the example raises before the form is ready;
      the intended builder makes it ready. */
  lemma ToggleExampleAsWritten(fs: seq<Field>)
    requires fs == ToggleExample()
    ensures !InitializeFormAsWritten(fs, [], false).formReady
    ensures InitializeForm(fs, [], false).formReady
  {
    AsWrittenNeverReady(fs, [], false, 1);
  }

  /** The left-hand form of the demo application. */
  function LeftForm(): seq<Field> {
    [ PlainField("firstName", TextField),
      PlainField("lastName", TextField),
      PlainField("favoriteFood", SelectDropdown).(options := ["Ice Cream", "Pizza", "Tacos"]),
      PlainField("favoriteColor", SelectDropdown).(options := ["Red", "Blue", "Yellow"]) ]
  }

  function PrefillDataLeft(): seq<KeyValue> {
    [ KeyValue("firstName", Str("Mickey")),
      KeyValue("lastName", Str("Mouse")),
      KeyValue("favoriteFood", Str("Pizza")),
      KeyValue("favoriteColor", Str("Blue")) ]
  }

  /** Every field of the left-hand form is a plain input: no children and
      not a slide toggle. */
  lemma LeftFormPlain(fs: seq<Field>)
    requires fs == LeftForm()
    ensures forall i :: 0 <= i < |fs| ==> !IsFalseToggle(fs[i]) && fs[i].children == []
  {
    forall i | 0 <= i < |fs|
      ensures !IsFalseToggle(fs[i]) && fs[i].children == []
    {
      assert fs[i].kind != SlideToggle;
    }
  }

  /** The left-hand form's four names are distinct and are also the prefill
      keys, in the same order. */
  lemma LeftFormShape(fs: seq<Field>, prefill: seq<KeyValue>)
    requires fs == LeftForm() && prefill == PrefillDataLeft()
    ensures Layout(fs) == fs && UniqueNames(fs)
    ensures Names(fs) == Keys(prefill)
  {
    assert Layout(fs) == fs by {
      LeftFormPlain(fs);
      LayoutWithoutChildren(fs);
    }
    var names := ["firstName", "lastName", "favoriteFood", "favoriteColor"];
    assert Names(fs) == names;
    assert Keys(prefill) == names;
  }

  /** Building the demo form from its prefill data and extracting it gives
      the prefill data back. */
  lemma LeftFormRoundTrip(fs: seq<Field>, prefill: seq<KeyValue>)
    requires fs == LeftForm() && prefill == PrefillDataLeft()
    ensures InitializeForm(fs, prefill, false).form.Some?
    ensures ExtractFormValues(InitializeForm(fs, prefill, false).form.value) == prefill
  {
    LeftFormShape(fs, prefill);
    PrefillRoundTripExact(fs, prefill, false);
  }

  /** The demo's left-hand form has neither toggles nor children, so the
      code as written builds it exactly as intended. */
  lemma LeftFormAsWritten(fs: seq<Field>, prefill: seq<KeyValue>)
    requires fs == LeftForm() && prefill == PrefillDataLeft()
    ensures InitializeFormAsWritten(fs, prefill, false) == InitializeForm(fs, prefill, false)
    ensures InitializeFormAsWritten(fs, prefill, false).formReady
  {
    LeftFormPlain(fs);
    AsWrittenAgreesWithoutToggles(fs, prefill, false);
  }
}
