/** The reactive form state the component builds, abstracted from the form
    library: a form is an ordered list of named controls; a control is
    either a leaf holding a value, a disabled flag and its validators, or a
    group holding a nested list of controls. */
module FormState {
  import opened FormModel

  datatype Slot =
    | Leaf(value: Value, disabled: bool, validators: seq<Validator>)
    | Group(controls: seq<Control>)

  datatype Control = Control(name: string, slot: Slot)

  /** A form group's controls in insertion order. */
  type Form = seq<Control>

  /** The names of a form's controls, in order. */
  function ControlNames(form: Form): (r: seq<string>)
    ensures |r| == |form|
    ensures forall k :: 0 <= k < |form| ==> r[k] == form[k].name
  {
    seq(|form|, k requires 0 <= k < |form| => form[k].name)
  }

  /** Every leaf at or below `s` has the disabled flag `d`. */
  predicate AllDisabled(s: Slot, d: bool) {
    match s
    case Leaf(_, disabled, _) => disabled == d
    case Group(cs) => forall i :: 0 <= i < |cs| ==> AllDisabled(cs[i].slot, d)
  }

  /** `r` is `s` with possibly different disabled flags: the same shape, the
      same names, values and validators. */
  predicate SameContent(s: Slot, r: Slot) {
    match s
    case Leaf(v, _, vs) => r.Leaf? && r.value == v && r.validators == vs
    case Group(cs) =>
      && r.Group?
      && |r.controls| == |cs|
      && forall i :: 0 <= i < |cs| ==>
           r.controls[i].name == cs[i].name && SameContent(cs[i].slot, r.controls[i].slot)
  }

  /** The control's `enable()` (d = false) or `disable()` (d = true): the
      flag is set on the control and on every control below it, and
      nothing else changes. */
  function SetDisabled(s: Slot, d: bool): (r: Slot)
    ensures AllDisabled(r, d)
    ensures SameContent(s, r)
  {
    match s
    case Leaf(v, _, vs) => Leaf(v, d, vs)
    case Group(cs) =>
      Group(seq(|cs|, i requires 0 <= i < |cs| => Control(cs[i].name, SetDisabled(cs[i].slot, d))))
  }

  /** Only the last of two enable/disable calls is visible. */
  lemma {:induction false} SetDisabledLastWins(s: Slot, a: bool, b: bool)
    ensures SetDisabled(SetDisabled(s, a), b) == SetDisabled(s, b)
  {
    match s
    case Leaf(_, _, _) =>
    case Group(cs) =>
      var inner := SetDisabled(s, a).controls;
      forall i | 0 <= i < |cs|
        ensures SetDisabled(inner[i].slot, b) == SetDisabled(cs[i].slot, b)
      {
        SetDisabledLastWins(cs[i].slot, a, b);
      }
  }

  /** `form.get(key).enable()` / `.disable()`: every control called `key`
      gets the flag `d`; the others are left as they are. A key no control
      has leaves the form unchanged. */
  function SetControl(form: Form, key: string, d: bool): (r: Form)
    ensures |r| == |form|
    ensures forall k :: 0 <= k < |form| && form[k].name != key ==> r[k] == form[k]
    ensures forall k :: 0 <= k < |form| && form[k].name == key ==>
              r[k] == Control(key, SetDisabled(form[k].slot, d))
    ensures key !in ControlNames(form) ==> r == form
  {
    seq(|form|, k requires 0 <= k < |form| =>
      if form[k].name == key then Control(key, SetDisabled(form[k].slot, d)) else form[k])
  }
}
