/** The data model of the dynamic form library: the JavaScript values a form
    carries, key/value pairs (used both for prefill input and for extracted
    output), the closed set of field types and the field descriptor a host
    page passes in.

    Optional members of the TypeScript interfaces are given the value an
    absent member reads as in the component: an absent `defaultValue` is
    `Undefined`, absent `children` and `validation` are empty lists and an
    absent `disabled` flag is `false`. */
module FormModel {

  datatype Option<+T> = None | Some(value: T)

  /** JavaScript values as far as the form cares about them. Numbers are
      integers; arrays and objects are written as nested key/value lists,
      which is also how an extracted sub-group is returned. */
  datatype Value =
    | Undefined
    | Null
    | Bool(b: bool)
    | Number(n: int)
    | Str(s: string)
    | Pairs(pairs: seq<KeyValue>)

  /** `{ key, value }` as used by `prefillData` and by the extracted result. */
  datatype KeyValue = KeyValue(key: string, value: Value)

  /** JavaScript truthiness: `undefined`, `null`, `false`, `0` and `""` are
      falsy; every array and object is truthy. */
  predicate Truthy(v: Value) {
    match v
    case Undefined => false
    case Null => false
    case Bool(b) => b
    case Number(n) => n != 0
    case Str(s) => s != ""
    case Pairs(_) => true
  }

  datatype FieldType =
    | Checkbox
    | Datepicker
    | Radio
    | SelectDropdown
    | SelectList
    | SlideToggle
    | TextArea
    | TextField
    | Subheader
    | Divider

  /** A validator is attached to a control but never interpreted by the
      library, so it is carried as an opaque name. */
  datatype Validator = Validator(id: string)

  /** One field descriptor. `children` holds the conditional fields a slide
      toggle shows or hides. */
  datatype Field = Field(
    name: string,
    kind: FieldType,
    children: seq<Field>,
    defaultValue: Value,
    disabled: bool,
    options: seq<string>,
    parent: Option<string>,
    validation: seq<Validator>,
    visible: Option<bool>)

  /** A field with every optional member absent. */
  function PlainField(name: string, kind: FieldType): Field {
    Field(name, kind, [], Undefined, false, [], None, [], None)
  }

  /** The names of a list of fields, in order. */
  function Names(fields: seq<Field>): (r: seq<string>)
    ensures |r| == |fields|
    ensures forall i :: 0 <= i < |fields| ==> r[i] == fields[i].name
  {
    seq(|fields|, i requires 0 <= i < |fields| => fields[i].name)
  }

  /** The keys of a list of key/value pairs, in order. */
  function Keys(pairs: seq<KeyValue>): (r: seq<string>)
    ensures |r| == |pairs|
    ensures forall i :: 0 <= i < |pairs| ==> r[i] == pairs[i].key
  {
    seq(|pairs|, i requires 0 <= i < |pairs| => pairs[i].key)
  }

  /** `i` is the position of the first occurrence of `key` in `keys`. */
  predicate IsFirst(keys: seq<string>, key: string, i: int) {
    0 <= i < |keys| && keys[i] == key && key !in keys[..i]
  }

  /** No name occurs twice. */
  predicate Distinct(keys: seq<string>) {
    forall a, b :: 0 <= a < b < |keys| ==> keys[a] != keys[b]
  }

  /** Past a first key that differs, the first occurrence moves one place left. */
  lemma IsFirstInTail(keys: seq<string>, key: string, i: int)
    requires IsFirst(keys, key, i)
    requires keys[0] != key
    ensures i >= 1 && IsFirst(keys[1..], key, i - 1)
  {
    assert keys[1..][..i - 1] == keys[1..i];
  }

  /** A first key equal to `key` is its first occurrence. */
  lemma IsFirstAtHead(keys: seq<string>, key: string, i: int)
    requires IsFirst(keys, key, i)
    requires keys[0] == key
    ensures i == 0
  {
  }
}
