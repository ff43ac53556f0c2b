/** The Number field kind (components/fields/NumberField.tsx). */
module NumberFieldElement {
  import opened Elements

  /** The attributes every new Number field starts with. */
  const DefaultAttrs: NumberAttrs :=
    NumberAttrs(labelText := "Number field", helperText := "Helper text", required := false, placeHolder := "0")

  /** The properties schema: bounded label, helper text and placeholder
      lengths; `required` is any boolean. */
  predicate PropertiesSchema(values: NumberAttrs) {
    2 <= |values.labelText| <= 50
    && |values.helperText| <= 200
    && |values.placeHolder| <= 50
  }

  /** `construct(id)`: a Number instance with that id and the defaults. */
  function Construct(id: string): (inst: Instance)
    ensures inst.id == id && inst.kind == Kind.NumberField
    ensures inst.extra == Some(NumberBag(DefaultAttrs))
    ensures Shaped(inst) && PropertiesSchema(inst.extra.value.number)
  {
    Instance(id, Kind.NumberField, Some(NumberBag(DefaultAttrs)))
  }

  /** `validate(instance, value)`: a required field accepts exactly the
      non-empty values, numeric or not; a field that is not required accepts
      every value. */
  function Validate(element: Instance, currentValue: string): (valid: bool)
    requires element.extra.Some?
    ensures Required(element.extra.value) ==> (valid <==> |currentValue| > 0)
    ensures !Required(element.extra.value) ==> valid
  {
    if Required(element.extra.value) then |currentValue| > 0 else true
  }

  /** `applyChanges(values)`: the same instance with its bag replaced
      wholesale by the four edited values. */
  function ApplyChanges(element: Instance, values: NumberAttrs): (r: Instance)
    ensures r.id == element.id && r.kind == element.kind
    ensures r.extra == Some(NumberBag(values))
  {
    element.(extra := Some(NumberBag(values)))
  }

  /** The edit form submits its values only when they pass the schema. */
  function HandleSubmit(element: Instance, values: NumberAttrs): (r: Option<Instance>)
    ensures r.Some? <==> PropertiesSchema(values)
    ensures r.Some? ==> r.value == ApplyChanges(element, values)
  {
    if PropertiesSchema(values) then Some(ApplyChanges(element, values)) else None
  }

  /** The defaults are values the edit form itself would accept. */
  lemma DefaultsSatisfySchema()
    ensures PropertiesSchema(DefaultAttrs)
  {
  }

  /** A fresh Number field is optional, so it accepts the empty value. */
  lemma FreshAcceptsEmpty(id: string)
    ensures Validate(Construct(id), "")
  {
  }

  /** The validator checks presence only: a required Number field accepts a
      value that is not a number at all. */
  lemma RequiredAcceptsNonNumeric(element: Instance)
    requires element.extra.Some? && Required(element.extra.value)
    ensures Validate(element, "abc")
    ensures !Validate(element, "")
  {
  }

  /** Submitting the form with the current attributes leaves the instance
      as it was. */
  lemma ApplyCurrentIsIdentity(element: Instance, current: NumberAttrs)
    requires element.extra == Some(NumberBag(current))
    ensures ApplyChanges(element, current) == element
  {
  }

  /** Of two edits the later wins: the bag is replaced, not merged. */
  lemma LastEditWins(element: Instance, first: NumberAttrs, second: NumberAttrs)
    ensures ApplyChanges(ApplyChanges(element, first), second) == ApplyChanges(element, second)
  {
  }

  /** An edit keeps a Number instance well shaped, and afterwards the empty
      value is rejected exactly when the edit made the field required. */
  lemma EditThenValidateEmpty(element: Instance, values: NumberAttrs)
    requires element.kind == Kind.NumberField
    ensures Shaped(ApplyChanges(element, values))
    ensures Validate(ApplyChanges(element, values), "") <==> !values.required
  {
  }
}
