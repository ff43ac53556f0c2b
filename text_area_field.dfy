/** The TextArea field kind (components/fields/TextAreaField.tsx). */
module TextAreaFieldElement {
  import opened Elements

  /** The attributes every new TextArea field starts with. */
  const DefaultAttrs: TextAreaAttrs :=
    TextAreaAttrs(labelText := "Text Area field", helperText := "Helper text", required := false,
                  placeHolder := "Value Here...", rows := 3)

  /** The properties schema: bounded label, helper text and placeholder
      lengths and a row count from 1 to 10; `required` is any boolean. */
  predicate PropertiesSchema(values: TextAreaAttrs) {
    2 <= |values.labelText| <= 50
    && |values.helperText| <= 200
    && |values.placeHolder| <= 50
    && 1 <= values.rows <= 10
  }

  /** `construct(id)`: a TextArea instance with that id and the defaults. */
  function Construct(id: string): (inst: Instance)
    ensures inst.id == id && inst.kind == Kind.TextAreaField
    ensures inst.extra == Some(TextAreaBag(DefaultAttrs))
    ensures Shaped(inst) && PropertiesSchema(inst.extra.value.textArea)
  {
    Instance(id, Kind.TextAreaField, Some(TextAreaBag(DefaultAttrs)))
  }

  /** `validate(instance, value)`: a required field accepts exactly the
      non-empty values; a field that is not required accepts every value. */
  function Validate(element: Instance, currentValue: string): (valid: bool)
    requires element.extra.Some?
    ensures Required(element.extra.value) ==> (valid <==> |currentValue| > 0)
    ensures !Required(element.extra.value) ==> valid
  {
    if Required(element.extra.value) then |currentValue| > 0 else true
  }

  /** `applyChanges(values)`: the same instance with its bag replaced
      wholesale by the five edited values. */
  function ApplyChanges(element: Instance, values: TextAreaAttrs): (r: Instance)
    ensures r.id == element.id && r.kind == element.kind
    ensures r.extra == Some(TextAreaBag(values))
  {
    element.(extra := Some(TextAreaBag(values)))
  }

  /** The edit form submits its values only when they pass the schema. */
  function HandleSubmit(element: Instance, values: TextAreaAttrs): (r: Option<Instance>)
    ensures r.Some? <==> PropertiesSchema(values)
    ensures r.Some? ==> r.value == ApplyChanges(element, values)
  {
    if PropertiesSchema(values) then Some(ApplyChanges(element, values)) else None
  }

  /** The defaults are values the edit form itself would accept. */
  lemma DefaultsSatisfySchema()
    ensures PropertiesSchema(DefaultAttrs)
  {
  }

  /** The schema's bounds are tight: one below or above each fails. */
  lemma SchemaBounds(values: TextAreaAttrs)
    requires PropertiesSchema(values)
    ensures !PropertiesSchema(values.(rows := 0)) && !PropertiesSchema(values.(rows := 11))
    ensures !PropertiesSchema(values.(labelText := [values.labelText[0]]))
    ensures |values.labelText| == 50 ==> !PropertiesSchema(values.(labelText := values.labelText + "x"))
    ensures |values.helperText| == 200 ==> !PropertiesSchema(values.(helperText := values.helperText + "x"))
    ensures |values.placeHolder| == 50 ==> !PropertiesSchema(values.(placeHolder := values.placeHolder + "x"))
  {
  }

  /** A fresh TextArea field is optional, so it accepts the empty value. */
  lemma FreshAcceptsEmpty(id: string)
    ensures Validate(Construct(id), "")
  {
  }

  /** Submitting the form with the current attributes leaves the instance
      as it was. */
  lemma ApplyCurrentIsIdentity(element: Instance, current: TextAreaAttrs)
    requires element.extra == Some(TextAreaBag(current))
    ensures ApplyChanges(element, current) == element
  {
  }

  /** Of two edits the later wins: the bag is replaced, not merged. */
  lemma LastEditWins(element: Instance, first: TextAreaAttrs, second: TextAreaAttrs)
    ensures ApplyChanges(ApplyChanges(element, first), second) == ApplyChanges(element, second)
  {
  }

  /** An edit keeps a TextArea instance well shaped, and afterwards the empty
      value is rejected exactly when the edit made the field required. */
  lemma EditThenValidateEmpty(element: Instance, values: TextAreaAttrs)
    requires element.kind == Kind.TextAreaField
    ensures Shaped(ApplyChanges(element, values))
    ensures Validate(ApplyChanges(element, values), "") <==> !values.required
  {
  }
}
