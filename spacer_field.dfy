/** The Spacer field kind (components/fields/SpacerField.tsx). */
module SpacerFieldElement {
  import opened Elements

  /** The attributes every new Spacer field starts with. */
  const DefaultAttrs: SpacerAttrs := SpacerAttrs(height := 20)

  /** The properties schema: a height from 5 to 200. */
  predicate PropertiesSchema(values: SpacerAttrs) {
    5 <= values.height <= 200
  }

  /** `construct(id)`: a Spacer instance with that id and the default. */
  function Construct(id: string): (inst: Instance)
    ensures inst.id == id && inst.kind == Kind.SpacerField
    ensures inst.extra == Some(SpacerBag(DefaultAttrs))
    ensures Shaped(inst) && PropertiesSchema(inst.extra.value.spacer)
  {
    Instance(id, Kind.SpacerField, Some(SpacerBag(DefaultAttrs)))
  }

  /** `validate`: a Spacer field takes no input and accepts everything. */
  function Validate(element: Instance, currentValue: string): (valid: bool)
    ensures valid
  {
    true
  }

  /** `applyChanges(values)`: the same instance with its bag replaced by
      exactly the edited height. */
  function ApplyChanges(element: Instance, values: SpacerAttrs): (r: Instance)
    ensures r.id == element.id && r.kind == element.kind
    ensures r.extra == Some(SpacerBag(SpacerAttrs(values.height)))
  {
    element.(extra := Some(SpacerBag(values)))
  }

  /** The edit form submits its values only when they pass the schema. */
  function HandleSubmit(element: Instance, values: SpacerAttrs): (r: Option<Instance>)
    ensures r.Some? <==> PropertiesSchema(values)
    ensures r.Some? ==> r.value == ApplyChanges(element, values)
  {
    if PropertiesSchema(values) then Some(ApplyChanges(element, values)) else None
  }

  /** The default is a value the edit form itself would accept. */
  lemma DefaultsSatisfySchema()
    ensures PropertiesSchema(DefaultAttrs)
  {
  }

  /** Submitting the form with the current attributes leaves the instance
      as it was. */
  lemma ApplyCurrentIsIdentity(element: Instance, current: SpacerAttrs)
    requires element.extra == Some(SpacerBag(current))
    ensures ApplyChanges(element, current) == element
  {
  }

  /** Of two edits the later wins. */
  lemma LastEditWins(element: Instance, first: SpacerAttrs, second: SpacerAttrs)
    ensures ApplyChanges(ApplyChanges(element, first), second) == ApplyChanges(element, second)
  {
  }

  /** An edit keeps a Spacer instance well shaped. */
  lemma EditKeepsShape(element: Instance, values: SpacerAttrs)
    requires element.kind == Kind.SpacerField
    ensures Shaped(ApplyChanges(element, values))
  {
  }
}
