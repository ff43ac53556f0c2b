/** The Title field kind (components/fields/TitleField.tsx). */
module TitleFieldElement {
  import opened Elements

  /** The attributes every new Title field starts with. */
  const DefaultAttrs: TitleAttrs := TitleAttrs(title := "Title field")

  /** The properties schema: a title of 2 to 50 characters. */
  predicate PropertiesSchema(values: TitleAttrs) {
    2 <= |values.title| <= 50
  }

  /** `construct(id)`: a Title instance with that id and the default. */
  function Construct(id: string): (inst: Instance)
    ensures inst.id == id && inst.kind == Kind.TitleField
    ensures inst.extra == Some(TitleBag(DefaultAttrs))
    ensures Shaped(inst) && PropertiesSchema(inst.extra.value.title)
  {
    Instance(id, Kind.TitleField, Some(TitleBag(DefaultAttrs)))
  }

  /** `validate`: a Title field takes no input and accepts everything. */
  function Validate(element: Instance, currentValue: string): (valid: bool)
    ensures valid
  {
    true
  }

  /** `applyChanges(values)`: the same instance with its bag replaced by
      exactly the edited title. */
  function ApplyChanges(element: Instance, values: TitleAttrs): (r: Instance)
    ensures r.id == element.id && r.kind == element.kind
    ensures r.extra == Some(TitleBag(TitleAttrs(values.title)))
  {
    element.(extra := Some(TitleBag(values)))
  }

  /** The edit form submits its values only when they pass the schema. */
  function HandleSubmit(element: Instance, values: TitleAttrs): (r: Option<Instance>)
    ensures r.Some? <==> PropertiesSchema(values)
    ensures r.Some? ==> r.value == ApplyChanges(element, values)
  {
    if PropertiesSchema(values) then Some(ApplyChanges(element, values)) else None
  }

  /** The default is a value the edit form itself would accept. */
  lemma DefaultsSatisfySchema()
    ensures PropertiesSchema(DefaultAttrs)
  {
  }

  /** Submitting the form with the current attributes leaves the instance
      as it was. */
  lemma ApplyCurrentIsIdentity(element: Instance, current: TitleAttrs)
    requires element.extra == Some(TitleBag(current))
    ensures ApplyChanges(element, current) == element
  {
  }

  /** Of two edits the later wins. */
  lemma LastEditWins(element: Instance, first: TitleAttrs, second: TitleAttrs)
    ensures ApplyChanges(ApplyChanges(element, first), second) == ApplyChanges(element, second)
  {
  }

  /** An edit keeps a Title instance well shaped. */
  lemma EditKeepsShape(element: Instance, values: TitleAttrs)
    requires element.kind == Kind.TitleField
    ensures Shaped(ApplyChanges(element, values))
  {
  }
}
