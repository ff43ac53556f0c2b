/** The SubTitle field kind (components/fields/SubTitle.tsx). */
module SubTitleFieldElement {
  import opened Elements

  /** The attributes every new SubTitle field starts with. */
  const DefaultAttrs: SubTitleAttrs := SubTitleAttrs(subTitle := "SubTitle field")

  /** The properties schema: a subTitle of 2 to 50 characters. */
  predicate PropertiesSchema(values: SubTitleAttrs) {
    2 <= |values.subTitle| <= 50
  }

  /** `construct(id)`: a SubTitle instance with that id and the default. */
  function Construct(id: string): (inst: Instance)
    ensures inst.id == id && inst.kind == Kind.SubTitleField
    ensures inst.extra == Some(SubTitleBag(DefaultAttrs))
    ensures Shaped(inst) && PropertiesSchema(inst.extra.value.subTitle)
  {
    Instance(id, Kind.SubTitleField, Some(SubTitleBag(DefaultAttrs)))
  }

  /** `validate`: a SubTitle field takes no input and accepts everything. */
  function Validate(element: Instance, currentValue: string): (valid: bool)
    ensures valid
  {
    true
  }

  /** `applyChanges(values)`: the same instance with its bag replaced by
      exactly the edited subTitle. */
  function ApplyChanges(element: Instance, values: SubTitleAttrs): (r: Instance)
    ensures r.id == element.id && r.kind == element.kind
    ensures r.extra == Some(SubTitleBag(SubTitleAttrs(values.subTitle)))
  {
    element.(extra := Some(SubTitleBag(values)))
  }

  /** The edit form submits its values only when they pass the schema. */
  function HandleSubmit(element: Instance, values: SubTitleAttrs): (r: Option<Instance>)
    ensures r.Some? <==> PropertiesSchema(values)
    ensures r.Some? ==> r.value == ApplyChanges(element, values)
  {
    if PropertiesSchema(values) then Some(ApplyChanges(element, values)) else None
  }

  /** The default is a value the edit form itself would accept. */
  lemma DefaultsSatisfySchema()
    ensures PropertiesSchema(DefaultAttrs)
  {
  }

  /** Submitting the form with the current attributes leaves the instance
      as it was. */
  lemma ApplyCurrentIsIdentity(element: Instance, current: SubTitleAttrs)
    requires element.extra == Some(SubTitleBag(current))
    ensures ApplyChanges(element, current) == element
  {
  }

  /** Of two edits the later wins. */
  lemma LastEditWins(element: Instance, first: SubTitleAttrs, second: SubTitleAttrs)
    ensures ApplyChanges(ApplyChanges(element, first), second) == ApplyChanges(element, second)
  {
  }

  /** An edit keeps a SubTitle instance well shaped. */
  lemma EditKeepsShape(element: Instance, values: SubTitleAttrs)
    requires element.kind == Kind.SubTitleField
    ensures Shaped(ApplyChanges(element, values))
  {
  }
}
