/** The Paragraph field kind (components/fields/ParagraphField.tsx). */
module ParagraphFieldElement {
  import opened Elements

  /** The attributes every new Paragraph field starts with. */
  const DefaultAttrs: ParagraphAttrs := ParagraphAttrs(text := "Text")

  /** The properties schema: a text of 2 to 500 characters. */
  predicate PropertiesSchema(values: ParagraphAttrs) {
    2 <= |values.text| <= 500
  }

  /** `construct(id)`: a Paragraph instance with that id and the default. */
  function Construct(id: string): (inst: Instance)
    ensures inst.id == id && inst.kind == Kind.ParagraphField
    ensures inst.extra == Some(ParagraphBag(DefaultAttrs))
    ensures Shaped(inst) && PropertiesSchema(inst.extra.value.paragraph)
  {
    Instance(id, Kind.ParagraphField, Some(ParagraphBag(DefaultAttrs)))
  }

  /** `validate`: a Paragraph field takes no input and accepts everything. */
  function Validate(element: Instance, currentValue: string): (valid: bool)
    ensures valid
  {
    true
  }

  /** `applyChanges(values)`: the same instance with its bag replaced by
      exactly the edited text. */
  function ApplyChanges(element: Instance, values: ParagraphAttrs): (r: Instance)
    ensures r.id == element.id && r.kind == element.kind
    ensures r.extra == Some(ParagraphBag(ParagraphAttrs(values.text)))
  {
    element.(extra := Some(ParagraphBag(values)))
  }

  /** The edit form submits its values only when they pass the schema. */
  function HandleSubmit(element: Instance, values: ParagraphAttrs): (r: Option<Instance>)
    ensures r.Some? <==> PropertiesSchema(values)
    ensures r.Some? ==> r.value == ApplyChanges(element, values)
  {
    if PropertiesSchema(values) then Some(ApplyChanges(element, values)) else None
  }

  /** The default is a value the edit form itself would accept. */
  lemma DefaultsSatisfySchema()
    ensures PropertiesSchema(DefaultAttrs)
  {
  }

  /** Submitting the form with the current attributes leaves the instance
      as it was. */
  lemma ApplyCurrentIsIdentity(element: Instance, current: ParagraphAttrs)
    requires element.extra == Some(ParagraphBag(current))
    ensures ApplyChanges(element, current) == element
  {
  }

  /** Of two edits the later wins. */
  lemma LastEditWins(element: Instance, first: ParagraphAttrs, second: ParagraphAttrs)
    ensures ApplyChanges(ApplyChanges(element, first), second) == ApplyChanges(element, second)
  {
  }

  /** An edit keeps a Paragraph instance well shaped. */
  lemma EditKeepsShape(element: Instance, values: ParagraphAttrs)
    requires element.kind == Kind.ParagraphField
    ensures Shaped(ApplyChanges(element, values))
  {
  }
}
