/** The Separator field kind (components/fields/SeparatorField.tsx): no
    attributes, no properties, no input. */
module SeparatorFieldElement {
  import opened Elements

  /** `construct(id)`: a Separator instance with that id and no bag at all. */
  function Construct(id: string): (inst: Instance)
    ensures inst.id == id && inst.kind == Kind.SeparatorField
    ensures inst.extra.None? && Shaped(inst)
  {
    Instance(id, Kind.SeparatorField, None)
  }

  /** `validate`: a Separator takes no input and accepts everything. */
  function Validate(element: Instance, currentValue: string): (valid: bool)
    ensures valid
  {
    true
  }
}
