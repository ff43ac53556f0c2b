/** The shapes shared by every field kind: the closed set of kinds, the
    discriminant strings, the typed attribute bags and the instance record
    (components/FormElements.tsx, lines 14-20). */
module Elements {

  datatype Option<T> = None | Some(value: T)

  /** The closed union `ElementsType`: exactly these eleven kinds. */
  datatype Kind =
    | TextField
    | TitleField
    | SubTitleField
    | ParagraphField
    | SeparatorField
    | SpacerField
    | NumberField
    | TextAreaField
    | DateField
    | SelectField
    | CheckBoxField

  /** The string literal that stands for a kind in an instance's `type`. */
  function KindName(k: Kind): string {
    match k
    case TextField => "TextField"
    case TitleField => "TitleField"
    case SubTitleField => "SubTitleField"
    case ParagraphField => "ParagraphField"
    case SeparatorField => "SeparatorField"
    case SpacerField => "SpacerField"
    case NumberField => "NumberField"
    case TextAreaField => "TextAreaField"
    case DateField => "DateField"
    case SelectField => "SelectField"
    case CheckBoxField => "CheckBoxField"
  }

  /** The kinds in the order the union type lists them. */
  const AllKinds: seq<Kind> :=
    [TextField, TitleField, SubTitleField, ParagraphField, SeparatorField, SpacerField,
     NumberField, TextAreaField, DateField, SelectField, CheckBoxField]

  /** The union is closed: it lists eleven pairwise distinct kinds and every
      kind is among them. */
  lemma KindsClosed()
    ensures |AllKinds| == 11
    ensures forall k: Kind :: k in AllKinds
    ensures forall i, j :: 0 <= i < j < |AllKinds| ==> AllKinds[i] != AllKinds[j]
  {
    forall k: Kind
      ensures k in AllKinds
    {
      var i :=
        match k
        case TextField => 0
        case TitleField => 1
        case SubTitleField => 2
        case ParagraphField => 3
        case SeparatorField => 4
        case SpacerField => 5
        case NumberField => 6
        case TextAreaField => 7
        case DateField => 8
        case SelectField => 9
        case CheckBoxField => 10;
      assert AllKinds[i] == k;
    }
  }

  /** No two kinds share a discriminant string, so the string in `type`
      determines the kind. */
  lemma KindNamesDistinct(k1: Kind, k2: Kind)
    ensures KindName(k1) == KindName(k2) <==> k1 == k2
  {
  }

  /** A primitive value in an attribute record whose shape is not modelled. */
  datatype Primitive = Str(s: string) | Num(n: int) | Bool(b: bool)

  /** JavaScript truthiness of a primitive used as an `if` condition. */
  predicate Truthy(p: Primitive) {
    match p
    case Str(s) => |s| > 0
    case Num(n) => n != 0
    case Bool(b) => b
  }

  /** The `extraAttributes` of each modelled kind, one typed record per kind. */
  datatype TextAreaAttrs = TextAreaAttrs(labelText: string, helperText: string, required: bool, placeHolder: string, rows: int)
  datatype NumberAttrs = NumberAttrs(labelText: string, helperText: string, required: bool, placeHolder: string)
  datatype SpacerAttrs = SpacerAttrs(height: int)
  datatype SubTitleAttrs = SubTitleAttrs(subTitle: string)
  datatype TitleAttrs = TitleAttrs(title: string)
  datatype ParagraphAttrs = ParagraphAttrs(text: string)

  /** The attribute bag `Record<string, any>` as a tagged union over the
      per-kind records; `RecordBag` holds the bags of the kinds whose field
      modules are not part of this model. */
  datatype Attributes =
    | TextAreaBag(textArea: TextAreaAttrs)
    | NumberBag(number: NumberAttrs)
    | SpacerBag(spacer: SpacerAttrs)
    | SubTitleBag(subTitle: SubTitleAttrs)
    | TitleBag(title: TitleAttrs)
    | ParagraphBag(paragraph: ParagraphAttrs)
    | RecordBag(fields: map<string, Primitive>)

  /** `FormElementInstance`: an id, a kind and an optional attribute bag. */
  datatype Instance = Instance(id: string, kind: Kind, extra: Option<Attributes>)

  /** What `extraAttributes.required` yields as an `if` condition: the flag of
      a bag that has one, `undefined` (false) for a bag without it. */
  predicate Required(a: Attributes) {
    match a
    case TextAreaBag(t) => t.required
    case NumberBag(n) => n.required
    case RecordBag(m) => "required" in m && Truthy(m["required"])
    case _ => false
  }

  /** The bag an instance carries is the one its kind declares. */
  predicate Shaped(inst: Instance) {
    match inst.kind
    case TextAreaField => inst.extra.Some? && inst.extra.value.TextAreaBag?
    case NumberField => inst.extra.Some? && inst.extra.value.NumberBag?
    case SpacerField => inst.extra.Some? && inst.extra.value.SpacerBag?
    case SubTitleField => inst.extra.Some? && inst.extra.value.SubTitleBag?
    case TitleField => inst.extra.Some? && inst.extra.value.TitleBag?
    case ParagraphField => inst.extra.Some? && inst.extra.value.ParagraphBag?
    case SeparatorField => inst.extra.None?
    case _ => inst.extra.None? || inst.extra.value.RecordBag?
  }
}

/** The registry `FormElements`: a total table from kind to behaviour bundle
    (components/FormElements.tsx, lines 22-61). */
module FormElements {
  import opened Elements
  import TextAreaFieldElement
  import NumberFieldElement
  import SpacerFieldElement
  import SubTitleFieldElement
  import TitleFieldElement
  import ParagraphFieldElement
  import SeparatorFieldElement

  /** The behaviour of one kind that carries no presentation: its tag, its
      constructor and its validator. */
  datatype FormElement = FormElement(
    kind: Kind,
    construct: string -> Instance,
    validate: (Instance, string) --> bool)

  /** The bundles of the four kinds whose field modules are not part of this
      model; the registry treats them as given. */
  datatype Unshown = Unshown(text: FormElement, date: FormElement, select: FormElement, checkBox: FormElement)

  /** The kinds whose bundles are modelled here. */
  predicate Shown(k: Kind) {
    !(k.TextField? || k.DateField? || k.SelectField? || k.CheckBoxField?)
  }

  /** The kinds that take no input and never produce a submitted value. */
  predicate NonInput(k: Kind) {
    k.TitleField? || k.SubTitleField? || k.ParagraphField? || k.SeparatorField? || k.SpacerField?
  }

  /** The unmodelled bundles carry their own tags. */
  predicate Conforms(u: Unshown) {
    u.text.kind == TextField && u.date.kind == DateField
    && u.select.kind == SelectField && u.checkBox.kind == CheckBoxField
  }

  /** `FormElements[k]`: every kind has an entry, and a modelled entry (or a
      conforming unmodelled one) carries the kind it is filed under. */
  function Registry(k: Kind, unshown: Unshown): (e: FormElement)
    ensures Shown(k) ==> e.kind == k
    ensures Conforms(unshown) ==> e.kind == k
  {
    match k
    case TextField => unshown.text
    case TitleField => FormElement(TitleField, TitleFieldElement.Construct, TitleFieldElement.Validate)
    case SubTitleField => FormElement(SubTitleField, SubTitleFieldElement.Construct, SubTitleFieldElement.Validate)
    case ParagraphField => FormElement(ParagraphField, ParagraphFieldElement.Construct, ParagraphFieldElement.Validate)
    case SeparatorField => FormElement(SeparatorField, SeparatorFieldElement.Construct, SeparatorFieldElement.Validate)
    case SpacerField => FormElement(SpacerField, SpacerFieldElement.Construct, SpacerFieldElement.Validate)
    case NumberField => FormElement(NumberField, NumberFieldElement.Construct, NumberFieldElement.Validate)
    case TextAreaField => FormElement(TextAreaField, TextAreaFieldElement.Construct, TextAreaFieldElement.Validate)
    case DateField => unshown.date
    case SelectField => unshown.select
    case CheckBoxField => unshown.checkBox
  }

  /** Constructing through a modelled entry keeps the id, tags the instance
      with the kind and attaches the bag that kind declares. */
  lemma ConstructThroughRegistry(k: Kind, id: string, unshown: Unshown)
    requires Shown(k)
    ensures Registry(k, unshown).construct(id).id == id
    ensures Registry(k, unshown).construct(id).kind == k
    ensures Shaped(Registry(k, unshown).construct(id))
  {
  }

  /** Title, SubTitle, Paragraph, Separator and Spacer accept every instance
      and every value, the empty string included. */
  lemma NonInputAlwaysValid(k: Kind, unshown: Unshown, inst: Instance, value: string)
    requires NonInput(k)
    ensures Registry(k, unshown).validate.requires(inst, value)
    ensures Registry(k, unshown).validate(inst, value)
  {
  }

  /** TextArea and Number dispatch to the required-field policy: a required
      bag accepts exactly the non-empty values, any other bag accepts all. */
  lemma InputKindsRequiredPolicy(k: Kind, unshown: Unshown, inst: Instance, value: string)
    requires k.TextAreaField? || k.NumberField?
    requires inst.extra.Some?
    ensures Registry(k, unshown).validate.requires(inst, value)
    ensures Registry(k, unshown).validate(inst, value) <==> (!Required(inst.extra.value) || |value| > 0)
  {
  }

  /** A freshly constructed instance of a modelled kind accepts the empty
      value: no modelled kind is required by default. */
  lemma FreshInstanceAcceptsEmpty(k: Kind, id: string, unshown: Unshown)
    requires Shown(k)
    ensures Registry(k, unshown).validate.requires(Registry(k, unshown).construct(id), "")
    ensures Registry(k, unshown).validate(Registry(k, unshown).construct(id), "")
  {
  }

  /** Validation reads only the attribute bag and the value: renaming or
      retagging the instance does not change the verdict. */
  lemma ValidateIgnoresIdentity(k: Kind, unshown: Unshown, inst: Instance, id: string, kind: Kind, value: string)
    requires Shown(k)
    requires Registry(k, unshown).validate.requires(inst, value)
    ensures Registry(k, unshown).validate.requires(inst.(id := id, kind := kind), value)
    ensures Registry(k, unshown).validate(inst.(id := id, kind := kind), value) == Registry(k, unshown).validate(inst, value)
  {
  }
}
