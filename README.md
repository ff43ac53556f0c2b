# Form builder field registry, modelled in Dafny

This project models the field-kind registry of a drag-and-drop form builder. A form is made of
field instances, each with an id, a kind tag and an optional bag of kind-specific attributes. The
registry maps each of the eleven kinds to a constructor that builds a fresh instance with default
attributes and to a validator that decides whether a submitted string is acceptable. Every modelled
kind also has a properties schema, which bounds the attributes a user may set in the properties
editor, and an "apply changes" step that rebuilds the instance from the edited values.

Everything in the core is pure, so the model uses datatypes, functions and lemmas only.

- `form_elements.dfy`
  - Module `Elements` holds the closed kind set and the discriminant strings.
  - It also holds one typed record per modelled kind's attribute bag, the tagged union `Attributes` over those records, and the instance record.
  - Module `FormElements` holds the registry: a total `match` from kind to a `FormElement` bundle (tag, constructor, validator).
- One module per field file: `TextAreaFieldElement`, `NumberFieldElement`, `SpacerFieldElement`,
  `SubTitleFieldElement`, `TitleFieldElement`, `ParagraphFieldElement` and `SeparatorFieldElement`.
  Each has its defaults (`DefaultAttrs`), `PropertiesSchema`, `Construct`, `Validate`,
  `ApplyChanges` and `HandleSubmit`. Separator has only `Construct` and `Validate`.

Modelling decisions:

- The kinds TextField, DateField, SelectField and CheckBoxField are in the kind set. Their field
  modules are not part of this model, so the registry takes their bundles as a parameter
  (`Unshown`). Lemmas about modelled kinds hold whatever those bundles are. Attribute bags of those
  kinds are untyped records (`RecordBag`).
- TextArea and Number validation reads `extraAttributes.required` after a type cast.
  - If the instance has no bag at all, that read throws. `Validate` therefore requires a bag, and the registry's validator is a partial function.
  - A bag of another shape has no `required` entry. That reads as `undefined`, which is falsy, so the value is accepted. `Elements.Required` captures this, using JavaScript truthiness for untyped bags.
- The attribute `label` is named `labelText`, because `label` is a Dafny keyword.
- The edit form calls `applyChanges` only through `form.handleSubmit`, which runs the schema first.
  `HandleSubmit` models that gate. `ApplyChanges` itself checks nothing, as in the source.
- `rows` and `height` are integers. The only way to set them is a slider with step 1.

## Model

| member | source | states |
|---|---|---|
| Elements.KindsClosed | components/FormElements.tsx:14 | the kind union is closed: eleven pairwise distinct kinds, and every kind is one of them |
| Elements.KindNamesDistinct | components/FormElements.tsx:14 | two kinds have the same discriminant string exactly when they are the same kind |
| FormElements.Registry | components/FormElements.tsx:45-61 | the table is total (every kind has an entry, no failure path); every modelled entry carries the kind it is filed under, and so does every entry when the unmodelled bundles carry their own tags |
| FormElements.ConstructThroughRegistry | components/FormElements.tsx:24 | for every modelled kind k and id, constructing through entry k gives that id, kind k and the bag kind k declares |
| FormElements.NonInputAlwaysValid | components/FormElements.tsx:51-55 | Title, SubTitle, Paragraph, Separator and Spacer validate true through the registry for every instance and every value, including "" |
| FormElements.InputKindsRequiredPolicy | components/FormElements.tsx:56-57 | through the registry, TextArea and Number accept a value iff the bag is not required or the value is non-empty |
| FormElements.FreshInstanceAcceptsEmpty | components/FormElements.tsx:51-57 | a freshly constructed instance of every modelled kind accepts the empty value |
| FormElements.ValidateIgnoresIdentity | components/FormElements.tsx:41 | for every modelled kind whose validator accepts the instance, the verdict depends only on the attribute bag and the value, not on the instance's id or tag |
| TextAreaFieldElement.Construct | components/fields/TextAreaField.tsx:223-227 | the instance has the given id, the TextArea kind and the bag {label "Text Area field", helperText "Helper text", required false, placeHolder "Value Here...", rows 3}; it is well shaped and its bag passes the schema |
| TextAreaFieldElement.Validate | components/fields/TextAreaField.tsx:232-238 | if required, valid iff the value is non-empty; if not required, valid for every value |
| TextAreaFieldElement.ApplyChanges | components/fields/TextAreaField.tsx:79-90 | id and kind are kept; the bag becomes exactly the five edited values |
| TextAreaFieldElement.HandleSubmit | components/fields/TextAreaField.tsx:34-40 | the edit is applied exactly when label has 2 to 50 characters, helperText at most 200, placeHolder at most 50 and rows is 1 to 10 |
| TextAreaFieldElement.DefaultsSatisfySchema | components/fields/TextAreaField.tsx:27-40 | the default attributes pass the properties schema |
| TextAreaFieldElement.SchemaBounds | components/fields/TextAreaField.tsx:34-40 | the schema's bounds are tight: rows 0 or 11, a one-character label, or one character over a maximum length is rejected |
| TextAreaFieldElement.FreshAcceptsEmpty | components/fields/TextAreaField.tsx:30 | a fresh TextArea field is not required, so it accepts "" |
| TextAreaFieldElement.ApplyCurrentIsIdentity | components/fields/TextAreaField.tsx:66-90 | applying the instance's own current values (the edit form's defaults) changes nothing |
| TextAreaFieldElement.LastEditWins | components/fields/TextAreaField.tsx:79-90 | a later edit replaces an earlier one entirely (no merge) |
| TextAreaFieldElement.EditThenValidateEmpty | components/fields/TextAreaField.tsx:79-90 | an edited TextArea instance stays well shaped and then rejects "" exactly when the edit set required |
| NumberFieldElement.Construct | components/fields/NumberField.tsx:205-209 | the instance has the given id, the Number kind and the bag {label "Number field", helperText "Helper text", required false, placeHolder "0"}; it is well shaped and its bag passes the schema |
| NumberFieldElement.Validate | components/fields/NumberField.tsx:214-220 | if required, valid iff the value is non-empty (numeric or not); if not required, valid for every value |
| NumberFieldElement.ApplyChanges | components/fields/NumberField.tsx:75-85 | id and kind are kept; the bag becomes exactly the four edited values |
| NumberFieldElement.HandleSubmit | components/fields/NumberField.tsx:32-37 | the edit is applied exactly when label has 2 to 50 characters, helperText at most 200 and placeHolder at most 50 |
| NumberFieldElement.DefaultsSatisfySchema | components/fields/NumberField.tsx:26-37 | the default attributes pass the properties schema |
| NumberFieldElement.FreshAcceptsEmpty | components/fields/NumberField.tsx:29 | a fresh Number field is not required, so it accepts "" |
| NumberFieldElement.RequiredAcceptsNonNumeric | components/fields/NumberField.tsx:214-218 | a required Number field accepts "abc" and rejects "": presence is checked, not numeric form |
| NumberFieldElement.ApplyCurrentIsIdentity | components/fields/NumberField.tsx:63-85 | applying the instance's own current values (the edit form's defaults) changes nothing |
| NumberFieldElement.LastEditWins | components/fields/NumberField.tsx:75-85 | a later edit replaces an earlier one entirely (no merge) |
| NumberFieldElement.EditThenValidateEmpty | components/fields/NumberField.tsx:75-85 | an edited Number instance stays well shaped and then rejects "" exactly when the edit set required |
| SpacerFieldElement.Construct | components/fields/SpacerField.tsx:109-113 | the instance has the given id, the Spacer kind and the default bag {height 20}, is well shaped, and the defaults pass the properties schema |
| SpacerFieldElement.Validate | components/fields/SpacerField.tsx:118 | a Spacer field accepts every instance and every value, the empty string included |
| SpacerFieldElement.ApplyChanges | components/fields/SpacerField.tsx:61-68 | id and kind are kept; the bag becomes exactly the edited record and nothing else |
| SpacerFieldElement.HandleSubmit | components/fields/SpacerField.tsx:26-28 | the edit is applied exactly when the edited values pass the schema (height from 5 to 200) |
| SpacerFieldElement.DefaultsSatisfySchema | components/fields/SpacerField.tsx:23-28 | the default attributes pass the properties schema |
| SpacerFieldElement.ApplyCurrentIsIdentity | components/fields/SpacerField.tsx:52-68 | applying the instance's own current values (the edit form's defaults) changes nothing |
| SpacerFieldElement.LastEditWins | components/fields/SpacerField.tsx:61-68 | a later edit replaces an earlier one entirely (no merge) |
| SpacerFieldElement.EditKeepsShape | components/fields/SpacerField.tsx:61-68 | an edited instance of this kind still carries this kind's bag |
| SubTitleFieldElement.Construct | components/fields/SubTitle.tsx:111-115 | the instance has the given id, the SubTitle kind and the default bag {subTitle "SubTitle field"}, is well shaped, and the defaults pass the properties schema |
| SubTitleFieldElement.Validate | components/fields/SubTitle.tsx:120 | a SubTitle field accepts every instance and every value, the empty string included |
| SubTitleFieldElement.ApplyChanges | components/fields/SubTitle.tsx:61-68 | id and kind are kept; the bag becomes exactly the edited record and nothing else |
| SubTitleFieldElement.HandleSubmit | components/fields/SubTitle.tsx:26-28 | the edit is applied exactly when the edited values pass the schema (subTitle of 2 to 50 characters) |
| SubTitleFieldElement.DefaultsSatisfySchema | components/fields/SubTitle.tsx:23-28 | the default attributes pass the properties schema |
| SubTitleFieldElement.ApplyCurrentIsIdentity | components/fields/SubTitle.tsx:52-68 | applying the instance's own current values (the edit form's defaults) changes nothing |
| SubTitleFieldElement.LastEditWins | components/fields/SubTitle.tsx:61-68 | a later edit replaces an earlier one entirely (no merge) |
| SubTitleFieldElement.EditKeepsShape | components/fields/SubTitle.tsx:61-68 | an edited instance of this kind still carries this kind's bag |
| TitleFieldElement.Construct | components/fields/TitleField.tsx:111-115 | the instance has the given id, the Title kind and the default bag {title "Title field"}, is well shaped, and the defaults pass the properties schema |
| TitleFieldElement.Validate | components/fields/TitleField.tsx:120 | a Title field accepts every instance and every value, the empty string included |
| TitleFieldElement.ApplyChanges | components/fields/TitleField.tsx:61-68 | id and kind are kept; the bag becomes exactly the edited record and nothing else |
| TitleFieldElement.HandleSubmit | components/fields/TitleField.tsx:26-28 | the edit is applied exactly when the edited values pass the schema (title of 2 to 50 characters) |
| TitleFieldElement.DefaultsSatisfySchema | components/fields/TitleField.tsx:23-28 | the default attributes pass the properties schema |
| TitleFieldElement.ApplyCurrentIsIdentity | components/fields/TitleField.tsx:52-68 | applying the instance's own current values (the edit form's defaults) changes nothing |
| TitleFieldElement.LastEditWins | components/fields/TitleField.tsx:61-68 | a later edit replaces an earlier one entirely (no merge) |
| TitleFieldElement.EditKeepsShape | components/fields/TitleField.tsx:61-68 | an edited instance of this kind still carries this kind's bag |
| ParagraphFieldElement.Construct | components/fields/ParagraphField.tsx:109-113 | the instance has the given id, the Paragraph kind and the default bag {text "Text"}, is well shaped, and the defaults pass the properties schema |
| ParagraphFieldElement.Validate | components/fields/ParagraphField.tsx:118 | a Paragraph field accepts every instance and every value, the empty string included |
| ParagraphFieldElement.ApplyChanges | components/fields/ParagraphField.tsx:59-66 | id and kind are kept; the bag becomes exactly the edited record and nothing else |
| ParagraphFieldElement.HandleSubmit | components/fields/ParagraphField.tsx:25-27 | the edit is applied exactly when the edited values pass the schema (text of 2 to 500 characters) |
| ParagraphFieldElement.DefaultsSatisfySchema | components/fields/ParagraphField.tsx:22-27 | the default attributes pass the properties schema |
| ParagraphFieldElement.ApplyCurrentIsIdentity | components/fields/ParagraphField.tsx:50-66 | applying the instance's own current values (the edit form's defaults) changes nothing |
| ParagraphFieldElement.LastEditWins | components/fields/ParagraphField.tsx:59-66 | a later edit replaces an earlier one entirely (no merge) |
| ParagraphFieldElement.EditKeepsShape | components/fields/ParagraphField.tsx:59-66 | an edited instance of this kind still carries this kind's bag |
| SeparatorFieldElement.Construct | components/fields/SeparatorField.tsx:47-50 | the instance has the given id and the Separator kind, and carries no attribute bag at all |
| SeparatorFieldElement.Validate | components/fields/SeparatorField.tsx:55 | a Separator accepts every instance and every value, the empty string included |

## Left out

- Rendering is not modelled: the designer, form and properties components, their React state and effects, the icons and the palette metadata (`designerBtnElement`).
- The bodies of the TextField, DateField, SelectField and CheckBoxField field modules are not part of this model. The registry takes their bundles as parameters and proves nothing about their behaviour.
- The document list operations (add, remove, move, update) are not modelled. They live in the designer hook, `components/hooks/useDesigner`, which is not part of this model.
- Document serialization is not modelled. It is a bare `JSON.stringify`/`JSON.parse` library call.
- Submission-time validation of a whole form is not modelled. It is done by the submit page, which is not part of this model.
- Persistence, authentication and form statistics (`actions/form.ts`) are not modelled. They are database and identity-provider calls, and the statistics use floating-point division.
- String lengths count Unicode scalar values. JavaScript's `length` counts UTF-16 code units, so the two differ for characters outside the Basic Multilingual Plane.
- `rows` and `height` are integers here. In the source they are JavaScript numbers, and the schema would also accept fractions.
- The schema's `required: z.boolean().default(false)` turns a missing flag into `false`. The typed records always carry the flag, so that default is not modelled.
- TextAreaFieldElement.Validate: the source throws a TypeError when the instance has no attribute bag. Here that case is a precondition (`element.extra.Some?`) instead of a modelled error. Every call site shown reads the bag before validating, so it always has one.
- NumberFieldElement.Validate: the source throws a TypeError when the instance has no attribute bag. Here that case is a precondition (`element.extra.Some?`) instead of a modelled error.
- Sharing of the default bag is not modelled. Each source `construct` attaches the same module-level `extraAttributes` object, so all fresh instances of a kind alias one object. Values cannot express aliasing. In the code shown this is harmless, because `applyChanges` always builds a new bag and never mutates the shared one.
