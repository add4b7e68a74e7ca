/** The field descriptor that the extractor emits and the form renderer consumes. */
module FieldModel {
  import opened Wrappers
  import opened DecodedTree

  /** The closed set of field kinds. */
  datatype Kind = Text | Date | Radio | Drawing

  /**
   * One form field. `labelText` (the source's `label`, a reserved word in Dafny) and `id` hold whatever value was assigned to them:
   * either a fixed text or the decoded `fdtFieldName` attribute, which may be a
   * number, a boolean or a list when the decoder converted it.
   */
  datatype Field = Field(kind: Kind, labelText: AttrValue, id: AttrValue, options: Option<seq<string>>)

  /** Structural validity: a radio field carries a non-empty option list, any other kind carries none. */
  predicate WellFormed(f: Field)
  {
    if f.kind == Radio then f.options.Some? && f.options.value != [] else f.options.None?
  }
}
