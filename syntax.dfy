/**
 * The part of a parsed item declaration that the `Builder` derive receives:
 * the item's name and its data (struct, enum or union). Names are plain strings;
 * spans and token rendering are not modelled.
 */
module Syntax {

  /** A type expression as written: a path and its generic arguments, e.g. `Vec<String>`. */
  datatype Ty = Path(name: string, args: seq<Ty>)

  /** An outer attribute such as `#[builder(each = "arg")]`, kept as raw, unparsed text. */
  datatype Attribute = Attribute(path: string, tokens: string)

  /** A named field: identifier, declared type and the attributes written on it. */
  datatype Field = Field(ident: string, ty: Ty, attrs: seq<Attribute>)

  datatype Fields =
    | Named(named: seq<Field>)
    | Unnamed(unnamed: seq<Ty>)
    | Unit

  datatype Data =
    | Struct(fields: Fields)
    | Enum(variants: seq<string>)
    | Union(unionFields: seq<Field>)

  datatype DeriveInput = DeriveInput(ident: string, data: Data)

  function FieldNames(fields: seq<Field>): seq<string>
  {
    seq(|fields|, i requires 0 <= i < |fields| => fields[i].ident)
  }

  /** No identifier occurs twice; rustc rejects a struct that repeats a field name. */
  predicate DistinctNames(names: seq<string>)
  {
    forall i, j :: 0 <= i < j < |names| ==> names[i] != names[j]
  }
}
