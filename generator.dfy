/**
 * The code generator of the `Builder` derive: `BuilderContext::new` accepts a
 * struct with named fields, and `generate` emits, from its field list, a
 * `<Name>Builder` struct with one `Option` slot per field, one setter per field,
 * a `finish` operation and a `builder()` factory on the original type.
 * The emitted items are described by datatypes; their meaning is in module Semantics.
 */
module Generator {
  import opened Wrappers
  import opened Syntax

  const UnsupportedDataType: string := "Unsupported data type"
  const BuilderSuffix: string := "Builder"
  /** The path every storage field is wrapped in, whatever the declared type. */
  const OptionPath: string := "std::option::Option"
  const NeedsToBeSet: string := " needs to be set!"

  /** What `new` keeps of the input: the struct's name and its named fields, in order. */
  datatype BuilderContext = BuilderContext(name: string, fields: seq<Field>)

  /** A field of the emitted builder struct: `name: std::option::Option<ty>`. */
  datatype StorageField = StorageField(name: string, ty: Ty)

  /** `pub fn name(mut self, v: param) -> Self { self.slot = Some(v); self }` */
  datatype Setter = Setter(name: string, param: Ty, slot: string)

  /** One field of the record literal in `finish`: `field: self.slot.take().ok_or(missing)?` */
  datatype Assign = Assign(field: string, slot: string, missing: string)

  /** `pub fn finish(mut self) -> Result<record, &'static str> { Ok(record { assigns }) }` */
  datatype Finish = Finish(record: string, assigns: seq<Assign>)

  /** `impl owner { fn builder() -> product { Default::default() } }` */
  datatype Factory = Factory(owner: string, product: string)

  /** Everything `generate` emits. */
  datatype Output = Output(
    builderName: string,
    storage: seq<StorageField>,
    setters: seq<Setter>,
    finish: Finish,
    factory: Factory)

  function StorageNames(storage: seq<StorageField>): seq<string>
  {
    seq(|storage|, i requires 0 <= i < |storage| => storage[i].name)
  }

  function SetterNames(setters: seq<Setter>): seq<string>
  {
    seq(|setters|, i requires 0 <= i < |setters| => setters[i].name)
  }

  /** Every `self.slot` that a setter or `finish` mentions is a field of the builder struct. */
  predicate WellFormed(out: Output)
  {
    && (forall s :: s in out.setters ==> s.slot in StorageNames(out.storage))
    && (forall a :: a in out.finish.assigns ==> a.slot in StorageNames(out.storage))
  }

  /** Every field of the builder struct has type `std::option::Option<…>`. */
  predicate AllOptional(storage: seq<StorageField>)
  {
    forall i :: 0 <= i < |storage| ==> storage[i].ty.name == OptionPath
  }

  /** `BuilderContext::new`: only a struct with named fields is accepted; anything else is the panic. */
  function New(input: DeriveInput): (r: Result<BuilderContext, string>)
    ensures r.Ok? <==> input.data.Struct? && input.data.fields.Named?
    ensures r.Ok? ==> r.value.name == input.ident && r.value.fields == input.data.fields.named
    ensures r.Err? ==> r.error == UnsupportedDataType
  {
    match input.data
    case Struct(Named(named)) => Ok(BuilderContext(input.ident, named))
    case _ => Err(UnsupportedDataType)
  }

  /** `fields.iter().map(f)`: one item per field, in field order. */
  function MapFields<T>(fields: seq<Field>, f: Field -> T): (r: seq<T>)
    ensures |r| == |fields|
    ensures forall i :: 0 <= i < |fields| ==> r[i] == f(fields[i])
  {
    if fields == [] then [] else [f(fields[0])] + MapFields(fields[1..], f)
  }

  function OptionOf(t: Ty): Ty
  {
    Path(OptionPath, [t])
  }

  function OptionizedField(f: Field): StorageField
  {
    StorageField(f.ident, OptionOf(f.ty))
  }

  function SetterFor(f: Field): Setter
  {
    Setter(f.ident, f.ty, f.ident)
  }

  function AssignFor(f: Field): Assign
  {
    Assign(f.ident, f.ident, f.ident + NeedsToBeSet)
  }

  /** Storage: each field, same name and position, its declared type wrapped in `Option`
      with no special case for a declared `Option` or `Vec`. */
  function GenOptionizedFields(fields: seq<Field>): (r: seq<StorageField>)
    ensures |r| == |fields|
    ensures StorageNames(r) == FieldNames(fields)
    ensures forall i :: 0 <= i < |fields| ==> r[i].ty == Path(OptionPath, [fields[i].ty])
  {
    MapFields(fields, OptionizedField)
  }

  /** Setters: one per field, named after it, in field order, taking the full declared
      type and assigning that field's own slot. */
  function GenMethods(fields: seq<Field>): (r: seq<Setter>)
    ensures |r| == |fields|
    ensures SetterNames(r) == FieldNames(fields)
    ensures forall i :: 0 <= i < |fields| ==> r[i].param == fields[i].ty && r[i].slot == fields[i].ident
  {
    MapFields(fields, SetterFor)
  }

  /** Assignments of `finish`: every field is required; it is filled from its own slot,
      and its error message is the field name followed by " needs to be set!". */
  function GenAssigns(fields: seq<Field>): (r: seq<Assign>)
    ensures |r| == |fields|
    ensures forall i :: 0 <= i < |fields| ==>
      && r[i].field == fields[i].ident
      && r[i].slot == fields[i].ident
      && r[i].missing == fields[i].ident + " needs to be set!"
  {
    MapFields(fields, AssignFor)
  }

  /** `generate`. */
  function Generate(ctx: BuilderContext): (out: Output)
    ensures out.builderName == ctx.name + "Builder"
    ensures |out.storage| == |out.setters| == |out.finish.assigns| == |ctx.fields|
    ensures StorageNames(out.storage) == SetterNames(out.setters) == FieldNames(ctx.fields)
    ensures out.finish.record == ctx.name
    ensures out.factory == Factory(ctx.name, out.builderName)
    ensures WellFormed(out)
  {
    var builderName := ctx.name + BuilderSuffix;
    var storage := GenOptionizedFields(ctx.fields);
    var setters := GenMethods(ctx.fields);
    var assigns := GenAssigns(ctx.fields);
    assert forall i :: 0 <= i < |setters| ==> setters[i].slot == StorageNames(storage)[i];
    assert forall i :: 0 <= i < |assigns| ==> assigns[i].slot == StorageNames(storage)[i];
    Output(builderName, storage, setters, Finish(ctx.name, assigns), Factory(ctx.name, builderName))
  }

  function StripAttributes(fields: seq<Field>): seq<Field>
  {
    seq(|fields|, i requires 0 <= i < |fields| => Field(fields[i].ident, fields[i].ty, []))
  }

  /** The generator never reads field attributes: `#[builder(each = …, default = …)]`
      changes nothing in the output. */
  lemma AttributesAreIgnored(ctx: BuilderContext)
    ensures Generate(ctx) == Generate(BuilderContext(ctx.name, StripAttributes(ctx.fields)))
  {
  }
}
