# Builder derive: generator and emitted builder, in Dafny

This project models the `Builder` derive macro of `builder/src/builder.rs`. The derive
takes a Rust struct declaration and emits, for a struct `Name`:

- a `NameBuilder` struct that stores every field as `std::option::Option<declared type>`,
  derived with `Default`;
- one setter per field, named after the field. It takes the field's declared type and
  stores `Some(v)`;
- `finish`, which moves every stored value into a `Name` literal. It fails with
  `"<field> needs to be set!"` at the first empty slot;
- `Name::builder()`, which returns `Default::default()` (every slot empty).

The model has two halves:

- **The generator** is pure. `BuilderContext::new` and `generate` are written as
  functions over datatypes (module `Generator`, on the declaration datatypes of module
  `Syntax`).
- **The emitted builder** is imperative. Module `Semantics` gives the meaning of the
  emitted items as functions over a builder value, which is one `Option` slot per
  storage field. Module `Runtime` has the class `Builder<V>`: its constructor is
  `builder()`, `Set` is a setter and updates one slot in place, and `Finish` is a loop
  that returns at the first empty slot. Each method is proved against the `Semantics`
  functions.
- **The proofs** connect the two halves. For every struct with distinct field names:
  - a setter writes only its own slot;
  - the last write wins;
  - `finish` returns the record exactly when every slot is set, with each field taken
    from its slot;
  - otherwise `finish` fails naming the first unset field in declaration order.

The model follows the generator as written. `Option<T>` and `Vec<T>` fields get no
special treatment. The `each = …` and `default = …` attributes that the example program
puts on its fields are never read: `AttributesAreIgnored` proves that the output does
not depend on them. Every field is therefore required by `finish`. A richer design,
with shape detection, accumulator methods and default values, is not what
`builder.rs` does, so it is not modelled. Module `CommandExample` runs the example
program's `Command` struct through the model. Its `main` chain does not compile as
written: it passes the `&str` `"/user/davirain"` to the `current_dir` setter, which
expects `Into<Option<String>>`. The model passes `Some("/user/davirain")` instead.
With that substitution the chain sets only `executable` and `current_dir`, so
`finish` fails with `"args needs to be set!"`.

Values in the builder have the type parameter `V`. Type checking of the emitted code
is the host compiler's concern and is not modelled.

## Model

| member | source | states |
|---|---|---|
| Generator.New | builder/src/builder.rs:21-34 | Accepts exactly a struct with named fields. Anything else (enum, union, tuple struct, unit struct) is the error "Unsupported data type". On success it keeps the struct's name and exactly its named fields, in declaration order. |
| Generator.MapFields | builder/src/builder.rs:75-105 | `fields.iter().map(f)` gives one item per field, item `i` being `f` of field `i`, so order and count are preserved. |
| Generator.GenOptionizedFields | builder/src/builder.rs:75-81 | One storage field per input field, with the same names in the same order. Each type is `std::option::Option<declared type>`, uniformly, even when the declared type is already `Option` or `Vec`. |
| Generator.GenMethods | builder/src/builder.rs:83-95 | One setter per field, named after it and in field order. It takes the full declared type and assigns that field's own slot. |
| Generator.GenAssigns | builder/src/builder.rs:97-105 | One assignment per field, in order. It fills field `i` from slot `i`, and its error message is the field name followed by " needs to be set!". Every field is required. |
| Generator.Generate | builder/src/builder.rs:36-73 | The builder is named `<Name>Builder`. Storage, setters and `finish` assignments each have one entry per field, with the same names in the same order. `finish` builds the original type, `builder()` is placed on the original type and returns the builder type, and every slot mentioned exists. |
| Generator.AttributesAreIgnored | builder/src/builder.rs:75-105 | The output is the same when every field's attributes are removed, so `each`/`default` directives have no effect. |
| Semantics.FirstUnset | builder/src/builder.rs:102 | The position of the first empty slot in declaration order: all slots before it are set, and it is empty unless every slot is set. |
| Semantics.FactoryLeavesAllUnset | builder/src/builder.rs:51-71 | Every storage field of the builder has type `std::option::Option<declared type>`, so `#[derive(Default)]` is defined for it. `builder()` belongs to the original type and returns the builder type. Its `Default` value has one slot per field, and every slot is unset. |
| Semantics.SetterWritesOnlyItsSlot | builder/src/builder.rs:88-92 | The setter named after field `i` exists, sets slot `i` to `Some(v)` and leaves every other slot unchanged. |
| Semantics.LastWriteWins | builder/src/builder.rs:88-92 | Calling the same setter twice equals calling it once with the second value. |
| Semantics.SettersCommute | builder/src/builder.rs:83-95 | Setters of two different fields give the same builder in either order. |
| Semantics.GenerateFollows | builder/src/builder.rs:97-105 | In the generated `finish`, assignment `i` fills field `i` from slot `i` and reports field `i` by name. |
| Semantics.RunAssignsAllSet | builder/src/builder.rs:60-62 | When every slot from `i` on is set, the rest of the record literal succeeds and holds exactly those fields with their slot values, in order. |
| Semantics.RunAssignsFirstUnset | builder/src/builder.rs:102 | When slot `k` is the first empty one from `i` on, the literal stops there with field `k`'s "needs to be set!" error. |
| Semantics.FinishAllOrFirstUnset | builder/src/builder.rs:59-63 | `finish` is all or first error. With every slot set, it returns the original type with each field equal to its slot's value, in declaration order. Otherwise it returns `Err("<first unset field> needs to be set!")`. |
| Semantics.FinishOkIffAllSet | builder/src/builder.rs:59-63 | `finish` returns `Ok` if and only if every slot is set. |
| Semantics.FreshBuilderFinish | builder/src/builder.rs:67-71 | A builder straight from `builder()` fails naming the first field. It gives the empty record when the struct has no fields. |
| Runtime.Builder.constructor | builder/src/builder.rs:67-71 | `builder()`: a builder for the given emitted code with every slot unset. |
| Runtime.Builder.Set | builder/src/builder.rs:89-92 | The setter updates the builder in place: the new slots are the old ones with the setter's slot set to `Some(v)`. |
| Runtime.Builder.Finish | builder/src/builder.rs:59-63 | The loop over the assignments returns exactly what the emitted `finish` means: the record, or the first missing field's error. |
| CommandExample.CommandContext | builder/examples/command.rs:4-12 | `new` accepts `Command` and keeps its four fields, whose names are distinct, in order. |
| CommandExample.ExampleMain | builder/examples/command.rs:14-21 | The `main` chain, with `current_dir` given `Some("/user/davirain")` in place of the `&str` that does not compile, gives `Err("args needs to be set!")`, because `args` is required despite its attributes. |
| CommandExample.ExampleEveryFieldSet | builder/src/builder.rs:59-63 | With all four `Command` fields set, `finish` gives the `Command` record holding exactly the values set. |

## Left out

- Token machinery is not modelled: `syn` parsing, `quote!`, spans, `Ident::new`, `concat!`/`stringify!`. Names are strings and emitted items are datatypes, because rendering them as Rust text is a library concern.
- `impl Into<T>` conversions on setter arguments are not modelled. The argument already has the field's type, so the model cannot express a call for which no conversion exists.
- CommandExample.ExampleMain: builder/examples/command.rs:20 does not compile as written. It passes a `&str` to a setter expecting `Into<Option<String>>`, and Rust has no conversion from `&str` to `Option<String>`. The model passes `Some("/user/davirain")` in its place.
- The declaration's generics, where clause and visibility are not modelled. `new` discards them (builder/src/builder.rs:21-33), so the builder and the `impl` emitted for a generic struct lack its type parameters and would not compile.
- Semantics.DefaultSlots: gives `Default::default()` a meaning only for `std::option::Option` storage fields, whose default is `None`. Every generated builder has only such fields.
- The capitalised `Impl` in the emitted setter signature (builder/src/builder.rs:89) is not modelled. It is a token-level defect in the emitted text and does not change the builder's logic.
- `take()` emptying the slots in `finish` is not modelled. `finish` consumes the builder, so the emptied state is never observable.
- `#[derive(Debug)]` on the context and on the builder, and the `Debug` output, are left out.
- The proc-macro entry point that calls `new` and `generate` is not part of this model.
- The example program's `println!` is left out.
- `new` rejects a declaration with a panic at build time. The model returns the error value `Err("Unsupported data type")` instead.
- Semantics.SetterWritesOnlyItsSlot: assumes distinct field names. rustc rejects a struct that repeats a field name, and the emitted builder struct would repeat it too.
- Semantics.SettersCommute: assumes distinct field names, for the same reason.
- Semantics.GenerateFollows: assumes distinct field names, for the same reason.
- Semantics.FinishAllOrFirstUnset: assumes distinct field names, for the same reason.
- Semantics.FinishOkIffAllSet: assumes distinct field names, for the same reason.
- Semantics.FreshBuilderFinish: assumes distinct field names, for the same reason.
- Runtime.Builder.Set: takes the setter's name as an argument. The emitted code has one method per field, which is the same dispatch done at compile time, and calling a setter that does not exist is a compile error there.
