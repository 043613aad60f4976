/**
 * The `Command` struct of the example program, run through the generator and
 * the builder it emits. Its `#[builder(each = …, default = …)]` attributes are
 * carried in the declaration, but the generator does not read them: `args` and
 * `env` get whole-value setters and, like `current_dir: Option<String>`, are
 * required by `finish`.
 */
module CommandExample {
  import opened Wrappers
  import opened Syntax
  import opened Generator
  import opened Semantics
  import opened Runtime

  const StringTy: Ty := Path("String", [])

  const CommandFields: seq<Field> := [
    Field("executable", StringTy, []),
    Field("args", Path("Vec", [StringTy]),
      [Attribute("builder", "each = \"arg\", default = \"Default::default()\"")]),
    Field("env", Path("Vec", [StringTy]),
      [Attribute("builder", "each = \"env\", default = \"vec![\\\"RUST_LOG=info\\\".into()]\"")]),
    Field("current_dir", Path("Option", [StringTy]), [])
  ]

  const CommandDecl: DeriveInput := DeriveInput("Command", Struct(Named(CommandFields)))

  /** The run-time values of the four field types. */
  datatype Value = Text(text: string) | Texts(items: seq<string>) | MaybeText(maybe: Option<string>)

  lemma CommandContext()
    ensures New(CommandDecl) == Ok(BuilderContext("Command", CommandFields))
    ensures FieldNames(CommandFields) == ["executable", "args", "env", "current_dir"]
    ensures DistinctNames(FieldNames(CommandFields))
  {
  }

  lemma ArgsMessage()
    ensures "args" + NeedsToBeSet == "args needs to be set!"
  {
  }

  lemma SeqOfFour<T>(s: seq<T>)
    requires |s| == 4
    ensures s == [s[0], s[1], s[2], s[3]]
  {
  }

  /** `Command::builder().executable("find").current_dir("/user/davirain").finish()`. */
  method ExampleMain() returns (r: Result<Record<Value>, string>)
    ensures r == Err("args needs to be set!")
  {
    CommandContext();
    var ctx := New(CommandDecl).value;
    FactoryLeavesAllUnset<Value>(ctx);
    var b := new Builder<Value>(Generate(ctx));
    SetterWritesOnlyItsSlot(ctx, 0, b.slots, Text("find"));
    b.Set("executable", Text("find"));
    SetterWritesOnlyItsSlot(ctx, 3, b.slots, MaybeText(Some("/user/davirain")));
    b.Set("current_dir", MaybeText(Some("/user/davirain")));
    r := b.Finish();
    assert FirstUnset(b.slots) == 1;
    FinishAllOrFirstUnset(ctx, b.slots);
    ArgsMessage();
  }

  const FullRecord: Record<Value> := Record("Command", [
    FieldValue("executable", Text("find")),
    FieldValue("args", Texts(["-c", "-vv"])),
    FieldValue("env", Texts([])),
    FieldValue("current_dir", MaybeText(None))])

  lemma FinishFullySet(slots: seq<Option<Value>>)
    requires slots == [Some(Text("find")), Some(Texts(["-c", "-vv"])), Some(Texts([])), Some(MaybeText(None))]
    ensures RunFinish(Generate(BuilderContext("Command", CommandFields)), slots) == Ok(FullRecord)
  {
    CommandContext();
    var ctx := BuilderContext("Command", CommandFields);
    assert FirstUnset(slots) == 4;
    FinishAllOrFirstUnset(ctx, slots);
    SeqOfFour(RunFinish(Generate(ctx), slots).value.fields);
  }

  /** With all four fields set, `finish` gives the record, field by field from the slots. */
  method ExampleEveryFieldSet() returns (r: Result<Record<Value>, string>)
    ensures r == Ok(FullRecord)
  {
    CommandContext();
    var ctx := New(CommandDecl).value;
    FactoryLeavesAllUnset<Value>(ctx);
    var b := new Builder<Value>(Generate(ctx));
    SetterWritesOnlyItsSlot(ctx, 0, b.slots, Text("find"));
    b.Set("executable", Text("find"));
    SetterWritesOnlyItsSlot(ctx, 1, b.slots, Texts(["-c", "-vv"]));
    b.Set("args", Texts(["-c", "-vv"]));
    SetterWritesOnlyItsSlot(ctx, 2, b.slots, Texts([]));
    b.Set("env", Texts([]));
    SetterWritesOnlyItsSlot(ctx, 3, b.slots, MaybeText(None));
    b.Set("current_dir", MaybeText(None));
    SeqOfFour(b.slots);
    FinishFullySet(b.slots);
    r := b.Finish();
  }
}
