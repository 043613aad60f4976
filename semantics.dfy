/**
 * What the emitted code does when the consuming program runs it. A builder
 * value is its sequence of slots, one `Option` per storage field. `builder()`
 * returns `Default::default()`, which leaves every slot `None`; a setter
 * writes `Some(v)` into the slot it names; `finish` walks its assignments in
 * order, and the `?` after `ok_or` returns at the first empty slot.
 */
module Semantics {
  import opened Wrappers
  import opened Syntax
  import opened Generator

  datatype FieldValue<V> = FieldValue(name: string, value: V)

  /** A value of the original struct: its type name and its fields in literal order. */
  datatype Record<V> = Record(typeName: string, fields: seq<FieldValue<V>>)

  /** Resolves `self.name` to the position of the first field so named. */
  function IndexOf(names: seq<string>, x: string): (i: nat)
    requires x in names
    ensures i < |names| && names[i] == x
    ensures forall j :: 0 <= j < i ==> names[j] != x
  {
    if names[0] == x then 0 else 1 + IndexOf(names[1..], x)
  }

  /** `Default::default()` of a storage field: defined here only for an
      `std::option::Option<T>` field, whose default is `None`. */
  function OptionDefault<V>(field: StorageField): Option<V>
    requires field.ty.name == OptionPath
  {
    None
  }

  /** The slots of `#[derive(Default)]` on a builder struct whose fields are all optional. */
  function DefaultSlots<V>(storage: seq<StorageField>): seq<Option<V>>
    requires AllOptional(storage)
  {
    seq(|storage|, i requires 0 <= i < |storage| => OptionDefault(storage[i]))
  }

  /** Calling the setter called `setterName` with `v`. */
  function CallSetter<V>(code: Output, setterName: string, slots: seq<Option<V>>, v: V): (r: seq<Option<V>>)
    requires WellFormed(code) && |slots| == |code.storage|
    requires setterName in SetterNames(code.setters)
  {
    var setter := code.setters[IndexOf(SetterNames(code.setters), setterName)];
    assert setter in code.setters;
    slots[IndexOf(StorageNames(code.storage), setter.slot) := Some(v)]
  }

  /** Puts the assignments already evaluated in front of the outcome of the rest. */
  function Prepend<V>(done: seq<FieldValue<V>>, rest: Result<seq<FieldValue<V>>, string>): Result<seq<FieldValue<V>>, string>
  {
    match rest
    case Ok(fields) => Ok(done + fields)
    case Err(e) => Err(e)
  }

  lemma PrependNothing<V>(rest: Result<seq<FieldValue<V>>, string>)
    ensures Prepend([], rest) == rest
    ensures rest.Ok? ==> Prepend(rest.value, Ok([])) == rest
  {
    if rest.Ok? {
      assert [] + rest.value == rest.value + [] == rest.value;
    }
  }

  lemma PrependTwice<V>(a: seq<FieldValue<V>>, b: seq<FieldValue<V>>, rest: Result<seq<FieldValue<V>>, string>)
    ensures Prepend(a, Prepend(b, rest)) == Prepend(a + b, rest)
  {
    if rest.Ok? {
      assert a + (b + rest.value) == (a + b) + rest.value;
    }
  }

  /** The record literal of `finish` from assignment `i` on. */
  function RunAssigns<V>(code: Output, slots: seq<Option<V>>, i: nat): Result<seq<FieldValue<V>>, string>
    requires WellFormed(code) && |slots| == |code.storage|
    requires i <= |code.finish.assigns|
    decreases |code.finish.assigns| - i
  {
    if i == |code.finish.assigns| then Ok([])
    else
      var a := code.finish.assigns[i];
      assert a in code.finish.assigns;
      var slot := slots[IndexOf(StorageNames(code.storage), a.slot)];
      if slot.None? then Err(a.missing)
      else Prepend([FieldValue(a.field, slot.value)], RunAssigns(code, slots, i + 1))
  }

  /** The result of `finish`. */
  function RunFinish<V>(code: Output, slots: seq<Option<V>>): Result<Record<V>, string>
    requires WellFormed(code) && |slots| == |code.storage|
  {
    match RunAssigns(code, slots, 0)
    case Ok(fields) => Ok(Record(code.finish.record, fields))
    case Err(e) => Err(e)
  }

  /** The position of the first unset slot, or the number of slots when all are set. */
  function FirstUnset<V>(slots: seq<Option<V>>): (k: nat)
    ensures k <= |slots|
    ensures forall j :: 0 <= j < k ==> slots[j].Some?
    ensures k < |slots| ==> slots[k].None?
  {
    if slots == [] || slots[0].None? then 0 else 1 + FirstUnset(slots[1..])
  }

  // ---------------------------------------------------------------------------
  // The code that `generate` emits, run against a builder value.
  // ---------------------------------------------------------------------------

  lemma IndexOfDistinct(names: seq<string>, i: nat)
    requires DistinctNames(names) && i < |names|
    ensures IndexOf(names, names[i]) == i
  {
  }

  /** `builder()` gives one slot per field of the struct, every one unset. */
  lemma FactoryLeavesAllUnset<V>(ctx: BuilderContext)
    ensures var out := Generate(ctx);
      && (forall i :: 0 <= i < |out.storage| ==> out.storage[i].ty == Path(OptionPath, [ctx.fields[i].ty]))
      && AllOptional(out.storage)
      && out.factory.owner == ctx.name
      && out.factory.product == ctx.name + "Builder"
      && |DefaultSlots<V>(out.storage)| == |ctx.fields|
      && forall i :: 0 <= i < |ctx.fields| ==> DefaultSlots<V>(out.storage)[i].None?
  {
  }

  /** The setter named after field `i` sets slot `i` to `Some(v)` and leaves every other slot as it was. */
  lemma SetterWritesOnlyItsSlot<V>(ctx: BuilderContext, i: nat, slots: seq<Option<V>>, v: V)
    requires DistinctNames(FieldNames(ctx.fields))
    requires i < |ctx.fields| && |slots| == |ctx.fields|
    ensures var out := Generate(ctx);
      && ctx.fields[i].ident in SetterNames(out.setters)
      && var r := CallSetter(out, ctx.fields[i].ident, slots, v);
      && |r| == |slots|
      && r[i] == Some(v)
      && forall j :: 0 <= j < |slots| && j != i ==> r[j] == slots[j]
  {
    var out := Generate(ctx);
    var names := FieldNames(ctx.fields);
    assert names[i] == ctx.fields[i].ident;
    IndexOfDistinct(names, i);
    assert IndexOf(SetterNames(out.setters), ctx.fields[i].ident) == i;
    assert out.setters[i].slot == ctx.fields[i].ident;
    assert IndexOf(StorageNames(out.storage), ctx.fields[i].ident) == i;
  }

  /** A second call of the same setter overwrites the first: the last write wins. */
  lemma LastWriteWins<V>(code: Output, setterName: string, slots: seq<Option<V>>, v: V, w: V)
    requires WellFormed(code) && |slots| == |code.storage|
    requires setterName in SetterNames(code.setters)
    ensures CallSetter(code, setterName, CallSetter(code, setterName, slots, v), w) == CallSetter(code, setterName, slots, w)
  {
  }

  /** Setters of two different fields commute. */
  lemma SettersCommute<V>(ctx: BuilderContext, i: nat, j: nat, slots: seq<Option<V>>, v: V, w: V)
    requires DistinctNames(FieldNames(ctx.fields))
    requires i < |ctx.fields| && j < |ctx.fields| && i != j && |slots| == |ctx.fields|
    ensures var out := Generate(ctx); var a, b := ctx.fields[i].ident, ctx.fields[j].ident;
      && a in SetterNames(out.setters) && b in SetterNames(out.setters)
      && CallSetter(out, b, CallSetter(out, a, slots, v), w) == CallSetter(out, a, CallSetter(out, b, slots, w), v)
  {
    var out := Generate(ctx);
    var a, b := ctx.fields[i].ident, ctx.fields[j].ident;
    SetterWritesOnlyItsSlot(ctx, i, slots, v);
    SetterWritesOnlyItsSlot(ctx, j, slots, w);
    var s1 := CallSetter(out, a, slots, v);
    var s2 := CallSetter(out, b, slots, w);
    SetterWritesOnlyItsSlot(ctx, j, s1, w);
    SetterWritesOnlyItsSlot(ctx, i, s2, v);
  }

  /** Assignment `j` of `finish` fills field `names[j]` from slot `j`, the storage fields
      are named `names` in that order, and no name repeats. */
  ghost predicate FinishFollows(code: Output, names: seq<string>)
  {
    && StorageNames(code.storage) == names
    && DistinctNames(names)
    && |code.finish.assigns| == |names|
    && forall j :: 0 <= j < |names| ==>
         && code.finish.assigns[j].field == names[j]
         && code.finish.assigns[j].slot == names[j]
         && code.finish.assigns[j].missing == names[j] + NeedsToBeSet
  }

  lemma GenerateFollows(ctx: BuilderContext)
    requires DistinctNames(FieldNames(ctx.fields))
    ensures FinishFollows(Generate(ctx), FieldNames(ctx.fields))
  {
  }

  lemma {:induction false} RunAssignsAllSet<V>(code: Output, names: seq<string>, slots: seq<Option<V>>, i: nat)
    requires WellFormed(code) && FinishFollows(code, names)
    requires |slots| == |names| && i <= |slots|
    requires forall j :: i <= j < |slots| ==> slots[j].Some?
    ensures var r := RunAssigns(code, slots, i);
      && r.Ok? && |r.value| == |slots| - i
      && forall j :: 0 <= j < |r.value| ==> r.value[j] == FieldValue(names[i + j], slots[i + j].value)
    decreases |slots| - i
  {
    if i < |slots| {
      RunAssignsAllSet(code, names, slots, i + 1);
      var rest := RunAssigns(code, slots, i + 1).value;
      IndexOfDistinct(names, i);
      var head := FieldValue(names[i], slots[i].value);
      assert RunAssigns(code, slots, i) == Ok([head] + rest);
      forall j | 0 <= j < |rest| + 1
        ensures ([head] + rest)[j] == FieldValue(names[i + j], slots[i + j].value)
      {
        if j > 0 {
          assert ([head] + rest)[j] == rest[j - 1];
          assert i + 1 + (j - 1) == i + j;
        }
      }
    }
  }

  lemma {:induction false} RunAssignsFirstUnset<V>(code: Output, names: seq<string>, slots: seq<Option<V>>, i: nat, k: nat)
    requires WellFormed(code) && FinishFollows(code, names)
    requires |slots| == |names| && i <= k < |slots|
    requires slots[k].None? && forall j :: i <= j < k ==> slots[j].Some?
    ensures RunAssigns(code, slots, i) == Err(names[k] + NeedsToBeSet)
    decreases k - i
  {
    IndexOfDistinct(names, i);
    if i < k {
      RunAssignsFirstUnset(code, names, slots, i + 1, k);
    }
  }

  /** `finish` is all or the first error: with every slot set it builds the record from the
      slots, in field order; otherwise it fails naming the first unset field. */
  lemma FinishAllOrFirstUnset<V>(ctx: BuilderContext, slots: seq<Option<V>>)
    requires DistinctNames(FieldNames(ctx.fields))
    requires |slots| == |ctx.fields|
    ensures var r := RunFinish(Generate(ctx), slots); var k := FirstUnset(slots);
      && (k == |slots| ==>
            && r.Ok? && r.value.typeName == ctx.name && |r.value.fields| == |slots|
            && forall j :: 0 <= j < |slots| ==> r.value.fields[j] == FieldValue(ctx.fields[j].ident, slots[j].value))
      && (k < |slots| ==> r == Err(ctx.fields[k].ident + " needs to be set!"))
  {
    var out, names := Generate(ctx), FieldNames(ctx.fields);
    GenerateFollows(ctx);
    var k := FirstUnset(slots);
    if k == |slots| {
      RunAssignsAllSet(out, names, slots, 0);
    } else {
      RunAssignsFirstUnset(out, names, slots, 0, k);
    }
  }

  /** `finish` succeeds exactly when every slot is set. */
  lemma FinishOkIffAllSet<V>(ctx: BuilderContext, slots: seq<Option<V>>)
    requires DistinctNames(FieldNames(ctx.fields))
    requires |slots| == |ctx.fields|
    ensures RunFinish(Generate(ctx), slots).Ok? <==> forall j :: 0 <= j < |slots| ==> slots[j].Some?
  {
    FinishAllOrFirstUnset(ctx, slots);
  }

  /** A builder straight from `builder()` fails on its first field, or gives the empty record
      when the struct has no fields. */
  lemma FreshBuilderFinish<V>(ctx: BuilderContext)
    requires DistinctNames(FieldNames(ctx.fields))
    ensures var out := Generate(ctx);
      && AllOptional(out.storage)
      && var r := RunFinish(out, DefaultSlots<V>(out.storage));
      && (ctx.fields == [] ==> r == Ok(Record(ctx.name, [])))
      && (ctx.fields != [] ==> r == Err(ctx.fields[0].ident + " needs to be set!"))
  {
    FactoryLeavesAllUnset<V>(ctx);
  }
}
