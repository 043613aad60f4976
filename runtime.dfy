/**
 * The builder the emitted code defines, as an object updated in place: one
 * `Option` slot per storage field. Setters take `mut self` and overwrite one
 * slot; `finish` takes the slots in assignment order and stops at the first
 * empty one.
 */
module Runtime {
  import opened Wrappers
  import opened Generator
  import opened Semantics

  class Builder<V> {
    /** The emitted items this builder was generated from. */
    const code: Output
    var slots: seq<Option<V>>

    ghost predicate Valid()
      reads this
    {
      WellFormed(code) && |slots| == |code.storage|
    }

    /** `<Name>::builder()`, i.e. `Default::default()`: every slot unset. */
    constructor (code: Output)
      requires WellFormed(code) && AllOptional(code.storage)
      ensures Valid() && this.code == code
      ensures slots == DefaultSlots(code.storage)
      ensures forall i :: 0 <= i < |slots| ==> slots[i].None?
    {
      this.code := code;
      slots := DefaultSlots(code.storage);
    }

    /** The setter named `setterName`: `self.slot = Some(v)`. */
    method Set(setterName: string, v: V)
      requires Valid() && setterName in SetterNames(code.setters)
      modifies this
      ensures Valid()
      ensures slots == CallSetter(code, setterName, old(slots), v)
    {
      var setter := code.setters[IndexOf(SetterNames(code.setters), setterName)];
      assert setter in code.setters;
      slots := slots[IndexOf(StorageNames(code.storage), setter.slot) := Some(v)];
    }

    /** `finish`: each assignment in turn, returning early at the first unset slot. */
    method Finish() returns (r: Result<Record<V>, string>)
      requires Valid()
      ensures r == RunFinish(code, slots)
    {
      var assigns := code.finish.assigns;
      var fields: seq<FieldValue<V>> := [];
      var i := 0;
      PrependNothing(RunAssigns(code, slots, 0));
      while i < |assigns|
        invariant 0 <= i <= |assigns|
        invariant RunAssigns(code, slots, 0) == Prepend(fields, RunAssigns(code, slots, i))
      {
        var a := assigns[i];
        assert a in code.finish.assigns;
        var slot := slots[IndexOf(StorageNames(code.storage), a.slot)];
        if slot.None? {
          return Err(a.missing);
        }
        PrependTwice(fields, [FieldValue(a.field, slot.value)], RunAssigns(code, slots, i + 1));
        fields := fields + [FieldValue(a.field, slot.value)];
        i := i + 1;
      }
      PrependNothing(Ok(fields));
      r := Ok(Record(code.finish.record, fields));
    }
  }
}
