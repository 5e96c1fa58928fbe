/** `ReturnValue`: a pointer to one slot of a callback's argument array. The isolate and the
    default value lie below that slot, and integers are written as Smis or as heap numbers. */
module ReturnSlots {
  import opened Cells
  import opened Smi

  datatype Layout = FunctionCall | PropertyAccess {
    function Length(): nat {
      if FunctionCall? then 6 else 7
    }
    function IsolateIndex(): nat {
      if FunctionCall? then 1 else 2
    }
    function DefaultValueIndex(): nat {
      if FunctionCall? then 2 else 3
    }
    function ReturnValueIndex(): nat {
      if FunctionCall? then 3 else 4
    }
  }

  /** `kIsolateValueIndex` and `kDefaultValueValueIndex`. */
  const ISOLATE_OFFSET: int := -2
  const DEFAULT_OFFSET: int := -1

  class ReturnValue {
    const config: Config
    const layout: Layout
    const slots: array<nat>
    const value: nat  // the index of the slot that `value_` points to
    var numbers: map<nat, int>  // heap numbers, by tagged address
    var used: nat

    ghost predicate Valid()
      reads this
    {
      && slots.Length == layout.Length() && value == layout.ReturnValueIndex()
      && (forall a :: a in numbers ==> HasHeapObjectTag(a) && a < 4 * used)
    }

    constructor (config: Config, layout: Layout, slots: array<nat>)
      requires slots.Length == layout.Length()
      ensures Valid() && this.config == config && this.layout == layout && this.slots == slots
    {
      this.config, this.layout, this.slots := config, layout, slots;
      value, numbers, used := layout.ReturnValueIndex(), map[], 0;
    }

    /** The number a word stands for, if it stands for one. */
    function Number(word: nat): Option<int>
      reads this
    {
      if !HasHeapObjectTag(word) then Some(SmiToInt(config, word))
      else if word in numbers then Some(numbers[word])
      else None
    }

    function GetIsolate(): (r: nat)
      requires Valid()
      reads this, slots
      ensures r == slots[layout.IsolateIndex()]
    {
      slots[value + ISOLATE_OFFSET]
    }

    function GetDefaultValue(): (r: nat)
      requires Valid()
      reads this, slots
      ensures r == slots[layout.DefaultValueIndex()]
    {
      slots[value + DEFAULT_OFFSET]
    }

    /** `Factory::NewNumber` for an integer that is not a Smi. */
    method NewNumber(i: int) returns (a: nat)
      requires Valid()
      modifies this`numbers, this`used
      ensures Valid() && a !in old(numbers) && numbers == old(numbers)[a := i] && HasHeapObjectTag(a)
    {
      a := 4 * used + 1;
      numbers, used := numbers[a := i], used + 1;
    }

    /** `Integer::New`. */
    method NewInteger(i: int) returns (a: nat)
      requires Valid() && FitsSigned(i, TWO_32)
      modifies this`numbers, this`used
      ensures Valid() && Number(a) == Some(i) && (HasHeapObjectTag(a) <==> !IsValidSmi(config, i))
      ensures forall b :: b in old(numbers) ==> b in numbers && numbers[b] == old(numbers)[b]
    {
      if IsValidSmi(config, i) {
        a := IntToSmi(config, i);
        RoundTripExactly(config, i);
        NoSmiIsAHeapObject(config, i);
      } else {
        a := NewNumber(i);
      }
    }

    /** `Integer::NewFromUnsigned`. */
    method NewFromUnsigned(i: nat) returns (a: nat)
      requires Valid() && i < TWO_32
      modifies this`numbers, this`used
      ensures Valid() && Number(a) == Some(i)
      ensures forall b :: b in old(numbers) ==> b in numbers && numbers[b] == old(numbers)[b]
    {
      hide Signed, HasHeapObjectTag, IsValidSmi;
      SignedRange(i, TWO_32);
      if i < TWO_31 {
        a := NewInteger(Signed(i, TWO_32));
      } else {
        a := NewNumber(i);
      }
    }

    /** `Set(Local)`: an empty handle stands for the default value. */
    method SetLocal(handle: Option<nat>)
      requires Valid()
      modifies slots
      ensures slots[..] == old(slots[..])[layout.ReturnValueIndex() := slots[layout.ReturnValueIndex()]]
      ensures slots[layout.ReturnValueIndex()] ==
              if handle.Some? then handle.value else old(slots[layout.DefaultValueIndex()])
    {
      slots[value] := if handle.None? then GetDefaultValue() else handle.value;
    }

    /** `Set(int32_t)`: the integer is read back unchanged, whichever way it is written, and no
        other slot and no existing number changes. */
    method SetInt32(i: int)
      requires Valid() && FitsSigned(i, TWO_32)
      modifies this`numbers, this`used, slots
      ensures Valid() && Number(slots[layout.ReturnValueIndex()]) == Some(i)
      ensures slots[..] == old(slots[..])[layout.ReturnValueIndex() := slots[layout.ReturnValueIndex()]]
      ensures forall b :: b in old(numbers) ==> b in numbers && numbers[b] == old(numbers)[b]
      ensures IsValidSmi(config, i) <==> !HasHeapObjectTag(slots[layout.ReturnValueIndex()])
    {
      NoSmiIsAHeapObject(config, i);
      if IsValidSmi(config, i) {
        slots[value] := IntToSmi(config, i);
        RoundTripExactly(config, i);
        return;
      }
      var local := NewInteger(i);
      SetLocal(Some(local));
    }

    /** `Set(uint32_t)`. */
    method SetUint32(i: nat)
      requires Valid() && i < TWO_32
      modifies this`numbers, this`used, slots
      ensures Valid() && Number(slots[layout.ReturnValueIndex()]) == Some(i)
      ensures slots[..] == old(slots[..])[layout.ReturnValueIndex() := slots[layout.ReturnValueIndex()]]
      ensures forall b :: b in old(numbers) ==> b in numbers && numbers[b] == old(numbers)[b]
    {
      hide Signed, HasHeapObjectTag, IsValidSmi;
      SignedRange(i, TWO_32);
      var fitsIntoInt32 := i < TWO_31;  // the top bit is clear
      if fitsIntoInt32 {
        SetInt32(Signed(i, TWO_32));
        return;
      }
      var local := NewFromUnsigned(i);
      SetLocal(Some(local));
    }
  }
}
