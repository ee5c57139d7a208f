/** tramogi::core::Input (src/core/input.cpp): key states in a fixed-size
    table indexed by key - 'A', every access guarded by the two bounds
    checks. Keys are uint32_t codes; the table's length is a parameter. */
module Inputs {
  import opened Wrappers

  /** The character code of 'A', the first key the table holds. */
  const FirstKey: nat := 65

  const U32Modulus: nat := 0x1_0000_0000

  /** The two guards of every accessor: below 'A', or key - 'A' past the end
      of the table, there is no slot. key - 'A' is taken only once key >= 'A',
      so the uint32_t subtraction does not wrap. */
  function KeyIndex(key: nat, size: nat): (slot: Option<nat>)
    requires key < U32Modulus
    ensures slot.Some? <==> FirstKey <= key && key - FirstKey < size
    ensures slot.Some? ==> slot.value == key - FirstKey && slot.value < size
  {
    if key < FirstKey then None
    else
      var keyIndex := key - FirstKey;
      if keyIndex >= size then None else Some(keyIndex)
  }

  /** Different keys never share a slot. */
  lemma KeyIndexInjective(a: nat, b: nat, size: nat)
    requires a < U32Modulus && b < U32Modulus
    requires KeyIndex(a, size).Some? && KeyIndex(a, size) == KeyIndex(b, size)
    ensures a == b
  {
  }

  class Input {
    const keys: array<bool>

    /** A table of `size` released keys. */
    constructor(size: nat)
      ensures keys.Length == size && fresh(keys)
      ensures forall i :: 0 <= i < size ==> !keys[i]
    {
      keys := new bool[size](_ => false);
    }

    /** is_pressed: false for a key with no slot. */
    function IsPressed(key: nat): (pressed: bool)
      requires key < U32Modulus
      reads this, keys
      ensures pressed <==> KeyIndex(key, keys.Length).Some? && keys[key - FirstKey]
    {
      if key < FirstKey then false
      else
        var keyIndex := key - FirstKey;
        if keyIndex >= keys.Length then false else keys[keyIndex]
    }

    /** consume_key: releases the key's slot; a key with no slot changes
        nothing. */
    method ConsumeKey(key: nat)
      requires key < U32Modulus
      modifies keys
      ensures KeyIndex(key, keys.Length).None? ==> keys[..] == old(keys[..])
      ensures KeyIndex(key, keys.Length).Some? ==> keys[..] == old(keys[..])[key - FirstKey := false]
      ensures !IsPressed(key)
    {
      if key < FirstKey {
        return;
      }
      var keyIndex := key - FirstKey;
      if keyIndex >= keys.Length {
        return;
      }
      keys[keyIndex] := false;
    }

    /** set_key: writes the key's slot; a key with no slot changes
        nothing. */
    method SetKey(key: nat, isPressed: bool)
      requires key < U32Modulus
      modifies keys
      ensures KeyIndex(key, keys.Length).None? ==> keys[..] == old(keys[..])
      ensures KeyIndex(key, keys.Length).Some? ==> keys[..] == old(keys[..])[key - FirstKey := isPressed]
      ensures IsPressed(key) == (KeyIndex(key, keys.Length).Some? && isPressed)
    {
      if key < FirstKey {
        return;
      }
      var keyIndex := key - FirstKey;
      if keyIndex >= keys.Length {
        return;
      }
      keys[keyIndex] := isPressed;
    }
  }

  /** Setting a key and reading it back: an in-range key reads what was
      set, and every other key reads what it read before. */
  method SetThenRead(input: Input, key: nat, other: nat, isPressed: bool) returns (read: bool, otherRead: bool)
    requires key < U32Modulus && other < U32Modulus && other != key
    modifies input.keys
    ensures read == (KeyIndex(key, input.keys.Length).Some? && isPressed)
    ensures otherRead == old(input.IsPressed(other))
  {
    input.SetKey(key, isPressed);
    read := input.IsPressed(key);
    otherRead := input.IsPressed(other);
  }
}
