/** tramogi::input::Keyboard (src/input/keyboard.cpp): a table from key to
    pressed, filled by set_key from window scancodes and read and cleared by
    the game loop. */
module Keyboards {

  /** enum class Key: its underlying type is int, and set_key casts any
      scancode to it, so every int is a Key. The named enumerators are not modelled. */
  newtype Key = x: int | -0x8000_0000 <= x < 0x8000_0000

  /** The table entry consume_key leaves: false where the key is present,
      no entry where it was absent. */
  function Consumed(keys: map<Key, bool>, key: Key): (after: map<Key, bool>)
    ensures key in after ==> !after[key]
    ensures key in after <==> key in keys
    ensures forall k :: k != key ==> (k in after <==> k in keys)
    ensures forall k :: k != key && k in keys ==> after[k] == keys[k]
  {
    if key in keys then keys[key := false] else keys
  }

  /** Consuming twice is consuming once. */
  lemma ConsumedIdempotent(keys: map<Key, bool>, key: Key)
    ensures Consumed(Consumed(keys, key), key) == Consumed(keys, key)
  {
  }

  class Keyboard {
    var keys: map<Key, bool>

    constructor()
      ensures keys == map[]
    {
      keys := map[];
    }

    /** is_pressed: a key with no entry is not pressed. */
    function IsPressed(key: Key): (pressed: bool)
      reads this
      ensures pressed <==> key in keys && keys[key]
      ensures key !in keys ==> !pressed
    {
      if key !in keys then false else keys[key]
    }

    /** consume_key: clears a present key and does not insert an absent
        one. */
    method ConsumeKey(key: Key)
      modifies this
      ensures keys == Consumed(old(keys), key)
      ensures !IsPressed(key)
    {
      if key !in keys {
        return;
      }
      keys := keys[key := false];
    }

    /** set_key: the scancode, an int, becomes the key of the entry it
        overwrites or inserts. */
    method SetKey(scancode: int, isPressed: bool)
      requires -0x8000_0000 <= scancode < 0x8000_0000
      modifies this
      ensures keys == old(keys)[scancode as Key := isPressed]
      ensures IsPressed(scancode as Key) == isPressed
      ensures forall k :: k != scancode as Key ==> IsPressed(k) == old(IsPressed(k))
    {
      keys := keys[scancode as Key := isPressed];
    }
  }

  /** A key that was set reads back as set, and consuming it clears that
      entry and no other. */
  method SetConsumeCycle(kb: Keyboard, scancode: int, other: Key) returns (before: bool, after: bool, untouched: bool)
    requires -0x8000_0000 <= scancode < 0x8000_0000
    requires other != scancode as Key
    modifies kb
    ensures before && !after
    ensures untouched == old(kb.IsPressed(other))
  {
    kb.SetKey(scancode, true);
    before := kb.IsPressed(scancode as Key);
    kb.ConsumeKey(scancode as Key);
    after := kb.IsPressed(scancode as Key);
    untouched := kb.IsPressed(other);
  }
}
