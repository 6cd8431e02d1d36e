/**
 * The keyboard state of src/control/state.ts: the set of pressed keys, fed by
 * `press` and `release` calls. Each change publishes a `"keychange"` event
 * carrying a copy of the set; a method's `published` result is that copy,
 * or `None` when nothing is published.
 */
module ControlState {
  import opened Common
  import opened KeyCase

  class KeyboardState {
    /** Whether single-character keys are stored lower-cased (default `true`). */
    var useLowerCase: bool
    /** The keys currently pressed. */
    var pressedKeys: set<string>

    constructor()
      ensures useLowerCase && pressedKeys == {}
    {
      useLowerCase := true;
      pressedKeys := {};
    }

    /**
     * `press`: ignored when the key is already pressed in either case;
     * otherwise its stored form is added and the new set is published.
     */
    method Press(keyString: string) returns (published: Option<set<string>>)
      modifies this
      ensures useLowerCase == old(useLowerCase)
      ensures IsKeyPressed(old(pressedKeys), keyString) ==> pressedKeys == old(pressedKeys) && published == None
      ensures !IsKeyPressed(old(pressedKeys), keyString) ==>
        pressedKeys == old(pressedKeys) + {Stored(useLowerCase, keyString)} && published == Some(pressedKeys)
      ensures IsKeyPressed(pressedKeys, keyString)
    {
      if IsKeyPressed(pressedKeys, keyString) {
        return None;
      }
      var key := if useLowerCase && |keyString| == 1 && keyString != " " then Lower(keyString) else keyString;
      pressedKeys := pressedKeys + {key};
      PressMakesPressed(old(pressedKeys), useLowerCase, keyString);
      published := Some(pressedKeys);
    }

    /**
     * `release`: ignored when the key is not pressed; otherwise every form of
     * the key is deleted and the new set is published.
     */
    method Release(keyString: string) returns (published: Option<set<string>>)
      modifies this
      ensures useLowerCase == old(useLowerCase)
      ensures !IsKeyPressed(old(pressedKeys), keyString) ==> pressedKeys == old(pressedKeys) && published == None
      ensures IsKeyPressed(old(pressedKeys), keyString) ==>
        pressedKeys == Deleted(old(pressedKeys), keyString) && published == Some(pressedKeys)
      ensures !IsKeyPressed(pressedKeys, keyString)
    {
      if !IsKeyPressed(pressedKeys, keyString) {
        return None;
      }
      var key := if useLowerCase && |keyString| == 1 && keyString != " " then Lower(keyString) else keyString;
      DeleteStored(pressedKeys, useLowerCase, keyString);
      pressedKeys := Deleted(pressedKeys, key);
      published := Some(pressedKeys);
    }

    /** `clearPressedKeys`: nothing when no key is pressed; otherwise empty the set and publish it. */
    method ClearPressedKeys() returns (published: Option<set<string>>)
      modifies this
      ensures useLowerCase == old(useLowerCase)
      ensures pressedKeys == {}
      ensures published == if old(pressedKeys) == {} then None else Some({})
    {
      if |pressedKeys| == 0 {
        return None;
      }
      pressedKeys := {};
      published := Some({});
    }

    /** `handleVisibilityChange`: when the document becomes hidden, clear the pressed keys. */
    method HandleVisibilityChange(hidden: bool) returns (published: Option<set<string>>)
      modifies this
      ensures useLowerCase == old(useLowerCase)
      ensures !hidden ==> pressedKeys == old(pressedKeys) && published == None
      ensures hidden ==> pressedKeys == {} && published == if old(pressedKeys) == {} then None else Some({})
    {
      if !hidden {
        return None;
      }
      published := ClearPressedKeys();
    }
  }

  /**
   * The keyboard state tests: from no keys, pressing `a`, `a` again and `b`
   * publishes `{a}` and then `{a, b}`; releasing `a` twice publishes `{}` once.
   */
  method StatusExample()
  {
    assert Lower("a") == "a" && Upper("a") == "A" && Lower("b") == "b" && Upper("b") == "B";
    var state := new KeyboardState();
    var p1 := state.Press("a");
    assert state.pressedKeys == {"a"};
    var p2 := state.Press("a");
    var p3 := state.Press("b");
    assert state.pressedKeys == {"a", "b"};
    assert p1 == Some({"a"}) && p2 == None && p3 == Some({"a", "b"});
    var r1 := state.Release("a");
    assert state.pressedKeys == {"b"};
    var r2 := state.Release("a");
    assert r1 == Some({"b"}) && r2 == None;
  }
}
