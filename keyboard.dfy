/**
 * The keyboard manager of src/keyboard.ts; src/control/keyboard.ts holds the
 * same class, publishing on the data tree's event bus, and this model stands
 * for both. `keydown`, `keyup` and `visibilitychange` arrive only while the
 * manager listens (between `start` and `stop`); each change publishes a
 * `"keychange"` event carrying a copy of the pressed keys, returned here as
 * `published`.
 */
module Keyboard {
  import opened Common
  import opened KeyCase

  class KeyboardManager {
    /** Whether single-character keys are stored lower-cased (default `true`). */
    var useLowerCase: bool
    /** The keys currently pressed. */
    var pressedKeys: set<string>
    /** Whether the three document listeners are attached. */
    var listening: bool

    constructor()
      ensures useLowerCase && pressedKeys == {} && !listening
    {
      useLowerCase := true;
      pressedKeys := {};
      listening := false;
    }

    /**
     * `handleKeyDown`: ignored when the key is already pressed in either
     * case; otherwise its stored form is added and the new set published.
     */
    method HandleKeyDown(key: string) returns (published: Option<set<string>>)
      requires listening
      modifies this
      ensures useLowerCase == old(useLowerCase) && listening
      ensures IsKeyPressed(old(pressedKeys), key) ==> pressedKeys == old(pressedKeys) && published == None
      ensures !IsKeyPressed(old(pressedKeys), key) ==>
        pressedKeys == old(pressedKeys) + {Stored(useLowerCase, key)} && published == Some(pressedKeys)
      ensures IsKeyPressed(pressedKeys, key)
    {
      if IsKeyPressed(pressedKeys, key) {
        return None;
      }
      var stored := if useLowerCase && |key| == 1 && key != " " then Lower(key) else key;
      pressedKeys := pressedKeys + {stored};
      PressMakesPressed(old(pressedKeys), useLowerCase, key);
      published := Some(pressedKeys);
    }

    /**
     * `handleKeyUp`: ignored when the key is not pressed; otherwise every
     * form of the key is deleted and the new set published.
     */
    method HandleKeyUp(key: string) returns (published: Option<set<string>>)
      requires listening
      modifies this
      ensures useLowerCase == old(useLowerCase) && listening
      ensures !IsKeyPressed(old(pressedKeys), key) ==> pressedKeys == old(pressedKeys) && published == None
      ensures IsKeyPressed(old(pressedKeys), key) ==>
        pressedKeys == Deleted(old(pressedKeys), key) && published == Some(pressedKeys)
      ensures !IsKeyPressed(pressedKeys, key)
    {
      if !IsKeyPressed(pressedKeys, key) {
        return None;
      }
      pressedKeys := Deleted(pressedKeys, key);
      published := Some(pressedKeys);
    }

    /** `clearPressedKeys`: empty the set and publish it, even when it was already empty. */
    method ClearPressedKeys() returns (published: Option<set<string>>)
      modifies this
      ensures useLowerCase == old(useLowerCase) && listening == old(listening)
      ensures pressedKeys == {} && published == Some({})
    {
      pressedKeys := {};
      published := Some({});
    }

    /** `handleVisibilityChange`: when the document becomes hidden, clear the pressed keys. */
    method HandleVisibilityChange(hidden: bool) returns (published: Option<set<string>>)
      requires listening
      modifies this
      ensures useLowerCase == old(useLowerCase) && listening
      ensures !hidden ==> pressedKeys == old(pressedKeys) && published == None
      ensures hidden ==> pressedKeys == {} && published == Some({})
    {
      if !hidden {
        return None;
      }
      published := ClearPressedKeys();
    }

    /** `start`: attach the listeners (attaching the same listener twice has no effect). */
    method Start()
      modifies this
      ensures listening
      ensures useLowerCase == old(useLowerCase) && pressedKeys == old(pressedKeys)
    {
      listening := true;
    }

    /** `stop`: clear the pressed keys (publishing the empty set) and detach the listeners. */
    method Stop() returns (published: Option<set<string>>)
      modifies this
      ensures !listening
      ensures useLowerCase == old(useLowerCase)
      ensures pressedKeys == {} && published == Some({})
    {
      published := ClearPressedKeys();
      listening := false;
    }
  }

  /**
   * The keyboard manager tests: after `stop`, `start`, `a` down, `b` down and
   * `stop`, the published sets are `{}`, `{a}`, `{a, b}` and `{}`; with
   * lower-casing off, `A` is published as `A`.
   */
  method KeyboardExample()
  {
    assert Lower("a") == "a" && Upper("a") == "A" && Lower("b") == "b" && Upper("b") == "B";
    var manager := new KeyboardManager();
    var p0 := manager.Stop();
    manager.Start();
    var p1 := manager.HandleKeyDown("a");
    assert manager.pressedKeys == {"a"};
    var p2 := manager.HandleKeyDown("b");
    assert manager.pressedKeys == {"a", "b"};
    var p3 := manager.Stop();
    assert p0 == Some({}) && p1 == Some({"a"}) && p2 == Some({"a", "b"}) && p3 == Some({});

    manager.useLowerCase := false;
    manager.Start();
    assert Upper("A") == "A" && Lower("A") == "a";
    assert !IsKeyPressed(manager.pressedKeys, "A");
    var q1 := manager.HandleKeyDown("A");
    assert manager.pressedKeys == {"A"};
    assert q1 == Some({"A"});
  }
}
