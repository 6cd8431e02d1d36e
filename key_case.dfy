/**
 * The pressed-key bookkeeping shared by the keyboard state
 * (src/control/state.ts) and the two keyboard managers (src/keyboard.ts,
 * src/control/keyboard.ts): a single-character key is looked up and deleted
 * in both its upper-case and lower-case forms, since Shift turns `a` into
 * `A`; any other key (`"Shift"`, `" "`) is looked up as is. Case mapping is
 * modelled for the ASCII letters only.
 */
module KeyCase {

  /** `toUpperCase` of one character, ASCII letters only. */
  function UpperChar(c: char): char
  {
    if 'a' <= c <= 'z' then (c as int - 32) as char else c
  }

  /** `toLowerCase` of one character, ASCII letters only. */
  function LowerChar(c: char): char
  {
    if 'A' <= c <= 'Z' then (c as int + 32) as char else c
  }

  function Upper(k: string): (u: string)
    ensures |u| == |k|
  {
    seq(|k|, i requires 0 <= i < |k| => UpperChar(k[i]))
  }

  function Lower(k: string): (l: string)
    ensures |l| == |k|
  {
    seq(|k|, i requires 0 <= i < |k| => LowerChar(k[i]))
  }

  /** A key of at most one character other than the space: looked up in both cases. */
  predicate IsSingle(key: string)
  {
    !(|key| > 1 || key == " ")
  }

  /** Two stored keys stand for the same key `key` as looked up. */
  predicate Matches(stored: string, key: string)
  {
    if IsSingle(key) then stored == Upper(key) || stored == Lower(key) else stored == key
  }

  /** `isKeyPressed`: some stored key matches. */
  predicate IsKeyPressed(pressedKeys: set<string>, key: string)
  {
    if IsSingle(key) then Upper(key) in pressedKeys || Lower(key) in pressedKeys
    else key in pressedKeys
  }

  /** `isKeyPressed` is true exactly when some stored key matches `key`. */
  lemma IsKeyPressedMatches(pressedKeys: set<string>, key: string)
    ensures IsKeyPressed(pressedKeys, key) <==> exists s :: s in pressedKeys && Matches(s, key)
  {
  }

  /**
   * `deleteKey`: the key set without every form of `key`; nothing else is
   * removed, and `key` is no longer pressed.
   */
  function Deleted(pressedKeys: set<string>, key: string): (r: set<string>)
    ensures r <= pressedKeys
    ensures !IsKeyPressed(r, key)
    ensures forall s :: s in pressedKeys && !Matches(s, key) ==> s in r
  {
    if IsSingle(key) then pressedKeys - {Upper(key), Lower(key)}
    else pressedKeys - {key}
  }

  /** The key that `keydown`/`press` stores: lower-cased when asked for and a single non-space character. */
  function Stored(useLowerCase: bool, key: string): (s: string)
    ensures |s| == |key|
    ensures !IsSingle(key) ==> s == key
  {
    if useLowerCase && |key| == 1 && key != " " then Lower(key) else key
  }

  /** A single ASCII character is its own upper-case or lower-case form. */
  lemma SingleIsOwnCase(key: string)
    requires IsSingle(key)
    ensures key == Upper(key) || key == Lower(key)
  {
    if |key| == 1 {
      if 'a' <= key[0] <= 'z' {
        assert key == Lower(key);
      } else {
        assert key == Upper(key);
      }
    } else {
      assert key == Upper(key);
    }
  }

  /** The stored form of a key is one of the forms it is looked up by. */
  lemma StoredMatches(useLowerCase: bool, key: string)
    ensures Matches(Stored(useLowerCase, key), key)
  {
    if IsSingle(key) && Stored(useLowerCase, key) == key {
      SingleIsOwnCase(key);
    }
  }

  /** Lower-casing first does not change the forms of a key. */
  lemma LowerKeepsForms(key: string)
    requires |key| == 1
    ensures Upper(Lower(key)) == Upper(key) && Lower(Lower(key)) == Lower(key)
  {
  }

  /** After pressing, the key is pressed. */
  lemma PressMakesPressed(pressedKeys: set<string>, useLowerCase: bool, key: string)
    ensures IsKeyPressed(pressedKeys + {Stored(useLowerCase, key)}, key)
  {
    StoredMatches(useLowerCase, key);
  }

  /**
   * Pressing a key that was not pressed and then deleting it gives back the
   * key set as it was.
   */
  lemma PressThenDelete(pressedKeys: set<string>, useLowerCase: bool, key: string)
    requires !IsKeyPressed(pressedKeys, key)
    ensures Deleted(pressedKeys + {Stored(useLowerCase, key)}, key) == pressedKeys
  {
    StoredMatches(useLowerCase, key);
  }

  /**
   * `release` of the state deletes the stored form; for a single character
   * that removes the same forms as deleting the key itself.
   */
  lemma DeleteStored(pressedKeys: set<string>, useLowerCase: bool, key: string)
    ensures Deleted(pressedKeys, Stored(useLowerCase, key)) == Deleted(pressedKeys, key)
  {
    if useLowerCase && |key| == 1 && key != " " {
      LowerKeepsForms(key);
    }
  }

  /** The keyboard tests: `A` is stored as `a` only when lower-casing, and Shift+`a` counts as `a`. */
  lemma KeyCaseExample()
    ensures Stored(true, "A") == "a" && Stored(false, "A") == "A"
    ensures IsKeyPressed({"a"}, "A") && IsKeyPressed({"A"}, "a")
    ensures Deleted({"a", "A", "b"}, "a") == {"b"}
    ensures !IsKeyPressed({"shift"}, "Shift")
  {
    assert Upper("a") == "A" && Lower("A") == "a";
    assert Upper("A") == "A" && Lower("a") == "a";
    assert Lower("A") == "a";
  }
}
