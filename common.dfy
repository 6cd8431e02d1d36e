/**
 * Value types shared by the whole model: integer block positions, an Option
 * wrapper for JavaScript's `undefined`/`null` results, and JavaScript's
 * truncating remainder operator.
 */
module Common {

  datatype Option<+T> = None | Some(value: T)

  /** A block position in the world: an integer triple (z is the height axis). */
  datatype BlockPos = BlockPos(x: int, y: int, z: int)

  /** A block of the chunked world: its position and its type name (`"stone"`, `"water"`, ...). */
  datatype Block = Block(pos: BlockPos, blockType: string)

  /**
   * The names every plain object inherits from `Object.prototype`: the
   * standard members, with the legacy accessor helpers and `__proto__`.
   * A lookup `obj[name]` or `name in obj` on an object literal sees them.
   */
  const InheritedNames: set<string> := {
    "constructor", "hasOwnProperty", "isPrototypeOf", "propertyIsEnumerable",
    "toLocaleString", "toString", "valueOf", "__proto__",
    "__defineGetter__", "__defineSetter__", "__lookupGetter__", "__lookupSetter__"
  }

  /** `Chunk.SIZE` and `Chunk.HEIGHT` of both chunk modules. */
  const ChunkSize: int := 16
  const ChunkHeight: int := 16

  /**
   * JavaScript's `a % b` for integers: the remainder of division truncated
   * toward zero, so it carries the sign of `a` (Dafny's `%` is Euclidean).
   */
  function JsRem(a: int, b: int): (r: int)
    requires b > 0
    ensures a >= 0 ==> 0 <= r < b
    ensures a < 0 ==> -b < r <= 0
    ensures a >= 0 ==> r == a % b
  {
    if a >= 0 then a % b else -((-a) % b)
  }

  /** JavaScript's `Math.abs` on integers. */
  function Abs(n: int): (r: nat)
    ensures r == n || r == -n
  {
    if n < 0 then -n else n
  }

  /** `Math.max` of two integers. */
  function Max(a: int, b: int): (r: int)
    ensures r >= a && r >= b && (r == a || r == b)
  {
    if a >= b then a else b
  }

  /** `Math.min` of two integers. */
  function Min(a: int, b: int): (r: int)
    ensures r <= a && r <= b && (r == a || r == b)
  {
    if a <= b then a else b
  }

  /** A sequence holding `n` copies of `v` (a loop of `n` pushes). */
  function Repeat<T>(v: T, n: nat): (s: seq<T>)
    ensures |s| == n
    ensures forall i :: 0 <= i < n ==> s[i] == v
  {
    seq(n, _ => v)
  }

  /** A non-empty sequence is its front followed by its last element. */
  lemma SplitLast<T>(s: seq<T>)
    requires s != []
    ensures s[..|s| - 1] + [s[|s| - 1]] == s
  {
  }
}
