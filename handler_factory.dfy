/**
 * The BUD handler factory (src/bud/factory.ts; src/data/bud/factory.ts is
 * the same code): a dictionary with the single entry `normal`, looked up by
 * name or by the position of its value, which is how a `BudType` selects
 * its handler.
 */
module HandlerFactory {
  import opened Common
  import opened BudTypes

  /** The registered handlers: `NormalUpdate` only. */
  datatype Handler = NormalUpdate

  /** The handler dictionary in insertion order. */
  const Handlers: seq<(string, Handler)> := [("normal", NormalUpdate)]

  /** `getAllHandlers`: the dictionary's values in order. */
  function GetAllHandlers(): (hs: seq<Handler>)
    ensures |hs| == |Handlers|
    ensures forall i :: 0 <= i < |hs| ==> hs[i] == Handlers[i].1
  {
    seq(|Handlers|, i requires 0 <= i < |Handlers| => Handlers[i].1)
  }

  /** The value of the first entry named `name`. */
  function Lookup(entries: seq<(string, Handler)>, name: string): (h: Option<Handler>)
    ensures h.Some? <==> exists i :: 0 <= i < |entries| && entries[i].0 == name
    ensures h.Some? ==> exists i :: 0 <= i < |entries| && entries[i] == (name, h.value)
  {
    if entries == [] then None
    else if entries[0].0 == name then Some(entries[0].1)
    else
      var h := Lookup(entries[1..], name);
      assert forall i :: 0 <= i < |entries| - 1 ==> entries[1..][i] == entries[i + 1];
      h
  }

  /** What indexing the handler dictionary finds: a registered handler, or a member every object inherits. */
  datatype Member = Registered(handler: Handler) | Inherited(name: string)

  /**
   * `getHandler`: the handler registered under `name`; failing that, the
   * inherited `Object.prototype` member of that name (`updaters["toString"]`
   * is a function); otherwise `undefined`.
   */
  function GetHandler(name: string): (h: Option<Member>)
    ensures h.Some? <==> (exists i :: 0 <= i < |Handlers| && Handlers[i].0 == name) || name in InheritedNames
    ensures h.Some? && h.value.Registered? ==> exists i :: 0 <= i < |Handlers| && Handlers[i] == (name, h.value.handler)
    ensures h.Some? && h.value.Inherited? ==> h.value.name == name && name in InheritedNames
    ensures name !in InheritedNames ==> h.None? || h.value.Registered?
  {
    match Lookup(Handlers, name)
    case Some(handler) => Some(Registered(handler))
    case None => if name in InheritedNames then Some(Inherited(name)) else None
  }

  /** `getHandlerByType`: the value at the type's ordinal, or `undefined` past the end. */
  function GetHandlerByType(t: BudType): (h: Option<Handler>)
    ensures h.Some? <==> Ordinal(t) < |GetAllHandlers()|
    ensures h.Some? ==> h.value == GetAllHandlers()[Ordinal(t)]
  {
    var all := GetAllHandlers();
    if Ordinal(t) < |all| then Some(all[Ordinal(t)]) else None
  }

  /** A `NORMAL` request is handled by `NormalUpdate`; a `POWERED` one finds no handler. */
  lemma HandlerByTypeCases()
    ensures GetHandlerByType(Normal) == Some(NormalUpdate)
    ensures GetHandler("normal") == Some(Registered(NormalUpdate))
    ensures GetHandlerByType(Powered) == None
  {
  }

  /** Indexing by a name the dictionary only inherits finds that member, not `undefined`. */
  lemma GetHandlerInherited()
    ensures GetHandler("toString") == Some(Inherited("toString"))
    ensures GetHandler("constructor").Some? && GetHandler("powered").None?
  {
  }
}
