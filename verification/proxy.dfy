/**
 * `createProxyServiceCommunicator`: a proxy whose every property read
 * yields a stub forwarding to `call(name, ...args)`. Stubs are created on
 * first read and kept in a plain object, so later reads return the same
 * stub. `then` always reads as `undefined`, so the proxy is never taken
 * for a promise; names the plain object inherits from `Object.prototype`
 * are found there and are never turned into stubs.
 */
module Proxy {

  /** The properties every plain object inherits from `Object.prototype`. */
  const Inherited: set<string> := {
    "constructor", "hasOwnProperty", "isPrototypeOf", "propertyIsEnumerable",
    "toLocaleString", "toString", "valueOf", "__proto__",
    "__defineGetter__", "__defineSetter__", "__lookupGetter__", "__lookupSetter__"
  }

  /** What a property read returns. */
  datatype Property =
    | Absent                 // `undefined`
    | FromPrototype(name: string)
    | CallStub(name: string) // `(...args) => call(name, ...args)`

  /** The names that already have a stub in the backing object. */
  datatype Table = Table(stubs: set<string>)

  predicate Valid(t: Table) {
    "then" !in t.stubs && t.stubs !! Inherited
  }

  datatype Read = Read(table: Table, property: Property)

  /** The proxy's `get` trap for property `key`. */
  function Get(t: Table, key: string): (r: Read)
    requires Valid(t)
    ensures Valid(r.table)
    ensures key == "then" ==> r == Read(t, Absent)
    ensures key in Inherited ==> r == Read(t, FromPrototype(key))
    ensures key != "then" && key !in Inherited ==>
      r.property == CallStub(key) && r.table.stubs == t.stubs + {key}
  {
    if key == "then" then Read(t, Absent)
    else if key in Inherited then Read(t, FromPrototype(key))
    else if key in t.stubs then Read(t, CallStub(key))
    else Read(Table(t.stubs + {key}), CallStub(key))
  }

  /** Reading the same name twice yields the same property and the second read changes nothing. */
  lemma GetIsMemoized(t: Table, key: string)
    requires Valid(t)
    ensures var first := Get(t, key);
      Get(first.table, key) == first
  {
  }

  /** Any sequence of reads leaves `then` without a stub. */
  function GetAll(t: Table, keys: seq<string>): (r: Table)
    requires Valid(t)
    ensures Valid(r)
    ensures r.stubs == t.stubs + (set k | k in keys && k != "then" && k !in Inherited)
    decreases |keys|
  {
    if |keys| == 0 then t else GetAll(Get(t, keys[0]).table, keys[1..])
  }
}
