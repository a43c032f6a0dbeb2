/**
 * Reading a property of a JavaScript object literal used as a lookup table.
 * A key the literal does not define is still found when it names a member
 * every object inherits from `Object.prototype`.
 */
module JsObjects {

  /** What `table[key]` yields. */
  datatype Property<T> =
    | Own(value: T)           // a key the literal defines
    | Inherited(name: string) // a function or object reached through the prototype
    | Undefined

  /** The property names every plain object inherits, as listed by ECMAScript's Object.prototype. */
  const PrototypeMembers: set<string> := {
    "constructor", "hasOwnProperty", "isPrototypeOf", "propertyIsEnumerable",
    "toLocaleString", "toString", "valueOf", "__proto__",
    "__defineGetter__", "__defineSetter__", "__lookupGetter__", "__lookupSetter__"
  }

  function Lookup<T>(table: map<string, T>, key: string): (r: Property<T>)
    ensures r.Own? <==> key in table
    ensures r.Own? ==> r.value == table[key]
    ensures r.Inherited? <==> key !in table && key in PrototypeMembers
    ensures r.Inherited? ==> r.name == key
  {
    if key in table then Own(table[key])
    else if key in PrototypeMembers then Inherited(key)
    else Undefined
  }
}
