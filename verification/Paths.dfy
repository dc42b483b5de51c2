/** Ways down a JSON value. */
module Paths {
  import opened Wrappers
  import opened Json

  /** One step down a value: into a field or into an element. */
  datatype Step = Key(key: string) | Index(index: nat)

  /** The value at the end of a path, if it leads somewhere. */
  function At(value: Json, path: seq<Step>): Option<Json>
    decreases |path|
  {
    if path == [] then Some(value)
    else match path[0]
      case Key(key) => if value.Get(key).Some? then At(value.Get(key).value, path[1..]) else None
      case Index(i) => if value.Arr? && i < |value.items| then At(value.items[i], path[1..]) else None
  }

  /** The object in a field, which may be missing. */
  function In(value: Json, key: string): Json {
    if value.Get(key).Some? then value.Get(key).value else Obj(map[])
  }

  /** Apart from one key, the two values have the same fields. */
  ghost predicate SameBut(a: Json, b: Json, key: string) {
    a.Obj? && b.Obj? && forall other: string | other != key :: a.Get(other) == b.Get(other)
  }
}
