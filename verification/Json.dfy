/** JSON values as trees. The text form is not modelled: a configuration is the tree its text parses to. */
module Json {
  import opened Wrappers

  datatype Json =
    | Null
    | Bool(flag: bool)
    | Number(value: int)
    | Str(text: string)
    | Arr(items: seq<Json>)
    | Obj(fields: map<string, Json>)
  {
    /** The field of an object; nothing for a missing field or for a value that is not an object. */
    function Get(key: string): Option<Json> {
      if Obj? && key in fields then Some(fields[key]) else None
    }

    function AsStr(): Option<string> {
      if Str? then Some(text) else None
    }

    function AsArr(): Option<seq<Json>> {
      if Arr? then Some(items) else None
    }

    /** The field `key`, when it holds a string. */
    function GetStr(key: string): Option<string> {
      match Get(key)
      case Some(value) => value.AsStr()
      case None => None
    }

    /** The field `key`, when it holds an array. */
    function GetArr(key: string): Option<seq<Json>> {
      match Get(key)
      case Some(value) => value.AsArr()
      case None => None
    }
  }

  function Strings(texts: seq<string>): (r: seq<Json>)
    ensures |r| == |texts|
    ensures forall i | 0 <= i < |r| :: r[i] == Str(texts[i])
  {
    seq(|texts|, i requires 0 <= i < |texts| => Str(texts[i]))
  }
}
