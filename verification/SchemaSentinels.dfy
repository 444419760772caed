/** Removing the safe-integer bounds the schema library writes for every `.int()`. */
module SchemaSentinels {
  import opened Options

  const MAX_SAFE_INTEGER: real := 9007199254740991.0

  datatype Json =
    | Null | Bool(b: bool) | Num(n: real) | Str(s: string)
    | Arr(items: seq<Json>)
    | Obj(fields: map<string, Json>)

  /** The two bounds that say nothing. */
  predicate Sentinel(key: string, value: Json) {
    (key == "minimum" && value == Num(-MAX_SAFE_INTEGER)) || (key == "maximum" && value == Num(MAX_SAFE_INTEGER))
  }

  function Strip(j: Json): Json {
    match j
    case Arr(items) => Arr(seq(|items|, i requires 0 <= i < |items| => Strip(items[i])))
    case Obj(fields) => Obj(map k | k in fields && !Sentinel(k, fields[k]) :: Strip(fields[k]))
    case _ => j
  }

  datatype PathStep = Key(key: string) | Index(i: nat)

  function Lookup(j: Json, path: seq<PathStep>): Option<Json>
    decreases path
  {
    if path == [] then Some(j) else
    match (j, path[0])
    case (Obj(fields), Key(k)) => if k in fields then Lookup(fields[k], path[1..]) else None
    case (Arr(items), Index(i)) => if i < |items| then Lookup(items[i], path[1..]) else None
    case _ => None
  }

  /** At every path of every depth: a sentinel bound is gone, and anything else is still there, as
      it was apart from sentinels inside it. */
  lemma {:induction false} StripRemovesExactlySentinels(j: Json, path: seq<PathStep>)
    ensures match Lookup(j, path)
            case None => Lookup(Strip(j), path) == None
            case Some(v) =>
              Lookup(Strip(j), path) ==
                if path != [] && path[|path| - 1] in {Key("minimum"), Key("maximum")} && v.Num?
                   && v.n == (if path[|path| - 1].key == "minimum" then -9007199254740991.0 else 9007199254740991.0)
                then None
                else Some(Strip(v))
    decreases path
  {
    if path != [] {
      match (j, path[0])
      case (Obj(fields), Key(k)) =>
        if k in fields {
          StripRemovesExactlySentinels(fields[k], path[1..]);
          if |path| > 1 { SentinelIsLeaf(k, fields[k], path[1..]); }
        }
      case (Arr(items), Index(i)) =>
        if i < |items| { StripRemovesExactlySentinels(items[i], path[1..]); }
      case _ =>
    }
  }

  lemma SentinelIsLeaf(key: string, value: Json, path: seq<PathStep>)
    requires path != []
    ensures Sentinel(key, value) ==> Lookup(value, path) == None
  {
  }
}
