/**
 * The dynamically typed value a YAML configuration loads into, with the two
 * Python operations the parsers apply to it: `dict.get(key, default)` and
 * iteration with `for x in value`.
 */
module Yaml {
  import opened Wrappers
  import opened Orders

  /** A loaded YAML value; mapping keys are strings. */
  datatype Value =
    | Str(s: string)
    | Int(i: int)
    | Bool(b: bool)
    | Null
    | List(items: seq<Value>)
    | Dict(entries: map<string, Value>)

  /** `d.get(key, default)`. */
  function Get(d: map<string, Value>, key: string, default: Value): (r: Value)
    ensures key in d ==> r == d[key]
    ensures key !in d ==> r == default
  {
    if key in d then d[key] else default
  }

  /** The keys of a mapping as string values, in lexicographic order. */
  function KeyValues(entries: map<string, Value>): (r: seq<Value>)
    ensures |r| == |entries|
    ensures forall x :: x in r <==> (x.Str? && x.s in entries)
  {
    var keys := SortedStrings(entries.Keys);
    assert |entries.Keys| == |entries|;
    var r := seq(|keys|, i requires 0 <= i < |keys| => Str(keys[i]));
    assert forall i :: 0 <= i < |keys| ==> r[i] == Str(keys[i]);
    forall x: Value | x.Str? && x.s in entries ensures x in r {
      var i :| 0 <= i < |keys| && keys[i] == x.s;
      assert r[i] == x;
    }
    r
  }

  /** The one-character strings of `s`, as `for c in s` visits them. */
  function CharValues(s: string): (r: seq<Value>)
    ensures |r| == |s|
    ensures forall i :: 0 <= i < |s| ==> r[i] == Str([s[i]])
  {
    seq(|s|, i requires 0 <= i < |s| => Str([s[i]]))
  }

  /**
   * The items `for x in v` visits: the elements of a list, the one-character
   * strings of a string, the keys of a mapping; `None` where Python raises
   * `TypeError` because the value is not iterable. Mapping keys are visited in
   * lexicographic order (a mapping here does not record insertion order).
   */
  function Iter(v: Value): (r: Option<seq<Value>>)
    ensures r.Some? <==> (v.List? || v.Str? || v.Dict?)
    ensures v.List? ==> r == Some(v.items)
    ensures v.Str? ==> r == Some(CharValues(v.s))
    ensures v.Dict? ==> r == Some(KeyValues(v.entries))
  {
    match v
    case List(items) => Some(items)
    case Str(s) => Some(CharValues(s))
    case Dict(entries) => Some(KeyValues(entries))
    case _ => None
  }
}
