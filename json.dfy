/** Decoded JSON values: the bodies of admin responses and the result dictionaries
    that the tool layer serialises. Numbers are integers; floats are not modelled. */
module Json {

  import opened Wrappers

  datatype Json =
    | JNull
    | JBool(b: bool)
    | JNum(n: int)
    | JStr(s: string)
    | JArr(items: seq<Json>)
    | JObj(fields: map<string, Json>)

  /** Python truthiness of the decoded value (`if stats:`). */
  predicate Truthy(j: Json)
  {
    match j
    case JNull => false
    case JBool(b) => b
    case JNum(n) => n != 0
    case JStr(s) => s != ""
    case JArr(items) => items != []
    case JObj(fields) => fields != map[]
  }

  /** A list of strings as its JSON array. */
  function Strings(names: seq<string>): (j: Json)
    ensures j.JArr? && |j.items| == |names|
    ensures forall i :: 0 <= i < |names| ==> j.items[i] == JStr(names[i])
  {
    if names == [] then JArr([]) else JArr([JStr(names[0])] + Strings(names[1..]).items)
  }

  /** Reads a JSON array of strings back; None for any other value. */
  function StringsOf(j: Json): Option<seq<string>>
  {
    match j
    case JArr(items) => AllStrings(items)
    case _ => None
  }

  function AllStrings(items: seq<Json>): Option<seq<string>>
  {
    if items == [] then Some([])
    else match (items[0], AllStrings(items[1..]))
      case (JStr(s), Some(rest)) => Some([s] + rest)
      case _ => None
  }

  /** Reading a list back gives the list that was written. */
  lemma {:induction false} StringsRoundTrip(names: seq<string>)
    ensures StringsOf(Strings(names)) == Some(names)
  {
    AllStringsOfStrings(names);
  }

  lemma {:induction false} AllStringsOfStrings(names: seq<string>)
    ensures AllStrings(Strings(names).items) == Some(names)
  {
    if names != [] {
      AllStringsOfStrings(names[1..]);
      var items := Strings(names).items;
      assert items[0] == JStr(names[0]);
      assert items[1..] == Strings(names[1..]).items;
      assert [names[0]] + names[1..] == names;
    }
  }

  /** The only JSON values read back as a list of strings are the arrays written by Strings. */
  lemma {:induction false} StringsOfOnlyArrays(j: Json, names: seq<string>)
    requires StringsOf(j) == Some(names)
    ensures j == Strings(names)
  {
    AllStringsExact(j.items, names);
  }

  lemma {:induction false} AllStringsExact(items: seq<Json>, names: seq<string>)
    requires AllStrings(items) == Some(names)
    ensures JArr(items) == Strings(names)
  {
    if items != [] {
      var rest :| AllStrings(items[1..]) == Some(rest) && names == [items[0].s] + rest;
      AllStringsExact(items[1..], rest);
      assert names[1..] == rest;
    }
  }
}
