/**
 * The `classnames` helper both renderers call with an object literal of
 * class name to flag: it keeps the names whose flag is set. The class list is
 * kept as a sequence of names rather than the joined string, and the
 * contract states which names are listed, not their order.
 *
 * In an object literal a repeated key keeps only its last value; here a name
 * is listed when any entry switches it on. Both call sites use distinct
 * names, so the two readings agree wherever the helper is used.
 */
module Classnames {

  /** One `'class-name': flag` entry of the object literal. */
  datatype Toggle = Toggle(name: string, on: bool)

  /** The names of the entries that are switched on. */
  function ClassNames(entries: seq<Toggle>): (names: seq<string>)
    ensures |names| <= |entries|
    ensures forall c :: c in names <==> exists i :: 0 <= i < |entries| && entries[i] == Toggle(c, true)
  {
    if entries == [] then []
    else
      var rest := ClassNames(entries[1..]);
      assert forall i :: 0 < i < |entries| ==> entries[i] == entries[1..][i - 1];
      if entries[0].on then [entries[0].name] + rest else rest
  }
}
