/**
  The JSON values that the server's pydantic models serialise to, and the
  `exclude_none=True` pass that `pydantic_response` applies
  (main_node/controllers/utils.py:45-46): every object field whose value is
  `null` is dropped, at every depth, while `null` items of a list are kept.
*/
module Json {

  datatype Json =
    | JNull
    | JBool(b: bool)
    | JInt(i: int)
    | JReal(r: real)
    | JStr(s: string)
    | JArray(items: seq<Json>)
    | JObject(fields: seq<(string, Json)>)

  /** No object anywhere inside `j` has a field whose value is `null`. */
  ghost predicate NoNullFields(j: Json)
  {
    match j
    case JArray(items) => forall i :: 0 <= i < |items| ==> NoNullFields(items[i])
    case JObject(fields) =>
      forall i :: 0 <= i < |fields| ==> fields[i].1 != JNull && NoNullFields(fields[i].1)
    case _ => true
  }

  /** The fields of `fields` whose value is not `null`, in order. */
  function NonNullFields(fields: seq<(string, Json)>): (r: seq<(string, Json)>)
    ensures forall f :: f in r ==> f in fields && f.1 != JNull
    ensures forall f :: f in fields && f.1 != JNull ==> f in r
  {
    if fields == [] then []
    else if fields[0].1 == JNull then NonNullFields(fields[1..])
    else [fields[0]] + NonNullFields(fields[1..])
  }

  /** `j` with every `null`-valued object field removed, recursively. */
  function ExcludeNone(j: Json): (r: Json)
  {
    match j
    case JArray(items) =>
      JArray(seq(|items|, i requires 0 <= i < |items| => ExcludeNone(items[i])))
    case JObject(fields) =>
      var kept := NonNullFields(fields);
      JObject(seq(|kept|, i requires 0 <= i < |kept| =>
        assert kept[i] in fields;
        (kept[i].0, ExcludeNone(kept[i].1))))
    case _ => j
  }

  lemma {:induction false} NonNullFieldsOfNullFree(fields: seq<(string, Json)>)
    requires forall i :: 0 <= i < |fields| ==> fields[i].1 != JNull
    ensures NonNullFields(fields) == fields
  {
    if fields != [] {
      NonNullFieldsOfNullFree(fields[1..]);
    }
  }

  /** After `exclude_none`, no `null` field is left at any depth. */
  lemma {:induction false} ExcludeNoneLeavesNoNullField(j: Json)
    ensures NoNullFields(ExcludeNone(j))
  {
    match j
    case JArray(items) =>
      forall i | 0 <= i < |items|
        ensures NoNullFields(ExcludeNone(items[i]))
      {
        ExcludeNoneLeavesNoNullField(items[i]);
      }
    case JObject(fields) =>
      var kept := NonNullFields(fields);
      forall i | 0 <= i < |kept|
        ensures ExcludeNone(kept[i].1) != JNull && NoNullFields(ExcludeNone(kept[i].1))
      {
        assert kept[i] in fields;
        ExcludeNoneLeavesNoNullField(kept[i].1);
      }
    case _ =>
  }

  /** Serialising an already serialised model again changes nothing. */
  lemma {:induction false} ExcludeNoneIdempotent(j: Json)
    ensures ExcludeNone(ExcludeNone(j)) == ExcludeNone(j)
  {
    match j
    case JArray(items) =>
      forall i | 0 <= i < |items|
        ensures ExcludeNone(ExcludeNone(items[i])) == ExcludeNone(items[i])
      {
        ExcludeNoneIdempotent(items[i]);
      }
    case JObject(fields) =>
      var kept := NonNullFields(fields);
      var once := ExcludeNone(j).fields;
      forall i | 0 <= i < |kept|
        ensures ExcludeNone(ExcludeNone(kept[i].1)) == ExcludeNone(kept[i].1)
        ensures once[i].1 != JNull
      {
        assert kept[i] in fields;
        ExcludeNoneIdempotent(kept[i].1);
      }
      NonNullFieldsOfNullFree(once);
    case _ =>
  }
}
