/**
  The outcome records that every service operation a handler calls returns
  (main_node/utils.py:62-71):
  `Result(success)`, and its two subclasses `Ok(result)`, whose `success`
  defaults to true, and `Error(cause)`, whose `success` defaults to false;
  no caller overrides either default.
  A bare `Result(success=...)` with neither payload nor cause is `Plain`.
*/
module Outcomes {

  import opened Json

  datatype Outcome<+T> = Ok(result: T) | Error(cause: string) | Plain(flag: bool)
  {
    /** The `success` field: the class default for `Ok` and `Error`, which no caller overrides. */
    function Success(): (s: bool)
      ensures Ok? ==> s
      ensures Error? ==> !s
      ensures Plain? ==> s == flag
    {
      match this
      case Ok(_) => true
      case Error(_) => false
      case Plain(f) => f
    }

    /**
      The pydantic model as JSON, fields in declaration order: the inherited
      `success` first, then the subclass's own field.
    */
    function ToJson(resultJson: T -> Json): (j: Json)
      ensures j.JObject? && |j.fields| >= 1
      ensures j.fields[0] == ("success", JBool(Success()))
      ensures Ok? ==> |j.fields| == 2 && j.fields[1] == ("result", resultJson(result))
      ensures Error? ==> |j.fields| == 2 && j.fields[1] == ("cause", JStr(cause))
      ensures Plain? ==> |j.fields| == 1
    {
      match this
      case Ok(r) => JObject([("success", JBool(true)), ("result", resultJson(r))])
      case Error(c) => JObject([("success", JBool(false)), ("cause", JStr(c))])
      case Plain(f) => JObject([("success", JBool(f))])
    }
  }

  /**
    On the wire, after `exclude_none`, the first field is always the
    `success` flag, so a client tells `Ok` from `Error` by it alone; an
    `Error` keeps its cause and an `Ok` its (non-null) result.
  */
  lemma SuccessFlagLeadsOnTheWire<T>(o: Outcome<T>, resultJson: T -> Json)
    ensures var w := ExcludeNone(o.ToJson(resultJson));
      && w.JObject? && |w.fields| >= 1
      && w.fields[0] == ("success", JBool(o.Success()))
      && (o.Error? ==> w.fields == [("success", JBool(false)), ("cause", JStr(o.cause))])
      && (o.Plain? ==> w.fields == [("success", JBool(o.flag))])
      && (o.Ok? && resultJson(o.result) != JNull ==>
            w.fields == [("success", JBool(true)), ("result", ExcludeNone(resultJson(o.result)))])
  {
    var fields := o.ToJson(resultJson).fields;
    var kept := NonNullFields(fields);
    assert fields[0].1 != JNull;
    assert kept[0] == fields[0] by {
      assert NonNullFields(fields) == [fields[0]] + NonNullFields(fields[1..]);
    }
    if o.Error? || o.Plain? || resultJson(o.result) != JNull {
      NonNullFieldsOfNullFree(fields);
      assert |kept| == |fields|;
    }
  }
}
