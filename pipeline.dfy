/**
  The `require` decorator (main_node/controllers/utils.py:11-34) and
  `pydantic_response` (main_node/controllers/utils.py:45-46).
  `wrapper_handler` prepares the requirements one by one, in the order given;
  the first that returns a `Response` ends the request with it; every other
  value is stored under the requirement's name, if it has one, and the
  handler is called with the collected arguments.
*/
module Pipeline {

  import opened Wrappers
  import opened Json
  import opened Http
  import opened Requirements

  /** Where the loop of `wrapper_handler` ends: an early response, or the handler's arguments. */
  datatype Gathered = Abort(response: Response) | Proceed(kwargs: map<string, Value>)

  /** `requirements_kwargs[req.name] = value` when the name is not `None`. */
  function Bind(kwargs: map<string, Value>, name: Option<string>, v: Value): map<string, Value>
  {
    match name
    case None => kwargs
    case Some(n) => kwargs[n := v]
  }

  /** What the loop ends with when it prepares `reqs` starting from the arguments `kwargs`. */
  function Gather(reqs: seq<Requirement>, request: Request, ctx: Context, kwargs: map<string, Value>): Gathered
  {
    if reqs == [] then Proceed(kwargs)
    else
      match Prepare(reqs[0], request, ctx)
      case Terminal(response) => Abort(response)
      case Yield(v) => Gather(reqs[1..], request, ctx, Bind(kwargs, reqs[0].name, v))
  }

  /** The index of the first requirement that returns a response; `|reqs|` if none does. */
  function FirstTerminal(reqs: seq<Requirement>, request: Request, ctx: Context): (k: nat)
    ensures k <= |reqs|
    ensures forall j :: 0 <= j < k ==> Prepare(reqs[j], request, ctx).Yield?
    ensures k < |reqs| ==> Prepare(reqs[k], request, ctx).Terminal?
  {
    if reqs == [] then 0
    else if Prepare(reqs[0], request, ctx).Terminal? then 0
    else 1 + FirstTerminal(reqs[1..], request, ctx)
  }

  /** How many requirements `wrapper_handler` prepares: up to and including the first terminal one. */
  function PreparedCount(reqs: seq<Requirement>, request: Request, ctx: Context): nat
  {
    var k := FirstTerminal(reqs, request, ctx);
    if k < |reqs| then k + 1 else |reqs|
  }

  /**
    `wrapper_handler`'s loop. `prepared` lists the requirements whose
    `prepare_requirement` ran, in the order they ran.
  */
  method Require(reqs: seq<Requirement>, request: Request, ctx: Context)
    returns (g: Gathered, prepared: seq<Requirement>)
    ensures g == Gather(reqs, request, ctx, map[])
    ensures prepared == reqs[..PreparedCount(reqs, request, ctx)]
  {
    var kwargs: map<string, Value> := map[];
    prepared := [];
    var i := 0;
    while i < |reqs|
      invariant 0 <= i <= |reqs|
      invariant forall j :: 0 <= j < i ==> Prepare(reqs[j], request, ctx).Yield?
      invariant prepared == reqs[..i]
      invariant Gather(reqs[i..], request, ctx, kwargs) == Gather(reqs, request, ctx, map[])
    {
      var result := Prepare(reqs[i], request, ctx);
      prepared := prepared + [reqs[i]];
      if result.Terminal? {
        FirstTerminalAt(reqs, request, ctx, i);
        return Abort(result.response), prepared;
      }
      kwargs := Bind(kwargs, reqs[i].name, result.value);
      assert reqs[i..][1..] == reqs[i + 1..];
      i := i + 1;
    }
    FirstTerminalAt(reqs, request, ctx, |reqs|);
    assert reqs[..i] == reqs;
    g := Proceed(kwargs);
  }

  /** The first terminal index is pinned down by the requirements before it. */
  lemma {:induction false} FirstTerminalAt(reqs: seq<Requirement>, request: Request, ctx: Context, i: nat)
    requires i <= |reqs|
    requires forall j :: 0 <= j < i ==> Prepare(reqs[j], request, ctx).Yield?
    requires i < |reqs| ==> Prepare(reqs[i], request, ctx).Terminal?
    ensures FirstTerminal(reqs, request, ctx) == i
  {
    if i > 0 {
      assert forall j :: 0 <= j < |reqs| - 1 ==> reqs[1..][j] == reqs[j + 1];
      FirstTerminalAt(reqs[1..], request, ctx, i - 1);
    }
  }

  /**
    The request ends early exactly when some requirement returns a
    response, and then with the response of the first one.
  */
  lemma {:induction false} AbortsWithFirstTerminal(
    reqs: seq<Requirement>, request: Request, ctx: Context, kwargs: map<string, Value>)
    ensures Gather(reqs, request, ctx, kwargs).Abort? <==> FirstTerminal(reqs, request, ctx) < |reqs|
    ensures Gather(reqs, request, ctx, kwargs).Abort? ==>
      Gather(reqs, request, ctx, kwargs).response ==
      Prepare(reqs[FirstTerminal(reqs, request, ctx)], request, ctx).response
  {
    if reqs != [] && Prepare(reqs[0], request, ctx).Yield? {
      var v := Prepare(reqs[0], request, ctx).value;
      AbortsWithFirstTerminal(reqs[1..], request, ctx, Bind(kwargs, reqs[0].name, v));
    }
  }

  /**
    Short-circuit: once a requirement returns a response, the requirements
    after it are never prepared, so appending more changes nothing.
  */
  lemma {:induction false} LaterRequirementsIgnored(
    reqs: seq<Requirement>, more: seq<Requirement>, request: Request, ctx: Context, kwargs: map<string, Value>)
    requires FirstTerminal(reqs, request, ctx) < |reqs|
    ensures Gather(reqs + more, request, ctx, kwargs) == Gather(reqs, request, ctx, kwargs)
    ensures FirstTerminal(reqs + more, request, ctx) == FirstTerminal(reqs, request, ctx)
  {
    assert (reqs + more)[0] == reqs[0];
    if Prepare(reqs[0], request, ctx).Yield? {
      assert (reqs + more)[1..] == reqs[1..] + more;
      var v := Prepare(reqs[0], request, ctx).value;
      LaterRequirementsIgnored(reqs[1..], more, request, ctx, Bind(kwargs, reqs[0].name, v));
    }
  }

  /** Some requirement among `reqs` carries the name `n`. */
  predicate Named(reqs: seq<Requirement>, n: string)
  {
    exists j :: 0 <= j < |reqs| && reqs[j].name == Some(n)
  }

  /**
    The handler's arguments: a name is bound exactly when the arguments
    already had it or some requirement carries it (so an unnamed requirement
    adds nothing), and it is bound to the value of the LAST requirement that
    carries it.
  */
  lemma {:induction false} ArgumentsByName(
    reqs: seq<Requirement>, request: Request, ctx: Context, kwargs: map<string, Value>)
    requires Gather(reqs, request, ctx, kwargs).Proceed?
    ensures var out := Gather(reqs, request, ctx, kwargs).kwargs;
      && (forall j :: 0 <= j < |reqs| ==> Prepare(reqs[j], request, ctx).Yield?)
      && (forall n :: n in out <==> n in kwargs || Named(reqs, n))
      && (forall n :: n in kwargs && !Named(reqs, n) ==> out[n] == kwargs[n])
      && (forall j, n :: 0 <= j < |reqs| && reqs[j].name == Some(n) && !Named(reqs[j + 1..], n) ==>
            n in out && out[n] == Prepare(reqs[j], request, ctx).value)
  {
    if reqs != [] {
      var v := Prepare(reqs[0], request, ctx).value;
      var bound := Bind(kwargs, reqs[0].name, v);
      var rest := reqs[1..];
      ArgumentsByName(rest, request, ctx, bound);
      var out := Gather(reqs, request, ctx, kwargs).kwargs;
      forall n
        ensures Named(reqs, n) <==> reqs[0].name == Some(n) || Named(rest, n)
      {
        if Named(reqs, n) {
          var j :| 0 <= j < |reqs| && reqs[j].name == Some(n);
          if j > 0 {
            assert rest[j - 1] == reqs[j];
          }
        }
        if Named(rest, n) {
          var j :| 0 <= j < |rest| && rest[j].name == Some(n);
          assert reqs[j + 1] == rest[j];
        }
      }
      forall j | 0 <= j < |reqs|
        ensures Prepare(reqs[j], request, ctx).Yield?
      {
        if j > 0 {
          assert rest[j - 1] == reqs[j];
        }
      }
      forall j, n | 0 <= j < |reqs| && reqs[j].name == Some(n) && !Named(reqs[j + 1..], n)
        ensures n in out && out[n] == Prepare(reqs[j], request, ctx).value
      {
        if j == 0 {
          assert reqs[1..] == rest;
        } else {
          assert rest[j - 1] == reqs[j];
          assert rest[j - 1 + 1..] == reqs[j + 1..];
        }
      }
    }
  }

  /** `pydantic_response`: a 200 JSON response whose body has every `null` field left out. */
  function PydanticResponse(model: Json): (r: Response)
    ensures r.status == 200 && r.body.JsonText?
    ensures NoNullFields(r.body.json)
    ensures r.body.json == ExcludeNone(model)
  {
    ExcludeNoneLeavesNoNullField(model);
    JsonResponse(ExcludeNone(model))
  }
}
