/** From a stored document to a plan: what is parsed is always compiled. */
module Loading {
  import opened Outcomes
  import opened Indicators
  import opened Reading
  import opened Printing
  import opened Tapes
  import opened RoundTrip
  import Compiler
  import Parser

  datatype Trouble = Unreadable(fault: Parser.Fault) | Uncompiled(message: string)

  /** A plan exists for exactly the documents the parser reads, and implements what it read:
      the compiler never turns down a parsed strategy. */
  method Load(registry: Registry, v: Json) returns (r: Result<Plan, Trouble>)
    requires Registered(registry)
    ensures r.Ok? <==> SpecIn(registry, v).Some?
    ensures r.Ok? ==> Compiler.Compiled(registry, SpecIn(registry, v).value, r.value)
    ensures r.Err? ==> r.error.Unreadable?
  {
    var parsed := Parser.Parse(registry, v);
    if parsed.Err? {
      return Err(Unreadable(parsed.error));
    }
    ParsedIsWellFormed(registry, v);
    Compiler.WellFormedIsCounted(registry, parsed.value);
    var compiled := Compiler.Compile(registry, parsed.value);
    match compiled {
      case Ok(plan) => return Ok(plan);
      case Err(message) => return Err(Uncompiled(message));
    }
  }

  /** A document accepted for storing: what is stored reads as the same strategy, so loading
      it later succeeds, with a plan of that same strategy. */
  method Admit(registry: Registry, v: Json) returns (r: Result<(Json, Plan), Trouble>)
    requires Registered(registry)
    ensures r.Ok? <==> SpecIn(registry, v).Some?
    ensures r.Ok? ==>
      && SpecIn(registry, r.value.0) == SpecIn(registry, v)
      && Compiler.Compiled(registry, SpecIn(registry, v).value, r.value.1)
  {
    var plan :- Load(registry, v);
    ReparseIsIdentity(registry, v);
    r := Ok((PrintSpec(plan.spec), plan));
  }
}
