/** The parts of Joi's object validation the schemas rely on. */
module Joi {
  import opened Wrappers

  /** Joi's built-in `.email()` and `.uri()` grammars, which this model does not
      define: every schema that uses them takes them as a parameter. */
  datatype Grammars = Grammars(isEmail: string -> bool, isUri: string -> bool)

  /** One rule of a schema, evaluated: the key it belongs to and whether it held. */
  datatype Check = Check(key: string, ok: bool)

  predicate Passes(checks: seq<Check>)
  {
    forall i :: 0 <= i < |checks| ==> checks[i].ok
  }

  /** The keys a schema's rules belong to, in order. */
  function Keys(checks: seq<Check>): seq<string>
  {
    seq(|checks|, i requires 0 <= i < |checks| => checks[i].key)
  }

  /** The position of the first failing rule, in schema order. */
  function FirstFailing(checks: seq<Check>): (r: Option<nat>)
    ensures r.None? <==> Passes(checks)
    ensures r.Some? ==> r.value < |checks| && !checks[r.value].ok
    ensures r.Some? ==> forall j :: 0 <= j < r.value ==> checks[j].ok
  {
    if checks == [] then None
    else if !checks[0].ok then Some(0)
    else match FirstFailing(checks[1..])
      case None => None
      case Some(i) => Some(i + 1)
  }

  /** The key Joi reports when validation stops at the first error (abortEarly). */
  function FirstError(checks: seq<Check>): Option<string>
  {
    match FirstFailing(checks)
    case None => None
    case Some(i) => Some(checks[i].key)
  }

  /** `Joi.string()` present: a string, not null, and not empty (Joi rejects ""
      unless `.allow("")` is given). */
  predicate IsString(f: Field<string>)
  {
    f.Given? && f.value != ""
  }

  /** `Joi.string().min(lo).max(hi).required()` */
  predicate LengthBetween(f: Field<string>, lo: nat, hi: nat)
  {
    IsString(f) && lo <= |f.value| <= hi
  }

  /** `Joi.string().valid(...options).required()` */
  predicate OneOf(f: Field<string>, options: set<string>)
  {
    f.Given? && f.value in options
  }

  /** `Joi.string().uri().required()` */
  predicate IsUri(g: Grammars, f: Field<string>)
  {
    IsString(f) && g.isUri(f.value)
  }

  /** `Joi.string().uri().optional().allow(null)` */
  predicate IsOptionalUri(g: Grammars, f: Field<string>)
  {
    f.Absent? || f.Null? || IsUri(g, f)
  }

  /** `Joi.number().min(lo).max(hi).required()` */
  predicate NumberBetween(f: Field<real>, lo: real, hi: real)
  {
    f.Given? && lo <= f.value <= hi
  }
}
