/** The static `requireX` helpers of fSocket: each checks one condition on a PHP value and
    throws a programmer error, naming the offending parameter, when it fails. */
module Checks {
  import opened Errors
  import opened Php

  /** The message of a failed parameter check, e.g. "Parameter $host must be a non-empty string." */
  function ParameterMessage(name: string, what: string): (message: string) {
    "Parameter $" + name + " must be " + what + "."
  }

  /** `requireBool`: only a PHP boolean passes. */
  function RequireBool(param: Value, name: string): (r: Outcome)
    ensures r.Pass? <==> param.PBool?
    ensures r.Fail? ==> r.error == ProgrammerError(ParameterMessage(name, "a bool"))
  {
    if param.PBool? then Pass else Fail(ProgrammerError(ParameterMessage(name, "a bool")))
  }

  /** `requireInt`: only a PHP integer passes; a numeric string or a float does not. */
  function RequireInt(param: Value, name: string): (r: Outcome)
    ensures r.Pass? <==> param.PInt?
    ensures r.Fail? ==> r.error == ProgrammerError(ParameterMessage(name, "an integer"))
  {
    if param.PInt? then Pass else Fail(ProgrammerError(ParameterMessage(name, "an integer")))
  }

  /** `requireNumeric`: integers, floats and numeric strings pass. */
  function RequireNumeric(param: Value, name: string): (r: Outcome)
    ensures r.Pass? <==> IsNumeric(param)
    ensures param.PInt? || param.PFloat? ==> r.Pass?
    ensures param.PNull? || param.PBool? || param.PResource? ==> r.Fail?
    ensures r.Fail? ==> r.error == ProgrammerError(ParameterMessage(name, "numeric"))
  {
    if IsNumeric(param) then Pass else Fail(ProgrammerError(ParameterMessage(name, "numeric")))
  }

  /** `requireNonEmptyString`: a string that PHP's `empty` does not consider empty, so both
      `""` and `"0"` are refused. */
  function RequireNonEmptyString(param: Value, name: string): (r: Outcome)
    ensures r.Pass? <==> param.PStr? && param.s != "" && param.s != "0"
    ensures r.Fail? ==> r.error == ProgrammerError(ParameterMessage(name, "a non-empty string"))
  {
    if param.PStr? && Truthy(param) then Pass
    else Fail(ProgrammerError(ParameterMessage(name, "a non-empty string")))
  }

  /** `requireNotFalse`: any truthy value passes; the error carries the caller's message. */
  function RequireNotFalse(v: Value, msg: string): (r: Outcome)
    ensures v == PBool(false) || v == PNull || v == PStr("") || v == PStr("0") ==> r.Fail?
    ensures v.PResource? || v == PBool(true) ==> r.Pass?
    ensures r.Pass? <==> Truthy(v)
    ensures r.Fail? ==> r.error == ProgrammerError(msg)
  {
    if Truthy(v) then Pass else Fail(ProgrammerError(msg))
  }
}
