/** Looking up a constructor parameter by name in the constructor's parameter list. */
module Params {

  /** `parameters.index(name)`: the first position holding `name`. */
  function FirstIndex(ps: seq<string>, name: string): (r: nat)
    requires name in ps
    ensures r < |ps| && ps[r] == name
    ensures forall j :: 0 <= j < r ==> ps[j] != name
  {
    if ps[0] == name then 0 else 1 + FirstIndex(ps[1..], name)
  }

  /**
    `get_args_parameter_index`: the position of `name` among the parameter names, or -1 when
    the constructor has no parameter of that name.
   */
  function GetArgsParameterIndex(ps: seq<string>, name: string): (r: int)
    ensures -1 <= r < |ps|
    ensures r == -1 <==> name !in ps
    ensures r >= 0 ==> ps[r] == name && forall j :: 0 <= j < r ==> ps[j] != name
  {
    if name in ps then FirstIndex(ps, name) else -1
  }
}
