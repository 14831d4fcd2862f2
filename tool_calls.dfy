/**
 * The function-calling reply of the language model: a sequence of tool calls,
 * each naming a function and carrying its (already decoded) arguments. Both
 * callers act on the first call with the name they expect and ignore the rest.
 */
module ToolCalls {
  import opened Wrappers

  datatype ToolCall<A> = ToolCall(name: string, arguments: A)

  /** Position of the first call named `name`, if any. */
  function FirstNamed<A>(calls: seq<ToolCall<A>>, name: string): (r: Option<nat>)
    ensures r.Some? ==> r.value < |calls| && calls[r.value].name == name
    ensures forall j :: 0 <= j < |calls| && (r.None? || j < r.value) ==> calls[j].name != name
  {
    if |calls| == 0 then None
    else if calls[0].name == name then Some(0)
    else
      match FirstNamed(calls[1..], name)
      case None => None
      case Some(k) => Some(k + 1)
  }

  /** The first matching call is determined by the calls before it and its own name. */
  lemma FirstNamedAt<A>(calls: seq<ToolCall<A>>, name: string, i: nat)
    requires i < |calls| && calls[i].name == name
    requires forall j :: 0 <= j < i ==> calls[j].name != name
    ensures FirstNamed(calls, name) == Some(i)
  {
  }

  /** The scan both callers perform: walk the calls until one has the expected name. */
  method FindFirstNamed<A>(calls: seq<ToolCall<A>>, name: string) returns (r: Option<nat>)
    ensures r == FirstNamed(calls, name)
  {
    var i := 0;
    while i < |calls|
      invariant 0 <= i <= |calls|
      invariant forall j :: 0 <= j < i ==> calls[j].name != name
    {
      if calls[i].name == name {
        FirstNamedAt(calls, name, i);
        return Some(i);
      }
      i := i + 1;
    }
    return None;
  }
}
