/**
 * The LumaGenerator component (components/LumaGenerator.tsx): a prompt box and
 * a submit button. Submitting clears the previous result and error, and the
 * call ends with either a parsed result or an error message, never both.
 */
module LumaGenerator {
  import opened Wrappers
  import opened JsValue
  import opened Remote

  const ServerErrorPrefix := "Server error: "
  const FallbackMessage := "Something went wrong."

  datatype LumaState = LumaState(prompt: string, result: Value, loading: bool, error: Option<string>)

  const Initial := LumaState("", Null, false, None)

  /**
   * What holds between any two events: a request in flight shows neither an
   * error nor a result, and an error is never shown beside a result.
   */
  predicate ValidState(s: LumaState) {
    (s.loading ==> s.error.None? && s.result.Null?) && (s.error.Some? ==> s.result.Null?)
  }

  /** `disabled={loading || !prompt}`, negated: only the empty prompt is refused, not a blank one. */
  function SubmitEnabled(loading: bool, prompt: string): (enabled: bool)
    ensures enabled <==> !loading && |prompt| > 0
  {
    !(loading || prompt == "")
  }

  /** `err.message || 'Something went wrong.'` */
  function Message(message: string): (r: string)
    ensures r != ""
    ensures message != "" ==> r == message
    ensures message == "" ==> r == FallbackMessage
  {
    if message == "" then FallbackMessage else message
  }

  /** `handleSubmit` before the request: loading on, error and result cleared. */
  function Started(s: LumaState): (r: LumaState)
    ensures ValidState(r) && r.loading && r.prompt == s.prompt
  {
    s.(loading := true, error := None, result := Null)
  }

  /**
   * The completion of `handleSubmit`: a non-OK status throws "Server error: "
   * followed by the status text before the body is read; a failed fetch or
   * parse shows its message; a parsed OK body becomes the result.
   */
  function Settled(s: LumaState, out: Outcome): (r: LumaState)
    requires ValidState(s) && s.loading
    ensures ValidState(r) && !r.loading && r.prompt == s.prompt
    ensures out.Response? && out.ok && out.body.Json? ==> r.result == out.body.data && r.error.None?
    ensures out.Response? && !out.ok ==> r.error == Some(ServerErrorPrefix + out.statusText) && r.result.Null?
    ensures out.NetworkFailure? ==> r.error == Some(Message(out.message)) && r.result.Null?
    ensures out.NetworkFailure? && out.message == "" ==> r.error == Some(FallbackMessage)
    ensures out.Response? && out.ok && out.body.Malformed? && out.body.message == "" ==> r.error == Some(FallbackMessage)
    ensures out.Response? && out.ok && out.body.Malformed? ==> r.error == Some(Message(out.body.message)) && r.result.Null?
  {
    match out
    case NetworkFailure(message) => s.(error := Some(Message(message)), loading := false)
    case Response(ok, statusText, body) =>
      if !ok then s.(error := Some(Message(ServerErrorPrefix + statusText)), loading := false)
      else match body
        case Malformed(message) => s.(error := Some(Message(message)), loading := false)
        case Json(data) => s.(result := data, loading := false)
  }

  /** A submission that does not reach the service ends with an error, never a result. */
  lemma FailureShowsNoResult(s: LumaState, out: Outcome)
    requires ValidState(s)
    requires !(out.Response? && out.ok && out.body.Json?)
    ensures Settled(Started(s), out).error.Some? && Settled(Started(s), out).result.Null?
  {
  }

  /** A whitespace-only prompt can be submitted: only emptiness disables the button. */
  lemma BlankPromptSubmits()
    ensures SubmitEnabled(false, " ")
    ensures !SubmitEnabled(false, "") && !SubmitEnabled(true, "a prompt")
  {
  }

  /** The component's cells, updated in place by the event handlers. */
  class Luma {
    var prompt: string
    var result: Value
    var loading: bool
    var error: Option<string>

    function State(): LumaState
      reads this
    {
      LumaState(prompt, result, loading, error)
    }

    predicate Valid()
      reads this
    {
      ValidState(State())
    }

    constructor ()
      ensures Valid() && State() == Initial
    {
      prompt := "";
      result := Null;
      loading := false;
      error := None;
    }

    method SetPrompt(text: string)
      requires Valid()
      modifies this
      ensures Valid() && State() == old(State()).(prompt := text)
    {
      prompt := text;
    }

    /** `handleSubmit` up to the request, reachable only while the button is enabled. */
    method BeginSubmit() returns (request: Value)
      requires Valid() && SubmitEnabled(loading, prompt)
      modifies this
      ensures Valid() && request == Obj([Field("prompt", Str(old(prompt)))])
      ensures State() == Started(old(State()))
    {
      loading := true;
      error := None;
      result := Null;
      request := Obj([Field("prompt", Str(prompt))]);
    }

    /** `handleSubmit` from the response on, `finally` included. */
    method CompleteSubmit(out: Outcome)
      requires Valid() && loading
      modifies this
      ensures Valid() && State() == Settled(old(State()), out)
    {
      match out {
        case NetworkFailure(message) =>
          error := Some(Message(message));
        case Response(ok, statusText, body) =>
          if !ok {
            error := Some(Message(ServerErrorPrefix + statusText));
          } else if body.Malformed? {
            error := Some(Message(body.message));
          } else {
            result := body.data;
          }
      }
      loading := false;
    }
  }
}
