/**
 * The archived chat page (pages/archive/index.tsx): a main prompt whose reply
 * starts a fresh history of one entry, and a chat box whose accepted Isla
 * replies are appended to that history one turn at a time. Enter (without
 * Shift) in either text area triggers the matching handler.
 */
module ArchivePage {
  import opened Wrappers
  import opened JsValue
  import opened JsString
  import opened Remote

  const InvalidBackend := "Invalid backend response."
  const GenerateFailed := "Failed to generate palette."
  const IslaInvalid := "Invalid Isla response."
  const IslaFailed := "Isla failed to respond."
  const IslaLabel := "Isla Response"
  const Tone := "resilient"

  datatype ArchiveState = ArchiveState(
    prompt: string,
    chatInput: string,
    responses: seq<Value>,
    loading: bool,
    error: Value)

  const Initial := ArchiveState("", "", [], false, Str(""))

  /**
   * Every history entry is an object (both handlers build object literals), so
   * reading `r.user` and `r.reply` for the thread never throws; and no error is
   * on show while a request is in flight.
   */
  predicate ValidState(s: ArchiveState) {
    (forall i | 0 <= i < |s.responses| :: s.responses[i].Obj?) && (s.loading ==> s.error == Str(""))
  }

  /** Which text area a key press came from. */
  datatype Area = MainArea | ChatArea

  /** `handleKeyPress`: the handler an Enter without Shift triggers, if any. */
  function KeyDispatch(key: string, shift: bool, area: Area): (r: Option<Area>)
    ensures r.Some? <==> key == "Enter" && !shift
    ensures r.Some? ==> r.value == area
  {
    if key == "Enter" && !shift then Some(area) else None
  }

  function First(responses: seq<Value>): Value {
    if responses == [] then Undefined else responses[0]
  }

  function Started(s: ArchiveState): ArchiveState {
    s.(loading := true, error := Str(""))
  }

  /** The reply parsed, is truthy and carries no truthy `error`. */
  predicate Accepted(out: Outcome) {
    Parsed(out).Some? && Truthy(Parsed(out).value) && !Truthy(Get(Parsed(out).value, "error"))
  }

  /** The error a refused reply shows: the service's own `error`, else `fallback`. */
  function RefusalMessage(data: Value, fallback: string): (r: Value)
    requires fallback != ""
    ensures Truthy(r)
    ensures r == if Truthy(OptGet(data, "error")) then OptGet(data, "error") else Str(fallback)
  {
    Or(OptGet(data, "error"), Str(fallback))
  }

  // ---------------------------------------------------------------- main generate

  /** The body `handleMainGenerate` posts, or None when the prompt is blank. */
  function MainRequest(s: ArchiveState): (r: Option<Value>)
    ensures r.None? <==> Blank(s.prompt)
    ensures r.Some? ==> r.value == Obj([Field("prompt", Str(s.prompt))])
  {
    TrimEmptyIffBlank(s.prompt);
    if Trim(s.prompt) == "" then None else Some(Obj([Field("prompt", Str(s.prompt))]))
  }

  /**
   * `{ prompt, ...data }`: the reply's own fields win over the prompt. The
   * page stores any truthy reply without an `error`, so `data` may also be a
   * string or an array, whose characters or items are spread under their
   * index keys; a number or boolean spreads nothing.
   */
  function PromptEntry(prompt: string, data: Value): (r: Value)
    ensures r.Obj? && r.fields != [] && r.fields[0].key == "prompt"
    ensures (data.Obj? ==> DistinctKeys(data.fields)) ==>
      forall k :: Get(r, k) == if HasKey(Spread(data), k) then Lookup(Spread(data), k) else if k == "prompt" then Str(prompt) else Undefined
  {
    var r := Obj(Assign([Field("prompt", Str(prompt))], Spread(data)));
    AssignKeepsFirst([Field("prompt", Str(prompt))], Spread(data));
    assert !data.Obj? ==> DistinctKeys(Spread(data)) by {
      if !data.Obj? {
        SpreadIndicesDistinct(data);
      }
    }
    forall k | data.Obj? ==> DistinctKeys(data.fields)
      ensures Get(r, k) == if HasKey(Spread(data), k) then Lookup(Spread(data), k) else if k == "prompt" then Str(prompt) else Undefined
    {
      LookupAssign([Field("prompt", Str(prompt))], Spread(data), k);
    }
    r
  }

  /**
   * Spreading after a literal never moves the literal's first key, in the
   * insertion order this model gives object keys (JavaScript would list
   * integer-like keys of the reply first; the page never observes the order).
   */
  lemma {:induction false} AssignKeepsFirst(fields: seq<Field>, more: seq<Field>)
    requires fields != []
    ensures Assign(fields, more) != [] && Assign(fields, more)[0].key == fields[0].key
    decreases |more|
  {
    if more != [] {
      var next := Put(fields, more[0].key, more[0].val);
      assert next[0].key == fields[0].key;
      AssignKeepsFirst(next, more[1..]);
    }
  }

  /**
   * The completion of `handleMainGenerate`, whose request sent `sent`: an
   * accepted reply replaces the whole history by the single entry
   * `{prompt: sent, ...data}`; a refused or failed one keeps the history and
   * shows an error. `sent` is the prompt the handler captured when it ran, not
   * what the prompt box holds when the reply arrives.
   */
  function MainSettled(s: ArchiveState, sent: string, out: Outcome): (r: ArchiveState)
    ensures !r.loading && r.prompt == s.prompt && r.chatInput == s.chatInput
    ensures Accepted(out) ==> r.responses == [PromptEntry(sent, Parsed(out).value)] && r.error == s.error
    ensures !Accepted(out) ==> r.responses == s.responses && Truthy(r.error)
    ensures Parsed(out).None? ==> r.error == Str(GenerateFailed)
    ensures Parsed(out).Some? && !Accepted(out) ==> r.error == RefusalMessage(Parsed(out).value, InvalidBackend)
  {
    match Parsed(out)
    case None => s.(error := Str(GenerateFailed), loading := false)
    case Some(data) =>
      if !Truthy(data) || Truthy(Get(data, "error")) then
        s.(error := Or(OptGet(data, "error"), Str(InvalidBackend)), loading := false)
      else s.(responses := [PromptEntry(sent, data)], loading := false)
  }

  // ---------------------------------------------------------------- Isla chat

  /** The chat context: the first entry's label and tags (or "" and []), tone "resilient". */
  function ChatContext(responses: seq<Value>): (r: Value)
    ensures r.Obj? && Keys(r.fields) == ["label", "tags", "tone"]
    ensures Get(r, "label") == if Truthy(OptGet(First(responses), "label")) then OptGet(First(responses), "label") else Str("")
    ensures Get(r, "tags") == if Truthy(OptGet(First(responses), "tags")) then OptGet(First(responses), "tags") else Arr([])
    ensures Get(r, "tone") == Str(Tone)
  {
    var fields := [
      Field("label", Or(OptGet(First(responses), "label"), Str(""))),
      Field("tags", Or(OptGet(First(responses), "tags"), Arr([]))),
      Field("tone", Str(Tone))];
    LookupAt(fields, 0); LookupAt(fields, 1); LookupAt(fields, 2);
    Obj(fields)
  }

  /** The thread sent to Isla: one `{user, isla}` turn per history entry, in order. */
  function Thread(responses: seq<Value>): (r: seq<Value>)
    requires forall i | 0 <= i < |responses| :: !Nullish(responses[i])
    ensures |r| == |responses|
    ensures forall i | 0 <= i < |r| ::
      r[i].Obj? && Keys(r[i].fields) == ["user", "isla"] &&
      Get(r[i], "user") == Get(responses[i], "user") && Get(r[i], "isla") == Get(responses[i], "reply")
  {
    var r := seq(|responses|, i requires 0 <= i < |responses| =>
      Obj([Field("user", Get(responses[i], "user")), Field("isla", Get(responses[i], "reply"))]));
    forall i | 0 <= i < |r|
      ensures Keys(r[i].fields) == ["user", "isla"]
      ensures Get(r[i], "user") == Get(responses[i], "user") && Get(r[i], "isla") == Get(responses[i], "reply")
    {
      LookupAt(r[i].fields, 0); LookupAt(r[i].fields, 1);
      assert Keys(r[i].fields)[0] == "user" && Keys(r[i].fields)[1] == "isla";
    }
    r
  }

  /** The body `handleIslaQuery` posts, or None when the chat input is blank. */
  function IslaRequest(s: ArchiveState): (r: Option<Value>)
    requires ValidState(s)
    ensures r.None? <==> Blank(s.chatInput)
    ensures r.Some? ==> r.value.Obj? && Keys(r.value.fields) == ["prompt", "context", "thread"]
    ensures r.Some? ==> Get(r.value, "prompt") == Str(s.chatInput)
    ensures r.Some? ==> Get(r.value, "context") == ChatContext(s.responses)
    ensures r.Some? ==> Get(r.value, "thread") == Arr(Thread(s.responses))
  {
    TrimEmptyIffBlank(s.chatInput);
    if Trim(s.chatInput) == "" then None
    else
      var fields := [
        Field("prompt", Str(s.chatInput)),
        Field("context", ChatContext(s.responses)),
        Field("thread", Arr(Thread(s.responses)))];
      LookupAt(fields, 0); LookupAt(fields, 1); LookupAt(fields, 2);
      Some(Obj(fields))
  }

  /** The keys of an appended Isla entry, in the order the page writes them. */
  const EntryKeys := ["user", "reply", "label", "narrative", "tags", "paletteName", "mood", "idealUse", "palette"]

  lemma EntryKeysDistinct()
    ensures DistinctStrings(EntryKeys)
  {
  }

  /** The entry an accepted Isla reply appends. */
  function IslaEntry(chatInput: string, data: Value): (r: Value)
    requires !Nullish(data)
    ensures r.Obj? && Keys(r.fields) == EntryKeys
    ensures Get(r, "user") == Str(chatInput) && Get(r, "label") == Str(IslaLabel)
    ensures Get(r, "narrative") == if Truthy(Get(data, "narrative")) then Get(data, "narrative") else Str("")
    ensures Get(r, "tags") == if Truthy(Get(data, "tags")) then Get(data, "tags") else Arr([])
    ensures Get(r, "reply") == Get(data, "reply") && Get(r, "paletteName") == Get(data, "paletteName")
    ensures Get(r, "mood") == Get(data, "mood") && Get(r, "idealUse") == Get(data, "idealUse")
    ensures Get(r, "palette") == Get(data, "colors")
  {
    var vals := [
      Str(chatInput),
      Get(data, "reply"),
      Str(IslaLabel),
      Or(Get(data, "narrative"), Str("")),
      Or(Get(data, "tags"), Arr([])),
      Get(data, "paletteName"),
      Get(data, "mood"),
      Get(data, "idealUse"),
      Get(data, "colors")];
    EntryKeysDistinct();
    LookupZip(EntryKeys, vals, 0); LookupZip(EntryKeys, vals, 1); LookupZip(EntryKeys, vals, 2);
    LookupZip(EntryKeys, vals, 3); LookupZip(EntryKeys, vals, 4); LookupZip(EntryKeys, vals, 5);
    LookupZip(EntryKeys, vals, 6); LookupZip(EntryKeys, vals, 7); LookupZip(EntryKeys, vals, 8);
    Obj(Zip(EntryKeys, vals))
  }

  /**
   * The completion of `handleIslaQuery`, whose request sent the message `sent`:
   * an accepted reply appends exactly one entry for that message and keeps
   * every earlier one; any other outcome keeps the history and shows an error.
   * The chat box is cleared whatever happened, including text typed while
   * the request was in flight.
   */
  function IslaSettled(s: ArchiveState, sent: string, out: Outcome): (r: ArchiveState)
    ensures !r.loading && r.chatInput == "" && r.prompt == s.prompt
    ensures Accepted(out) ==> r.responses == s.responses + [IslaEntry(sent, Parsed(out).value)] && r.error == s.error
    ensures !Accepted(out) ==> r.responses == s.responses && Truthy(r.error)
    ensures Parsed(out).None? ==> r.error == Str(IslaFailed)
    ensures Parsed(out).Some? && !Accepted(out) ==> r.error == RefusalMessage(Parsed(out).value, IslaInvalid)
  {
    match Parsed(out)
    case None => s.(error := Str(IslaFailed), chatInput := "", loading := false)
    case Some(data) =>
      if !Truthy(data) || Truthy(Get(data, "error")) then
        s.(error := Or(OptGet(data, "error"), Str(IslaInvalid)), chatInput := "", loading := false)
      else
        s.(responses := s.responses + [IslaEntry(sent, data)], chatInput := "", loading := false)
  }

  /** Typing `text` into the chat box and pressing Enter, with `out` as the call's outcome. */
  function ChatTurn(s: ArchiveState, text: string, out: Outcome): ArchiveState
    requires ValidState(s)
  {
    var typed := s.(chatInput := text);
    if IslaRequest(typed).None? then typed else IslaSettled(Started(typed), text, out)
  }

  /** A conversation: one chat turn per element of `turns`, in order. */
  function Converse(s: ArchiveState, turns: seq<(string, Outcome)>): (r: ArchiveState)
    requires ValidState(s)
    ensures ValidState(r)
    decreases |turns|
  {
    if turns == [] then s
    else
      var next := ChatTurn(s, turns[0].0, turns[0].1);
      Converse(next, turns[1..])
  }

  /** The number of turns with a non-blank message whose reply was accepted. */
  function Answered(turns: seq<(string, Outcome)>): nat {
    if turns == [] then 0
    else (if !Blank(turns[0].0) && Accepted(turns[0].1) then 1 else 0) + Answered(turns[1..])
  }

  /**
   * A conversation only ever appends: the history before it is kept as a
   * prefix, and it grows by exactly one entry per answered turn.
   */
  lemma {:induction false} ConversationAppends(s: ArchiveState, turns: seq<(string, Outcome)>)
    requires ValidState(s)
    ensures |Converse(s, turns).responses| == |s.responses| + Answered(turns)
    ensures Converse(s, turns).responses[..|s.responses|] == s.responses
    decreases |turns|
  {
    if turns != [] {
      var next := ChatTurn(s, turns[0].0, turns[0].1);
      ConversationAppends(next, turns[1..]);
      assert |next.responses| == |s.responses| + (if !Blank(turns[0].0) && Accepted(turns[0].1) then 1 else 0);
      assert next.responses[..|s.responses|] == s.responses;
      assert Converse(s, turns).responses[..|s.responses|] == Converse(s, turns).responses[..|next.responses|][..|s.responses|];
    }
  }

  /**
   * A new main prompt starts over: after an accepted reply the history is the
   * single entry for that prompt, however long the conversation before it was.
   */
  lemma MainGenerateStartsOver(s: ArchiveState, turns: seq<(string, Outcome)>, out: Outcome)
    requires ValidState(s) && MainRequest(Converse(s, turns)).Some? && Accepted(out)
    ensures |MainSettled(Started(Converse(s, turns)), Converse(s, turns).prompt, out).responses| == 1
    ensures MainSettled(Started(Converse(s, turns)), Converse(s, turns).prompt, out).responses[0] ==
      PromptEntry(s.prompt, Parsed(out).value)
  {
    ConversationKeepsPrompt(s, turns);
  }

  /**
   * Both text boxes stay editable while a request is in flight; what is typed
   * meanwhile does not change the entry the reply stores, which is built from
   * the text the request sent.
   */
  lemma EditsWhileWaitingKeepEntries(s: ArchiveState, prompt: string, chatInput: string, sent: string, out: Outcome)
    ensures MainSettled(s.(prompt := prompt, chatInput := chatInput), sent, out).responses ==
      MainSettled(s, sent, out).responses
    ensures IslaSettled(s.(prompt := prompt, chatInput := chatInput), sent, out).responses ==
      IslaSettled(s, sent, out).responses
    ensures IslaSettled(s.(prompt := prompt, chatInput := chatInput), sent, out).chatInput == ""
  {
  }

  lemma {:induction false} ConversationKeepsPrompt(s: ArchiveState, turns: seq<(string, Outcome)>)
    requires ValidState(s)
    ensures Converse(s, turns).prompt == s.prompt
    decreases |turns|
  {
    if turns != [] {
      ConversationKeepsPrompt(ChatTurn(s, turns[0].0, turns[0].1), turns[1..]);
    }
  }

  /** The page's cells, updated in place by the event handlers. */
  class Archive {
    var prompt: string
    var chatInput: string
    var responses: seq<Value>
    var loading: bool
    var error: Value

    function State(): ArchiveState
      reads this
    {
      ArchiveState(prompt, chatInput, responses, loading, error)
    }

    predicate Valid()
      reads this
    {
      ValidState(State())
    }

    constructor ()
      ensures Valid() && State() == Initial
    {
      prompt, chatInput := "", "";
      responses := [];
      loading := false;
      error := Str("");
    }

    method SetPrompt(text: string)
      requires Valid()
      modifies this
      ensures Valid() && State() == old(State()).(prompt := text)
    {
      prompt := text;
    }

    method SetChatInput(text: string)
      requires Valid()
      modifies this
      ensures Valid() && State() == old(State()).(chatInput := text)
    {
      chatInput := text;
    }

    /** `handleMainGenerate` up to the request. */
    method BeginMainGenerate() returns (request: Option<Value>)
      requires Valid()
      modifies this
      ensures Valid() && request == MainRequest(old(State()))
      ensures request.None? ==> State() == old(State())
      ensures request.Some? ==> State() == Started(old(State()))
    {
      request := MainRequest(State());
      if request.None? {
        return;
      }
      loading := true;
      error := Str("");
    }

    /** `handleMainGenerate` from the reply on; `sent` is the prompt its request carried. */
    method CompleteMainGenerate(sent: string, out: Outcome)
      requires Valid()
      modifies this
      ensures Valid() && State() == MainSettled(old(State()), sent, out)
    {
      if out.Response? && out.body.Json? {
        var data := out.body.data;
        if !Truthy(data) || Truthy(Get(data, "error")) {
          error := Or(OptGet(data, "error"), Str(InvalidBackend));
        } else {
          responses := [PromptEntry(sent, data)];
        }
      } else {
        error := Str(GenerateFailed);
      }
      loading := false;
    }

    /** `handleIslaQuery` up to the request. */
    method BeginIslaQuery() returns (request: Option<Value>)
      requires Valid()
      modifies this
      ensures Valid() && request == IslaRequest(old(State()))
      ensures request.None? ==> State() == old(State())
      ensures request.Some? ==> State() == Started(old(State()))
    {
      request := IslaRequest(State());
      if request.None? {
        return;
      }
      loading := true;
      error := Str("");
    }

    /** `handleIslaQuery` from the reply on; `sent` is the message its request carried, and `finally` clears the chat box. */
    method CompleteIslaQuery(sent: string, out: Outcome)
      requires Valid()
      modifies this
      ensures Valid() && State() == IslaSettled(old(State()), sent, out)
    {
      if out.Response? && out.body.Json? {
        var data := out.body.data;
        if !Truthy(data) || Truthy(Get(data, "error")) {
          error := Or(OptGet(data, "error"), Str(IslaInvalid));
        } else {
          responses := responses + [IslaEntry(sent, data)];
        }
      } else {
        error := Str(IslaFailed);
      }
      chatInput := "";
      loading := false;
    }

    /** `handleKeyPress`: Enter without Shift runs the begin step of the area's handler. */
    method HandleKeyPress(key: string, shift: bool, area: Area) returns (request: Option<Value>)
      requires Valid()
      modifies this
      ensures Valid()
      ensures KeyDispatch(key, shift, area).None? ==> State() == old(State()) && request.None?
      ensures KeyDispatch(key, shift, area) == Some(MainArea) ==> request == MainRequest(old(State()))
      ensures KeyDispatch(key, shift, area) == Some(ChatArea) ==> request == IslaRequest(old(State()))
      ensures request.Some? ==> State() == Started(old(State()))
      ensures request.None? ==> State() == old(State())
    {
      match KeyDispatch(key, shift, area) {
        case None =>
          request := None;
        case Some(MainArea) =>
          request := BeginMainGenerate();
        case Some(ChatArea) =>
          request := BeginIslaQuery();
      }
    }
  }
}
