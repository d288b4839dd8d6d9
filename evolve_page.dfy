/**
 * The archived "evolve" page (pages/archive/index_6_8_25.tsx): every reply is
 * normalised into a typed block; a main prompt starts a new history of one
 * block, and "evolve this direction" from an existing block appends a child
 * that names it as parent.
 */
module EvolvePage {
  import opened Wrappers
  import opened JsValue
  import opened Remote

  /**
   * One normalised result. `id` is the random identifier the page draws; the
   * other fields come from the handler's arguments and the reply (`title` is
   * the block's `label`, a word Dafny reserves).
   */
  datatype Block = Block(
    id: string,
    parentId: Option<string>,
    prompt: string,
    title: Value,
    palette: seq<Value>,
    tags: seq<Value>,
    narrative: Value)

  datatype EvolveState = EvolveState(prompt: string, responses: seq<Block>, loading: bool)

  const Initial := EvolveState("", [], false)

  /** `Array.isArray(v) ? v : []` */
  function ArrayOrEmpty(v: Value): (r: seq<Value>)
    ensures v.Arr? ==> r == v.items
    ensures !v.Arr? ==> r == []
  {
    if v.Arr? then v.items else []
  }

  /**
   * `newBlock`: the reply normalised into a block, or None when `data` is null
   * (reading `data.label` then throws and the page only raises an alert).
   */
  function NewBlock(id: string, parentId: Option<string>, promptText: string, data: Value): (r: Option<Block>)
    ensures r.None? <==> Nullish(data)
    ensures r.Some? ==> r.value.id == id && r.value.parentId == parentId && r.value.prompt == promptText
    ensures r.Some? ==> r.value.title == if Nullish(Get(data, "label")) then Str(promptText) else Get(data, "label")
    ensures r.Some? ==> r.value.palette == ArrayOrEmpty(Get(data, "palette"))
    ensures r.Some? ==> r.value.tags == ArrayOrEmpty(Get(data, "tags"))
    ensures r.Some? ==> r.value.narrative == if Nullish(Get(data, "narrative")) then Str("") else Get(data, "narrative")
  {
    if Nullish(data) then None
    else Some(Block(
      id,
      parentId,
      promptText,
      Coalesce(Get(data, "label"), Str(promptText)),
      ArrayOrEmpty(Get(data, "palette")),
      ArrayOrEmpty(Get(data, "tags")),
      Coalesce(Get(data, "narrative"), Str(""))))
  }

  /** The block a completed call produces, if any. */
  function Produced(id: string, parentId: Option<string>, promptText: string, out: Outcome): Option<Block> {
    match Parsed(out)
    case None => None
    case Some(data) => NewBlock(id, parentId, promptText, data)
  }

  /**
   * The completion of `handleGenerate(promptText, parentId)`: with no parent the
   * new block replaces the whole history, with a parent it is appended; a failed
   * call leaves the history as it was.
   */
  function Settled(s: EvolveState, id: string, parentId: Option<string>, promptText: string, out: Outcome): (r: EvolveState)
    ensures !r.loading && r.prompt == s.prompt
    ensures Produced(id, parentId, promptText, out).None? ==> r.responses == s.responses
    ensures Produced(id, parentId, promptText, out).Some? && parentId.None? ==>
      r.responses == [Produced(id, parentId, promptText, out).value]
    ensures Produced(id, parentId, promptText, out).Some? && parentId.Some? ==>
      |r.responses| == |s.responses| + 1 && r.responses[..|s.responses|] == s.responses &&
      r.responses[|s.responses|] == Produced(id, parentId, promptText, out).value
  {
    match Produced(id, parentId, promptText, out)
    case None => s.(loading := false)
    case Some(block) =>
      if parentId.None? then s.(responses := [block], loading := false)
      else s.(responses := s.responses + [block], loading := false)
  }

  /** The ids of the blocks on show, which are the only parents the page can name. */
  predicate IsBlockId(responses: seq<Block>, id: string) {
    exists j | 0 <= j < |responses| :: responses[j].id == id
  }

  /**
   * The history is a tree rooted at its first block: that block has no parent,
   * and every later block names an earlier block as its parent.
   */
  predicate RootedHistory(responses: seq<Block>) {
    (responses != [] ==> responses[0].parentId.None?) &&
    forall i | 0 < i < |responses| ::
      responses[i].parentId.Some? && IsBlockId(responses[..i], responses[i].parentId.value)
  }

  /**
   * Every completion keeps the history a rooted tree, given that an evolve call
   * names a block on show, as the per-block evolve input does.
   */
  lemma SettledKeepsRootedHistory(s: EvolveState, id: string, parentId: Option<string>, promptText: string, out: Outcome)
    requires RootedHistory(s.responses)
    requires parentId.Some? ==> IsBlockId(s.responses, parentId.value)
    ensures RootedHistory(Settled(s, id, parentId, promptText, out).responses)
  {
    var r := Settled(s, id, parentId, promptText, out).responses;
    if Produced(id, parentId, promptText, out).Some? && parentId.Some? {
      var n := |s.responses|;
      forall i | 0 < i < |r|
        ensures r[i].parentId.Some? && IsBlockId(r[..i], r[i].parentId.value)
      {
        assert r[..i][..i] == r[..i];
        if i < n {
          assert r[..i] == s.responses[..i];
          assert r[i] == s.responses[i];
        } else {
          assert r[..i] == s.responses;
        }
      }
    }
  }

  /** The page's cells, updated in place by the event handlers. */
  class Evolve {
    var prompt: string
    var responses: seq<Block>
    var loading: bool

    function State(): EvolveState
      reads this
    {
      EvolveState(prompt, responses, loading)
    }

    predicate Valid()
      reads this
    {
      RootedHistory(responses)
    }

    constructor ()
      ensures Valid() && State() == Initial
    {
      prompt := "";
      responses := [];
      loading := false;
    }

    method SetPrompt(text: string)
      requires Valid()
      modifies this
      ensures Valid() && State() == old(State()).(prompt := text)
    {
      prompt := text;
    }

    /** `handleGenerate` up to the request: there is no guard, any text is sent. */
    method BeginGenerate(promptText: string) returns (request: Value)
      requires Valid()
      modifies this
      ensures Valid() && request == Obj([Field("prompt", Str(promptText))])
      ensures State() == old(State()).(loading := true)
    {
      loading := true;
      request := Obj([Field("prompt", Str(promptText))]);
    }

    /** `handleGenerate` from the reply on; `id` is the identifier drawn for the block. */
    method CompleteGenerate(id: string, parentId: Option<string>, promptText: string, out: Outcome)
      requires Valid()
      requires parentId.Some? ==> IsBlockId(responses, parentId.value)
      modifies this
      ensures Valid() && State() == Settled(old(State()), id, parentId, promptText, out)
    {
      SettledKeepsRootedHistory(State(), id, parentId, promptText, out);
      if out.Response? && out.body.Json? {
        var data := out.body.data;
        if !Nullish(data) {
          var newBlock := Block(
            id,
            parentId,
            promptText,
            Coalesce(Get(data, "label"), Str(promptText)),
            ArrayOrEmpty(Get(data, "palette")),
            ArrayOrEmpty(Get(data, "tags")),
            Coalesce(Get(data, "narrative"), Str("")));
          if parentId.None? {
            responses := [newBlock];
          } else {
            responses := responses + [newBlock];
          }
        }
      }
      loading := false;
    }

    /** Enter in the evolve input of block `at`: the text becomes the prompt and is evolved from that block. */
    method Evolve(at: nat, text: string) returns (request: Value, parentId: Option<string>)
      requires Valid() && at < |responses|
      modifies this
      ensures Valid() && request == Obj([Field("prompt", Str(text))])
      ensures parentId == Some(old(responses)[at].id) && IsBlockId(responses, parentId.value)
      ensures State() == old(State()).(prompt := text, loading := true)
    {
      parentId := Some(responses[at].id);
      request := BeginGenerate(text);
      SetPrompt(text);
    }
  }
}
