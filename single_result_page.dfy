/**
 * The archived single-result page (pages/archive/index_6_7_25.tsx): one reply
 * at a time, with every field the renderer reads replaced by a safe default,
 * and per-colour fallbacks for missing chromakeys, reasons and hexes.
 */
module SingleResultPage {
  import opened JsValue
  import opened Remote

  const InvalidBackend := "Invalid backend response."
  const GenerateFailed := "Failed to generate palette. Try again later."

  datatype SingleState = SingleState(prompt: string, response: Value, loading: bool, error: Value)

  const Initial := SingleState("", Null, false, Str(""))

  /** A reply the page keeps: truthy, of type "object", without a truthy `error`. */
  predicate Accepted(data: Value) {
    Truthy(data) && TypeofObject(data) && !Truthy(Get(data, "error"))
  }

  /**
   * What holds between any two events: the stored response is null or a reply
   * the guard accepted, and no error is on show while a request is in flight.
   */
  predicate ValidState(s: SingleState) {
    (s.response.Null? || Accepted(s.response)) && (s.loading ==> s.error == Str(""))
  }

  /** `handleGenerate` up to the request: there is no blank guard, any prompt is sent. */
  function Started(s: SingleState): (r: SingleState)
    ensures r.loading && r.error == Str("") && r.response == s.response && r.prompt == s.prompt
  {
    s.(loading := true, error := Str(""))
  }

  /**
   * The completion of `handleGenerate`: an accepted reply becomes the response;
   * a refused reply or a failure clears it and shows an error.
   */
  function Settled(s: SingleState, out: Outcome): (r: SingleState)
    ensures !r.loading && r.prompt == s.prompt
    ensures Parsed(out).Some? && Accepted(Parsed(out).value) ==> r.response == Parsed(out).value && r.error == s.error
    ensures !(Parsed(out).Some? && Accepted(Parsed(out).value)) ==> r.response == Null && Truthy(r.error)
    ensures Parsed(out).None? ==> r.error == Str(GenerateFailed)
    ensures Parsed(out).Some? && !Accepted(Parsed(out).value) ==>
      r.error == if Truthy(OptGet(Parsed(out).value, "error")) then OptGet(Parsed(out).value, "error") else Str(InvalidBackend)
  {
    match Parsed(out)
    case None => s.(error := Str(GenerateFailed), response := Null, loading := false)
    case Some(data) =>
      if !Truthy(data) || !TypeofObject(data) || Truthy(Get(data, "error")) then
        s.(error := Or(OptGet(data, "error"), Str(InvalidBackend)), response := Null, loading := false)
      else s.(response := data, loading := false)
  }

  /** The four safe values the renderer reads instead of the raw response. */
  datatype SafeView = SafeView(safeLabel: Value, safePalette: seq<Value>, safeTags: seq<Value>, safeNarrative: Value)

  /** `safeLabel`, `safePalette`, `safeTags` and `safeNarrative`. */
  function Safe(response: Value): (v: SafeView)
    ensures Nullish(response) ==> v == SafeView(Str(""), [], [], Str(""))
    ensures OptGet(response, "palette").Arr? ==> v.safePalette == OptGet(response, "palette").items
    ensures !OptGet(response, "palette").Arr? ==> v.safePalette == []
    ensures OptGet(response, "tags").Arr? ==> v.safeTags == OptGet(response, "tags").items
    ensures !OptGet(response, "tags").Arr? ==> v.safeTags == []
    ensures v.safeLabel == if Nullish(OptGet(response, "label")) then Str("") else OptGet(response, "label")
    ensures v.safeNarrative == if Nullish(OptGet(response, "narrative")) then Str("") else OptGet(response, "narrative")
    ensures !Nullish(v.safeLabel) && !Nullish(v.safeNarrative)
  {
    var palette := OptGet(response, "palette");
    var tags := OptGet(response, "tags");
    SafeView(
      Coalesce(OptGet(response, "label"), Str("")),
      if palette.Arr? then palette.items else [],
      if tags.Arr? then tags.items else [],
      Coalesce(OptGet(response, "narrative"), Str("")))
  }

  /**
   * After a refused reply or a failed call nothing of an earlier result stays
   * on show: all four safe values are empty.
   */
  lemma FailureShowsNothing(s: SingleState, out: Outcome)
    requires !(Parsed(out).Some? && Accepted(Parsed(out).value))
    ensures Safe(Settled(s, out).response) == SafeView(Str(""), [], [], Str(""))
  {
  }

  /** The chromakeys line under a colour: "unknown", or the keys joined with " • ". */
  datatype KeysLine = Unknown | Joined(keys: seq<Value>)

  /** What one colour card shows, each field with its fallback. */
  datatype Card = Card(swatch: Value, chromakey: Value, reason: Value, keys: KeysLine, hex: Value)

  /** The card for one entry of `safePalette`. */
  function ColourCard(colour: Value): (c: Card)
    ensures c.swatch == if Nullish(OptGet(colour, "hex")) then Str("#ccc") else OptGet(colour, "hex")
    ensures c.chromakey == if Nullish(OptGet(colour, "chromakey")) then Str("CK-UNKNOWN") else OptGet(colour, "chromakey")
    ensures c.reason == if Nullish(OptGet(colour, "reason")) then Str("No reason provided.") else OptGet(colour, "reason")
    ensures c.keys.Joined? <==> OptGet(colour, "chromakeys").Arr? && |OptGet(colour, "chromakeys").items| > 0
    ensures c.keys.Joined? ==> c.keys.keys == OptGet(colour, "chromakeys").items
    ensures c.hex == if Nullish(OptGet(colour, "hex")) then Str("#") else OptGet(colour, "hex")
  {
    var keys := OptGet(colour, "chromakeys");
    Card(
      Coalesce(OptGet(colour, "hex"), Str("#ccc")),
      Coalesce(OptGet(colour, "chromakey"), Str("CK-UNKNOWN")),
      Coalesce(OptGet(colour, "reason"), Str("No reason provided.")),
      if keys.Arr? && |keys.items| > 0 then Joined(keys.items) else Unknown,
      Coalesce(OptGet(colour, "hex"), Str("#")))
  }

  /** A palette entry that is null, or an object with none of the fields, shows every fallback. */
  lemma EmptyColourShowsFallbacks(colour: Value)
    requires colour.Null? || colour == Obj([])
    ensures ColourCard(colour) == Card(Str("#ccc"), Str("CK-UNKNOWN"), Str("No reason provided."), Unknown, Str("#"))
  {
  }

  /** The page's cells, updated in place by the event handlers. */
  class Single {
    var prompt: string
    var response: Value
    var loading: bool
    var error: Value

    function State(): SingleState
      reads this
    {
      SingleState(prompt, response, loading, error)
    }

    predicate Valid()
      reads this
    {
      ValidState(State())
    }

    constructor ()
      ensures Valid() && State() == Initial
    {
      prompt := "";
      response := Null;
      loading := false;
      error := Str("");
    }

    method SetPrompt(text: string)
      requires Valid()
      modifies this
      ensures Valid() && State() == old(State()).(prompt := text)
    {
      prompt := text;
    }

    /** `handleGenerate` up to the request: sent for every prompt, the empty one included. */
    method BeginGenerate() returns (request: Value)
      requires Valid()
      modifies this
      ensures Valid() && request == Obj([Field("prompt", Str(old(prompt)))])
      ensures State() == Started(old(State()))
    {
      loading := true;
      error := Str("");
      request := Obj([Field("prompt", Str(prompt))]);
    }

    /** `handleGenerate` from the reply on. */
    method CompleteGenerate(out: Outcome)
      requires Valid()
      modifies this
      ensures Valid() && State() == Settled(old(State()), out)
    {
      if out.Response? && out.body.Json? {
        var data := out.body.data;
        if !Truthy(data) || !TypeofObject(data) || Truthy(Get(data, "error")) {
          error := Or(OptGet(data, "error"), Str(InvalidBackend));
          response := Null;
        } else {
          response := data;
        }
      } else {
        error := Str(GenerateFailed);
        response := Null;
      }
      loading := false;
    }
  }
}
