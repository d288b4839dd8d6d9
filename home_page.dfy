/**
 * The current Chromos page (pages/index.tsx): a prompt that asks the service for
 * a palette, a chat box that asks Isla about it, a one-click ADA fix, a toggle
 * between the original and the fixed palette, and the per-colour "changed for
 * ADA compliance" indicator.
 *
 * The page's `useState` cells are the fields of class `Home`; each handler is a
 * `Begin…` step (guard, loading on, error cleared) and a `Complete…` step that
 * receives the outcome of the remote call. `HomeState` is the value of all the
 * cells, and the functions over it specify what each step does.
 */
module HomePage {
  import opened Wrappers
  import opened JsValue
  import opened JsString
  import opened Remote

  const GenerateFailed := "An error occurred."
  const UnexpectedFormat := "Unexpected response format."
  const IslaInvalid := "Invalid Isla response."
  const IslaFailed := "Something went wrong."
  const Tone := "resilient"

  /** The settings panel: slider (3 to 10 colours), strict-ADA checkbox, tone preset. */
  datatype Settings = Settings(paletteLength: int, strictAda: bool, tonePreset: string)

  datatype HomeState = HomeState(
    prompt: string,
    chatInput: string,
    settings: Settings,
    responses: seq<Value>,
    islaReply: Value,
    islaPalette: Value,
    loading: bool,
    error: Value)

  const Initial := HomeState("", "", Settings(5, false, ""), [], Null, Null, false, Str(""))

  /**
   * What holds between any two events: the slider keeps the palette length in
   * its range, and no error is on show while a request is in flight.
   */
  predicate ValidState(s: HomeState) {
    3 <= s.settings.paletteLength <= 10 && (s.loading ==> s.error == Str(""))
  }

  /** `responses[0]`, undefined when there is none. */
  function First(responses: seq<Value>): Value {
    if responses == [] then Undefined else responses[0]
  }

  /** Loading on and error cleared, as both request handlers do before the call. */
  function Started(s: HomeState): HomeState {
    s.(loading := true, error := Str(""))
  }

  // ---------------------------------------------------------------- generate

  /** The body `handleGenerate` posts, or None when the blank-prompt guard returns early. */
  function GenerateRequest(s: HomeState): (r: Option<Value>)
    ensures r.None? <==> Blank(s.prompt)
    ensures r.Some? ==> r.value.Obj? && Keys(r.value.fields) == ["prompt", "num_colors", "strict_ada", "tone_preset"]
    ensures r.Some? ==> Get(r.value, "prompt") == Str(s.prompt)
    ensures r.Some? ==> Get(r.value, "num_colors") == Num(s.settings.paletteLength as real)
    ensures r.Some? ==> Get(r.value, "strict_ada") == Bool(s.settings.strictAda)
    ensures r.Some? ==> Get(r.value, "tone_preset") == Str(s.settings.tonePreset)
  {
    TrimEmptyIffBlank(s.prompt);
    if Trim(s.prompt) == "" then None
    else
      var fields := [
        Field("prompt", Str(s.prompt)),
        Field("num_colors", Num(s.settings.paletteLength as real)),
        Field("strict_ada", Bool(s.settings.strictAda)),
        Field("tone_preset", Str(s.settings.tonePreset))];
      LookupAt(fields, 0); LookupAt(fields, 1); LookupAt(fields, 2); LookupAt(fields, 3);
      Some(Obj(fields))
  }

  /** `data.palette` when the reply parsed, is not null and carries an array there. */
  function PaletteOf(out: Outcome): Option<seq<Value>> {
    match Parsed(out)
    case None => None
    case Some(data) =>
      if !Nullish(data) && Get(data, "palette").Arr? then Some(Get(data, "palette").items) else None
  }

  /**
   * The completion of `handleGenerate`: an array `palette` replaces the whole
   * history; anything else keeps it and reports an error. Reading `palette` of a
   * null reply throws, which lands in the catch with the generic message.
   */
  function GenerateSettled(s: HomeState, out: Outcome): (r: HomeState)
    ensures !r.loading
    ensures r == s.(responses := r.responses, error := r.error, loading := false)
    ensures PaletteOf(out).Some? ==> r.responses == PaletteOf(out).value && r.error == s.error
    ensures PaletteOf(out).None? ==> r.responses == s.responses
    ensures PaletteOf(out).None? ==>
      r.error == Str(if Parsed(out).Some? && !Nullish(Parsed(out).value) then UnexpectedFormat else GenerateFailed)
  {
    match Parsed(out)
    case None => s.(error := Str(GenerateFailed), loading := false)
    case Some(data) =>
      if Nullish(data) then s.(error := Str(GenerateFailed), loading := false)
      else
        var palette := Get(data, "palette");
        if palette.Arr? then s.(responses := palette.items, loading := false)
        else s.(error := Str(UnexpectedFormat), loading := false)
  }

  // ---------------------------------------------------------------- Isla chat

  /** The fixed context this page sends with every chat turn. */
  const IslaContext := Obj([Field("label", Str("")), Field("tags", Arr([])), Field("tone", Str(Tone))])

  /** The body `handleIslaQuery` posts, or None when the chat input is blank. */
  function IslaRequest(s: HomeState): (r: Option<Value>)
    ensures r.None? <==> Blank(s.chatInput)
    ensures r.Some? ==> r.value.Obj? && Keys(r.value.fields) == ["prompt", "context"]
    ensures r.Some? ==> Get(r.value, "prompt") == Str(s.chatInput) && Get(r.value, "context") == IslaContext
  {
    TrimEmptyIffBlank(s.chatInput);
    if Trim(s.chatInput) == "" then None
    else
      var fields := [Field("prompt", Str(s.chatInput)), Field("context", IslaContext)];
      LookupAt(fields, 0); LookupAt(fields, 1);
      Some(Obj(fields))
  }

  /** The reply parsed, is truthy and carries no truthy `error`. */
  predicate IslaAccepted(out: Outcome) {
    Parsed(out).Some? && Truthy(Parsed(out).value) && !Truthy(Get(Parsed(out).value, "error"))
  }

  /**
   * The completion of `handleIslaQuery`: an accepted reply sets `islaReply` and
   * an `islaPalette` of exactly four fields copied from it; a refused one shows
   * the service's `error` or a fixed message and keeps both cells.
   */
  function IslaSettled(s: HomeState, out: Outcome): (r: HomeState)
    ensures !r.loading && r.responses == s.responses
    ensures r.prompt == s.prompt && r.chatInput == s.chatInput && r.settings == s.settings
    ensures IslaAccepted(out) ==> r.error == s.error && r.islaReply == Get(Parsed(out).value, "reply")
    ensures IslaAccepted(out) ==> r.islaPalette.Obj? && Keys(r.islaPalette.fields) == ["paletteName", "mood", "idealUse", "colors"]
    ensures IslaAccepted(out) ==>
      Get(r.islaPalette, "paletteName") == Get(Parsed(out).value, "paletteName") &&
      Get(r.islaPalette, "mood") == Get(Parsed(out).value, "mood") &&
      Get(r.islaPalette, "idealUse") == Get(Parsed(out).value, "idealUse") &&
      Get(r.islaPalette, "colors") == Get(Parsed(out).value, "colors")
    ensures !IslaAccepted(out) ==> r.islaReply == s.islaReply && r.islaPalette == s.islaPalette && Truthy(r.error)
    ensures Parsed(out).None? ==> r.error == Str(IslaFailed)
    ensures Parsed(out).Some? && !IslaAccepted(out) ==>
      r.error == (if Truthy(OptGet(Parsed(out).value, "error")) then OptGet(Parsed(out).value, "error") else Str(IslaInvalid))
  {
    match Parsed(out)
    case None => s.(error := Str(IslaFailed), loading := false)
    case Some(data) =>
      if !Truthy(data) || Truthy(Get(data, "error")) then
        s.(error := Or(OptGet(data, "error"), Str(IslaInvalid)), loading := false)
      else
        var fields := [
          Field("paletteName", Get(data, "paletteName")),
          Field("mood", Get(data, "mood")),
          Field("idealUse", Get(data, "idealUse")),
          Field("colors", Get(data, "colors"))];
        LookupAt(fields, 0); LookupAt(fields, 1); LookupAt(fields, 2); LookupAt(fields, 3);
        s.(islaReply := Get(data, "reply"), islaPalette := Obj(fields), loading := false)
  }

  // ---------------------------------------------------------------- ADA fix

  /** The body the ADA-fix button posts: the first result's palette, or an empty list. */
  function AdaFixRequest(s: HomeState): (r: Value)
    ensures r.Obj? && Keys(r.fields) == ["palette"]
    ensures Get(r, "palette") == if Truthy(OptGet(First(s.responses), "palette")) then OptGet(First(s.responses), "palette") else Arr([])
  {
    Obj([Field("palette", Or(OptGet(First(s.responses), "palette"), Arr([])))])
  }

  /** `{...v, palette: p}` */
  function WithPalette(v: Value, p: Value): (r: Value)
    ensures r.Obj? && Lookup(r.fields, "palette") == p
    ensures forall k | k != "palette" :: Lookup(r.fields, k) == Lookup(Spread(v), k)
  {
    var r := Obj(Put(Spread(v), "palette", p));
    forall k ensures Lookup(r.fields, k) == if k == "palette" then p else Lookup(Spread(v), k) {
      LookupPut(Spread(v), "palette", p, k);
    }
    r
  }

  /** The reply is truthy and carries a truthy `fixed_palette`. */
  predicate AdaFixAccepted(out: Outcome) {
    Parsed(out).Some? && Truthy(Parsed(out).value) && Truthy(Get(Parsed(out).value, "fixed_palette"))
  }

  /**
   * The completion of the ADA-fix click: the history collapses to the first
   * result with only its palette replaced by `fixed_palette`; otherwise nothing
   * changes (a failure only raises an alert). Loading and error are not touched.
   */
  function AdaFixSettled(s: HomeState, out: Outcome): (r: HomeState)
    ensures r == s.(responses := r.responses)
    ensures !AdaFixAccepted(out) ==> r == s
    ensures AdaFixAccepted(out) ==> |r.responses| == 1 && r.responses[0].Obj?
    ensures AdaFixAccepted(out) ==> Get(r.responses[0], "palette") == Get(Parsed(out).value, "fixed_palette")
    ensures AdaFixAccepted(out) ==>
      forall k | k != "palette" :: Get(r.responses[0], k) == Lookup(Spread(First(s.responses)), k)
  {
    match Parsed(out)
    case None => s
    case Some(data) =>
      if Truthy(data) && Truthy(Get(data, "fixed_palette")) then
        s.(responses := [WithPalette(First(s.responses), Get(data, "fixed_palette"))])
      else s
  }

  // ---------------------------------------------------------------- toggle

  /** `responses[0]?.original_palette || responses[0]?.palette` */
  function OriginalPalette(first: Value): Value {
    Or(OptGet(first, "original_palette"), OptGet(first, "palette"))
  }

  /**
   * The palette the toggle shows next. The current palette differs from the
   * original exactly when their JSON texts differ, which for parsed values is
   * structural inequality.
   */
  function ToggledPalette(first: Value): (r: Value)
    ensures OriginalPalette(first) != OptGet(first, "palette") ==> r == OriginalPalette(first)
    ensures OriginalPalette(first) == OptGet(first, "palette") && Truthy(OptGet(first, "fixed_palette")) ==>
      r == OptGet(first, "fixed_palette")
    ensures r == OptGet(first, "palette") <==>
      OriginalPalette(first) == OptGet(first, "palette") &&
      (!Truthy(OptGet(first, "fixed_palette")) || OptGet(first, "fixed_palette") == OriginalPalette(first))
    ensures Truthy(OriginalPalette(first)) ==> Truthy(r)
  {
    var original := OriginalPalette(first);
    var current := OptGet(first, "palette");
    if original != current then original else Or(OptGet(first, "fixed_palette"), original)
  }

  /** The toggle click: the history collapses to the first result showing the other palette. */
  function Toggled(s: HomeState): (r: HomeState)
    ensures r == s.(responses := r.responses)
    ensures |r.responses| == 1 && r.responses[0].Obj?
    ensures OriginalPalette(First(s.responses)) != OptGet(First(s.responses), "palette") ==>
      Get(r.responses[0], "palette") == OriginalPalette(First(s.responses))
    ensures OriginalPalette(First(s.responses)) == OptGet(First(s.responses), "palette") ==>
      Get(r.responses[0], "palette") == Or(OptGet(First(s.responses), "fixed_palette"), OriginalPalette(First(s.responses)))
    ensures forall k | k != "palette" :: Get(r.responses[0], k) == Lookup(Spread(First(s.responses)), k)
  {
    s.(responses := [WithPalette(First(s.responses), ToggledPalette(First(s.responses)))])
  }

  // ---------------------------------------------------------------- ADA diff indicator

  /** Both diff conditions' common part: both palettes and both entries at `i` are truthy. */
  predicate DiffEntries(res: Value, i: nat)
    requires !Nullish(res)
  {
    var o := Get(res, "original_palette");
    var f := Get(res, "fixed_palette");
    Truthy(o) && Truthy(f) && Truthy(Index(o, i)) && Truthy(Index(f, i))
  }

  /** The hex of the colour at `i` in `res[key]`, for a colour that is present. */
  function HexAt(res: Value, key: string, i: nat): Value
    requires !Nullish(res) && Truthy(Get(res, key)) && Truthy(Index(Get(res, key), i))
  {
    Get(Index(Get(res, key), i), "hex")
  }

  /** The "Changed for ADA Compliance" badge under colour `i` of result `res`. */
  predicate ShowsChanged(res: Value, i: nat): (b: bool)
    requires !Nullish(res)
    ensures b ==>
      DiffEntries(res, i) &&
      (HexAt(res, "original_palette", i) != HexAt(res, "fixed_palette", i) ||
       HexAt(res, "original_palette", i).Arr? || HexAt(res, "original_palette", i).Obj?)
    ensures DiffEntries(res, i) && HexAt(res, "original_palette", i).Str? && HexAt(res, "fixed_palette", i).Str? ==>
      (b <==> HexAt(res, "original_palette", i).s != HexAt(res, "fixed_palette", i).s)
  {
    DiffEntries(res, i) && !StrictEquals(HexAt(res, "original_palette", i), HexAt(res, "fixed_palette", i))
  }

  /** The "Unchanged (ADA-safe)" badge under colour `i` of result `res`. */
  predicate ShowsUnchanged(res: Value, i: nat): (b: bool)
    requires !Nullish(res)
    ensures b ==> DiffEntries(res, i) && HexAt(res, "original_palette", i) == HexAt(res, "fixed_palette", i)
    ensures b ==> !HexAt(res, "original_palette", i).Arr? && !HexAt(res, "original_palette", i).Obj?
    ensures DiffEntries(res, i) && HexAt(res, "original_palette", i).Str? && HexAt(res, "fixed_palette", i).Str? ==>
      (b <==> HexAt(res, "original_palette", i).s == HexAt(res, "fixed_palette", i).s)
  {
    DiffEntries(res, i) && StrictEquals(HexAt(res, "original_palette", i), HexAt(res, "fixed_palette", i))
  }

  lemma DiffIndicatorsExclusive(res: Value, i: nat)
    requires !Nullish(res)
    ensures !(ShowsChanged(res, i) && ShowsUnchanged(res, i))
    ensures ShowsChanged(res, i) || ShowsUnchanged(res, i) <==> DiffEntries(res, i)
  {
  }

  function Colour(hex: string): Value {
    Obj([Field("hex", Str(hex))])
  }

  /**
   * Three colours whose original and fixed hexes differ only at index 1: only
   * that colour is marked changed, the other two are marked unchanged.
   */
  lemma DiffExample()
    ensures var res := Obj([
      Field("original_palette", Arr([Colour("#000000"), Colour("#111111"), Colour("#333333")])),
      Field("fixed_palette", Arr([Colour("#000000"), Colour("#222222"), Colour("#333333")]))]);
      ShowsChanged(res, 1) && ShowsUnchanged(res, 0) && ShowsUnchanged(res, 2) &&
      !ShowsChanged(res, 0) && !ShowsChanged(res, 2) && !ShowsUnchanged(res, 1)
  {
    var original := Arr([Colour("#000000"), Colour("#111111"), Colour("#333333")]);
    var fixed := Arr([Colour("#000000"), Colour("#222222"), Colour("#333333")]);
    var res := Obj([Field("original_palette", original), Field("fixed_palette", fixed)]);
    LookupAt(res.fields, 0); LookupAt(res.fields, 1);
    assert Get(res, "original_palette") == original;
    assert Get(res, "fixed_palette") == fixed;
    assert "#111111" != "#222222" by { assert "#111111"[2] != "#222222"[2]; }
  }

  /**
   * The ADA fix only replaces `palette`, so it leaves every diff indicator as it
   * was; on a result without `original_palette` it therefore never shows one.
   */
  lemma AdaFixKeepsIndicators(s: HomeState, out: Outcome, i: nat)
    requires First(s.responses).Obj? && AdaFixAccepted(out)
    ensures var fixed := AdaFixSettled(s, out).responses[0];
      (ShowsChanged(fixed, i) <==> ShowsChanged(First(s.responses), i)) &&
      (ShowsUnchanged(fixed, i) <==> ShowsUnchanged(First(s.responses), i))
    ensures !Truthy(Get(First(s.responses), "original_palette")) ==>
      var fixed := AdaFixSettled(s, out).responses[0];
      !ShowsChanged(fixed, i) && !ShowsUnchanged(fixed, i)
  {
    var fixed := AdaFixSettled(s, out).responses[0];
    var first := First(s.responses);
    assert Get(fixed, "original_palette") == Get(first, "original_palette");
    assert Get(fixed, "fixed_palette") == Get(first, "fixed_palette");
  }

  /**
   * From a result showing its original palette, with a different fixed palette
   * on record, two toggles give back exactly that result.
   */
  lemma ToggleTwiceRestoresOriginal(s: HomeState)
    requires First(s.responses).Obj?
    requires Truthy(Get(First(s.responses), "original_palette"))
    requires Get(First(s.responses), "palette") == Get(First(s.responses), "original_palette")
    requires Truthy(Get(First(s.responses), "fixed_palette"))
    requires Get(First(s.responses), "fixed_palette") != Get(First(s.responses), "original_palette")
    ensures Toggled(s).responses[0] != First(s.responses)
    ensures Toggled(Toggled(s)).responses == [First(s.responses)]
  {
    var first := First(s.responses);
    var fields := first.fields;
    var o := Get(first, "original_palette");
    var f := Get(first, "fixed_palette");
    var once := Toggled(s).responses[0];
    assert once.fields == Put(fields, "palette", f);
    assert Get(once, "palette") == f;
    assert Get(once, "original_palette") == o;
    var twice := Toggled(Toggled(s)).responses[0];
    assert twice.fields == Put(Put(fields, "palette", f), "palette", o);
    PutPut(fields, "palette", f, o);
    if !HasKey(fields, "palette") {
      LookupMissing(fields, "palette");
    }
    PutSame(fields, "palette");
  }

  /**
   * Without an `original_palette` the toggle is one-way: it moves to a truthy
   * `fixed_palette` and, since that palette then counts as the original, a
   * second toggle stays on it.
   */
  lemma ToggleWithoutOriginalStaysFixed(s: HomeState)
    requires First(s.responses).Obj?
    requires !Truthy(Get(First(s.responses), "original_palette"))
    requires Truthy(Get(First(s.responses), "fixed_palette"))
    ensures Get(Toggled(s).responses[0], "palette") == Get(First(s.responses), "fixed_palette")
    ensures Get(Toggled(Toggled(s)).responses[0], "palette") == Get(First(s.responses), "fixed_palette")
  {
    var first := First(s.responses);
    var f := Get(first, "fixed_palette");
    var once := Toggled(s).responses[0];
    assert Get(once, "original_palette") == Get(first, "original_palette");
    assert Get(once, "fixed_palette") == f;
  }

  /**
   * The ADA fix never records `original_palette` or `fixed_palette`, so on a
   * result that had neither, the toggle that follows the fix changes nothing:
   * the palette from before the fix cannot be brought back.
   */
  lemma AdaFixThenToggleChangesNothing(s: HomeState, out: Outcome)
    requires First(s.responses).Obj? && AdaFixAccepted(out)
    requires !Truthy(Get(First(s.responses), "original_palette"))
    requires !Truthy(Get(First(s.responses), "fixed_palette"))
    ensures Toggled(AdaFixSettled(s, out)) == AdaFixSettled(s, out)
  {
    var first := First(s.responses);
    var f := Get(Parsed(out).value, "fixed_palette");
    var fixed := AdaFixSettled(s, out).responses[0];
    assert fixed.fields == Put(first.fields, "palette", f);
    assert Get(fixed, "palette") == f;
    assert ToggledPalette(fixed) == f;
    PutPut(first.fields, "palette", f, f);
  }

  /**
   * One generate round trip from a consistent state: the state stays
   * consistent, and an error is on show exactly when no palette array came back.
   */
  lemma GenerateRoundTrip(s: HomeState, out: Outcome)
    requires ValidState(s) && GenerateRequest(s).Some?
    ensures ValidState(GenerateSettled(Started(s), out))
    ensures GenerateSettled(Started(s), out).error == Str("") <==> PaletteOf(out).Some?
  {
  }

  /**
   * One chat round trip from a consistent state: an error is on show exactly
   * when the reply was refused, and only an accepted reply touches Isla's cells.
   */
  lemma IslaRoundTrip(s: HomeState, out: Outcome)
    requires ValidState(s) && IslaRequest(s).Some?
    ensures ValidState(IslaSettled(Started(s), out))
    ensures IslaSettled(Started(s), out).error == Str("") <==> IslaAccepted(out)
  {
  }

  /** The page's cells, updated in place by the event handlers. */
  class Home {
    var prompt: string
    var chatInput: string
    var settings: Settings
    var responses: seq<Value>
    var islaReply: Value
    var islaPalette: Value
    var loading: bool
    var error: Value

    function State(): HomeState
      reads this
    {
      HomeState(prompt, chatInput, settings, responses, islaReply, islaPalette, loading, error)
    }

    predicate Valid()
      reads this
    {
      ValidState(State())
    }

    constructor ()
      ensures Valid() && State() == Initial
    {
      prompt, chatInput := "", "";
      settings := Settings(5, false, "");
      responses := [];
      islaReply, islaPalette := Null, Null;
      loading := false;
      error := Str("");
    }

    method SetPrompt(text: string)
      requires Valid()
      modifies this
      ensures Valid() && State() == old(State()).(prompt := text)
    {
      prompt := text;
    }

    method SetChatInput(text: string)
      requires Valid()
      modifies this
      ensures Valid() && State() == old(State()).(chatInput := text)
    {
      chatInput := text;
    }

    /** The range slider only produces whole numbers from 3 to 10. */
    method SetPaletteLength(n: int)
      requires Valid() && 3 <= n <= 10
      modifies this
      ensures Valid() && State() == old(State()).(settings := old(settings).(paletteLength := n))
    {
      settings := settings.(paletteLength := n);
    }

    method SetStrictAda(on: bool)
      requires Valid()
      modifies this
      ensures Valid() && State() == old(State()).(settings := old(settings).(strictAda := on))
    {
      settings := settings.(strictAda := on);
    }

    method SetTonePreset(tone: string)
      requires Valid()
      modifies this
      ensures Valid() && State() == old(State()).(settings := old(settings).(tonePreset := tone))
    {
      settings := settings.(tonePreset := tone);
    }

    /** `handleGenerate` up to the request: nothing happens for a blank prompt. */
    method BeginGenerate() returns (request: Option<Value>)
      requires Valid()
      modifies this
      ensures Valid() && request == GenerateRequest(old(State()))
      ensures request.None? ==> State() == old(State())
      ensures request.Some? ==> State() == Started(old(State()))
    {
      request := GenerateRequest(State());
      if request.None? {
        return;
      }
      loading := true;
      error := Str("");
    }

    /** `handleGenerate` from the reply on, `finally` included. */
    method CompleteGenerate(out: Outcome)
      requires Valid()
      modifies this
      ensures Valid() && State() == GenerateSettled(old(State()), out)
    {
      match Parsed(out) {
        case None =>
          error := Str(GenerateFailed);
        case Some(data) =>
          if Nullish(data) {
            error := Str(GenerateFailed);
          } else if Get(data, "palette").Arr? {
            responses := Get(data, "palette").items;
          } else {
            error := Str(UnexpectedFormat);
          }
      }
      loading := false;
    }

    /** `handleIslaQuery` up to the request: nothing happens for a blank chat input. */
    method BeginIslaQuery() returns (request: Option<Value>)
      requires Valid()
      modifies this
      ensures Valid() && request == IslaRequest(old(State()))
      ensures request.None? ==> State() == old(State())
      ensures request.Some? ==> State() == Started(old(State()))
    {
      request := IslaRequest(State());
      if request.None? {
        return;
      }
      loading := true;
      error := Str("");
    }

    /** `handleIslaQuery` from the reply on; the early `return` still runs `finally`. */
    method CompleteIslaQuery(out: Outcome)
      requires Valid()
      modifies this
      ensures Valid() && State() == IslaSettled(old(State()), out)
    {
      match Parsed(out) {
        case None =>
          error := Str(IslaFailed);
        case Some(data) =>
          if !Truthy(data) || Truthy(Get(data, "error")) {
            error := Or(OptGet(data, "error"), Str(IslaInvalid));
          } else {
            islaReply := Get(data, "reply");
            islaPalette := Obj([
              Field("paletteName", Get(data, "paletteName")),
              Field("mood", Get(data, "mood")),
              Field("idealUse", Get(data, "idealUse")),
              Field("colors", Get(data, "colors"))]);
          }
      }
      loading := false;
    }

    /** The ADA-fix click up to the request; it touches no cell. */
    method BeginAdaFix() returns (request: Value)
      ensures request == AdaFixRequest(State())
    {
      request := Obj([Field("palette", Or(OptGet(First(responses), "palette"), Arr([])))]);
    }

    /** The ADA-fix click from the reply on. */
    method CompleteAdaFix(out: Outcome)
      requires Valid()
      modifies this
      ensures Valid() && State() == AdaFixSettled(old(State()), out)
    {
      if out.Response? && out.body.Json? {
        var data := out.body.data;
        if Truthy(data) && Truthy(Get(data, "fixed_palette")) {
          var updated := WithPalette(First(responses), Get(data, "fixed_palette"));
          responses := [updated];
        }
      }
    }

    /** The toggle click. */
    method Toggle()
      requires Valid()
      modifies this
      ensures Valid() && State() == Toggled(old(State()))
    {
      var original := OriginalPalette(First(responses));
      var current := OptGet(First(responses), "palette");
      var isShowingFixed := original != current;
      var palette := if isShowingFixed then original else Or(OptGet(First(responses), "fixed_palette"), original);
      responses := [WithPalette(First(responses), palette)];
    }
  }
}
