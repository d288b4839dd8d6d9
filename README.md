# Chromos front-end view state, in Dafny

Chromos is a thin React client around a remote palette service. Palette
generation, the Isla chat and ADA (accessibility) fixing all happen on the
service. What the client does on its own is manage view state: each page
handler guards its input, turns the loading flag on and clears the error,
and once the remote call completes it coerces the untyped JSON reply into
safe defaults and updates the stored result or history in a fixed way (replace,
append, collapse to one element, or clear).

This project models that view-state reducer for the five page variants listed below, plus the
two pure projections of the current page: the per-colour "changed / unchanged
for ADA compliance" indicator and the "original ↔ fixed palette" toggle.

Layout:

- `js_value.dfy` (`JsValue`): the JavaScript values a reply parses to and the page state holds: `undefined`, `null`, booleans, numbers, strings, arrays, and objects with their keys in insertion order. Also the operators the pages use: truthiness, `||`, `??`, `typeof … === "object"`, property reads, `?.`, object spread, and `===` on primitives.
- `js_string.dfy` (`JsString`): `String.prototype.trim` over the ECMAScript whitespace set. Used for the `!text.trim()` guards.
- `remote.dfy` (`Remote`): the outcome of a completed `fetch` plus `res.json()`. Either the network failed, or a response arrived with a status and a body that parsed or did not.
- One module per page: `home_page.dfy` (`pages/index.tsx`), `archive_page.dfy` (`pages/archive/index.tsx`), `evolve_page.dfy` (`pages/archive/index_6_8_25.tsx`), `single_result_page.dfy` (`pages/archive/index_6_7_25.tsx`) and `luma_generator.dfy` (`components/LumaGenerator.tsx`).

Every page module follows the same pattern:

- A datatype holds the value of all the page's `useState` cells.
- Pure functions specify each step:
  - the request a handler sends, or none when its guard returns early;
  - the state after the call completes with a given outcome.
- A class has the cells as fields. Its methods update the fields in place:
  - each setter is one input's `onChange`;
  - each handler is split into a `Begin…` method (guard, loading on, error cleared) and a `Complete…` method (the rest of the handler, `finally` included);
  - each method's postcondition ties the new state to the specifying function and keeps the page's invariant.
- Lemmas relate several steps, for example whole conversations, two toggles, or a fix followed by a toggle.

## Model

| member | source | states |
|---|---|---|
| JsString.TrimEmptyIffBlank | pages/index.tsx:19 | `!s.trim()` holds exactly when every character of `s` is whitespace, the empty string included |
| JsValue.LookupPut | pages/index.tsx:271 | after `{...o, k: v}`, key `k` reads `v` and every other key reads what it read in `o` |
| JsValue.KeysPut | pages/index.tsx:271 | `{...o, k: v}` keeps `o`'s key order; a key that is new goes last |
| JsValue.LookupAssign | pages/archive/index.tsx:37 | after a trailing spread of an object with distinct keys, its keys win and every other key keeps its earlier value |
| JsValue.SpreadIndicesDistinct | pages/archive/index.tsx:37 | spreading a string or an array gives each index its own key, so no key occurs twice |
| Remote.Parsed | pages/archive/index.tsx:32 | `data` is bound exactly when a response arrived and its body parsed, and it is the parsed body; the status is not consulted |
| HomePage.GenerateRequest | pages/index.tsx:18-28 | no request exactly when the prompt is blank; otherwise a payload with exactly the keys `prompt`, `num_colors`, `strict_ada`, `tone_preset`, holding the prompt and the three settings |
| HomePage.GenerateSettled | pages/index.tsx:36-48 | an array `palette` becomes the whole of `responses`; otherwise `responses` is kept and the error is "Unexpected response format." (a non-null reply) or "An error occurred." (a thrown failure or null reply); loading is off on every path and no other cell changes |
| HomePage.IslaRequest | pages/index.tsx:52-71 | no request exactly when the chat input is blank; otherwise exactly `prompt` (the chat input) and the fixed context `{label: "", tags: [], tone: "resilient"}` |
| HomePage.IslaSettled | pages/index.tsx:73-95 | an accepted reply sets `islaReply` to `data.reply` and `islaPalette` to exactly `paletteName`, `mood`, `idealUse`, `colors` copied from the reply; a refused reply shows `data.error` or "Invalid Isla response." and keeps both Isla cells; a failure shows "Something went wrong."; loading off, prompt, settings and results unchanged |
| HomePage.AdaFixRequest | pages/index.tsx:267 | the body is exactly `{palette}` with the first result's palette, or `[]` when that is falsy or there is no result |
| HomePage.WithPalette | pages/index.tsx:271 | `{...v, palette: p}` reads `p` at `palette` and agrees with `v` at every other key |
| HomePage.AdaFixSettled | pages/index.tsx:268-276 | a reply with a truthy `fixed_palette` collapses the history to one result equal to the first with only `palette` replaced; any other outcome changes nothing (loading and error included) |
| HomePage.ToggledPalette | pages/index.tsx:313-320 | the toggle shows `original` when the current palette differs from it, else a truthy `fixed_palette`; the palette stays the same exactly when it already is the original and there is no distinct fixed palette; a truthy original never toggles to a falsy palette |
| HomePage.Toggled | pages/index.tsx:312-323 | the history collapses to the first result showing `original` when the current palette differs from it, else `fixed_palette` or `original`; every other key of the result is kept |
| HomePage.ShowsChanged | pages/index.tsx:189-193 | the "Changed" badge needs both palettes and both entries at the index, and hexes that differ (or are objects, which `!==` never equates); for string hexes it shows exactly when the strings differ |
| HomePage.ShowsUnchanged | pages/index.tsx:194-198 | the "Unchanged" badge needs both palettes and both entries at the index, and equal non-object hexes; for string hexes it shows exactly when the strings are equal |
| HomePage.DiffIndicatorsExclusive | pages/index.tsx:189-198 | at most one of the two badges shows under a colour, and one shows exactly when both palettes and both entries at that index are present |
| HomePage.DiffExample | pages/index.tsx:189-198 | with three colours whose hexes differ only at index 1, only index 1 shows "Changed", and indices 0 and 2 show "Unchanged" |
| HomePage.AdaFixKeepsIndicators | pages/index.tsx:189-198 | the ADA fix leaves every badge as it was, so on a result without `original_palette` it never produces one |
| HomePage.ToggleTwiceRestoresOriginal | pages/index.tsx:312-323 | from a result showing its original palette, with a distinct `fixed_palette`, one toggle changes it and a second gives back exactly that result |
| HomePage.ToggleWithoutOriginalStaysFixed | pages/index.tsx:312-323 | without an `original_palette` the toggle is one-way: it moves to a truthy `fixed_palette` and a second toggle stays on it |
| HomePage.AdaFixThenToggleChangesNothing | pages/index.tsx:270-323 | on a result without `original_palette`/`fixed_palette`, a toggle right after the ADA fix leaves the state exactly as the fix left it |
| HomePage.GenerateRoundTrip | pages/index.tsx:18-48 | a generate round trip keeps the page's invariant, and ends with an error exactly when no palette array came back |
| HomePage.IslaRoundTrip | pages/index.tsx:52-96 | a chat round trip keeps the page's invariant, and ends with an error exactly when the reply was refused or the call failed |
| HomePage.Home.constructor | pages/index.tsx:5-15 | the initial cells: empty prompt and chat input, five colours, strict ADA off, no tone, no results, no Isla reply, not loading, no error |
| HomePage.Home.SetPrompt | pages/index.tsx:106 | only the prompt changes |
| HomePage.Home.SetChatInput | pages/index.tsx:347 | only the chat input changes |
| HomePage.Home.SetPaletteLength | pages/index.tsx:151-154 | only the palette length changes, and it stays within 3 to 10 |
| HomePage.Home.SetStrictAda | pages/index.tsx:137 | only the strict-ADA setting changes |
| HomePage.Home.SetTonePreset | pages/index.tsx:169 | only the tone preset changes |
| HomePage.Home.BeginGenerate | pages/index.tsx:18-28 | returns the generate payload; a blank prompt changes nothing, otherwise loading goes on and the error is cleared |
| HomePage.Home.CompleteGenerate | pages/index.tsx:36-48 | the cells become exactly `GenerateSettled` of the old cells |
| HomePage.Home.BeginIslaQuery | pages/index.tsx:52-71 | returns the chat payload; a blank chat input changes nothing, otherwise loading goes on and the error is cleared |
| HomePage.Home.CompleteIslaQuery | pages/index.tsx:73-95 | the cells become exactly `IslaSettled` of the old cells |
| HomePage.Home.BeginAdaFix | pages/index.tsx:262-267 | returns the ADA-fix body and changes no cell |
| HomePage.Home.CompleteAdaFix | pages/index.tsx:268-276 | the cells become exactly `AdaFixSettled` of the old cells |
| HomePage.Home.Toggle | pages/index.tsx:312-324 | the cells become exactly `Toggled` of the old cells |
| ArchivePage.KeyDispatch | pages/archive/index.tsx:16-18 | a handler runs exactly on Enter without Shift, and it is the handler of the area the key came from |
| ArchivePage.RefusalMessage | pages/archive/index.tsx:34 | a refusal shows the reply's own `error` when that is truthy, else the fallback, so it always shows something |
| ArchivePage.MainRequest | pages/archive/index.tsx:22-31 | no request exactly when the prompt is blank; otherwise exactly `{prompt}` |
| ArchivePage.PromptEntry | pages/archive/index.tsx:37 | `{prompt, ...data}` starts with `prompt`, reads what the reply spreads at every key it spreads (an object's own fields, or a string's characters and an array's items under their index keys), and the prompt at `prompt` when the reply spreads none |
| ArchivePage.AssignKeepsFirst | pages/archive/index.tsx:37 | spreading more fields after an object literal never moves its first key |
| ArchivePage.MainSettled | pages/archive/index.tsx:32-42 | an accepted reply replaces the whole history by the single entry `{prompt, ...data}`, built from the prompt the request sent, not from what the prompt box holds when the reply arrives; a refused reply keeps it and shows `data.error` or "Invalid backend response."; a failure shows "Failed to generate palette."; loading off |
| ArchivePage.ChatContext | pages/archive/index.tsx:50-54 | the context is exactly `label` and `tags` of the first entry (else `""` and `[]`) and tone "resilient" |
| ArchivePage.Thread | pages/archive/index.tsx:63-66 | the thread has one turn per entry, in order, each exactly `{user: entry.user, isla: entry.reply}` |
| ArchivePage.IslaRequest | pages/archive/index.tsx:45-68 | no request exactly when the chat input is blank; otherwise exactly `prompt`, `context` and `thread` as above |
| ArchivePage.IslaEntry | pages/archive/index.tsx:76-86 | the appended entry has exactly its nine keys in order, with label "Isla Response", narrative defaulting to `""`, tags to `[]`, and `palette` taken from `data.colors` |
| ArchivePage.IslaSettled | pages/archive/index.tsx:69-93 | an accepted reply appends exactly the entry for the message the request sent and keeps all earlier ones; a refused or failed one keeps the history and shows the reply's error, "Invalid Isla response." or "Isla failed to respond."; the chat input is cleared and loading is off on every path |
| ArchivePage.Converse | pages/archive/index.tsx:45-94 | any sequence of chat turns keeps every history entry an object and no error on show while loading |
| ArchivePage.ConversationAppends | pages/archive/index.tsx:74-87 | a conversation keeps the earlier history as a prefix and grows it by exactly one entry per answered turn |
| ArchivePage.ConversationKeepsPrompt | pages/archive/index.tsx:45-94 | chat turns never change the main prompt |
| ArchivePage.MainGenerateStartsOver | pages/archive/index.tsx:37 | after any conversation, an accepted main generate leaves a history of exactly one entry, for the main prompt |
| ArchivePage.EditsWhileWaitingKeepEntries | pages/archive/index.tsx:37 | text typed into either box while a request is in flight does not change the entry the reply stores, and the chat box is cleared after a chat reply whatever it held |
| ArchivePage.Archive.constructor | pages/archive/index.tsx:5-9 | the initial cells: empty prompt and chat input, empty history, not loading, no error |
| ArchivePage.Archive.SetPrompt | pages/archive/index.tsx:105 | only the prompt changes |
| ArchivePage.Archive.SetChatInput | pages/archive/index.tsx:165 | only the chat input changes |
| ArchivePage.Archive.BeginMainGenerate | pages/archive/index.tsx:22-31 | returns the main request; a blank prompt changes nothing, otherwise loading on and error cleared |
| ArchivePage.Archive.CompleteMainGenerate | pages/archive/index.tsx:32-42 | given the prompt its request sent, the cells become exactly `MainSettled` of the old cells |
| ArchivePage.Archive.BeginIslaQuery | pages/archive/index.tsx:45-68 | returns the chat request; a blank chat input changes nothing, otherwise loading on and error cleared |
| ArchivePage.Archive.CompleteIslaQuery | pages/archive/index.tsx:69-93 | given the message its request sent, the cells become exactly `IslaSettled` of the old cells |
| ArchivePage.Archive.HandleKeyPress | pages/archive/index.tsx:11-20 | Enter without Shift runs the begin step of the matching handler; every other key changes nothing and sends nothing |
| EvolvePage.ArrayOrEmpty | pages/archive/index_6_8_25.tsx:48-49 | an array passes through, anything else becomes `[]` |
| EvolvePage.NewBlock | pages/archive/index_6_8_25.tsx:41-51 | a block exists exactly when the reply is not null; it carries the given id, parent and prompt, `label` non-null or else the prompt, `palette` and `tags` only when arrays, `narrative` non-null or else `""` |
| EvolvePage.Settled | pages/archive/index_6_8_25.tsx:53-62 | with no parent the new block is the whole history; with a parent it is appended, the length grows by one and earlier blocks are kept in order; a failure keeps the history; loading off |
| EvolvePage.SettledKeepsRootedHistory | pages/archive/index_6_8_25.tsx:53-56 | every completion keeps the history a tree rooted at its first block: each later block names an earlier one as parent |
| EvolvePage.Evolve.constructor | pages/archive/index_6_8_25.tsx:20-22 | the initial cells: empty prompt, empty history, not loading |
| EvolvePage.Evolve.SetPrompt | pages/archive/index_6_8_25.tsx:74 | only the prompt changes |
| EvolvePage.Evolve.BeginGenerate | pages/archive/index_6_8_25.tsx:32-39 | any text is sent as `{prompt}`, with no guard; only loading changes |
| EvolvePage.Evolve.CompleteGenerate | pages/archive/index_6_8_25.tsx:41-62 | the cells become exactly `Settled` of the old cells, and the history stays rooted |
| EvolvePage.Evolve.Evolve | pages/archive/index_6_8_25.tsx:163-167 | Enter in a block's evolve box sends its text with that block's id as parent and makes the text the prompt |
| SingleResultPage.Started | pages/archive/index_6_7_25.tsx:14-16 | any prompt, the empty one included, turns loading on and clears the error, keeping the response |
| SingleResultPage.Settled | pages/archive/index_6_7_25.tsx:26-41 | a truthy object reply without `error` becomes the response; a refused reply clears it and shows `data.error` or "Invalid backend response."; a failure clears it and shows "Failed to generate palette. Try again later."; loading off |
| SingleResultPage.Safe | pages/archive/index_6_7_25.tsx:44-47 | palette and tags pass through only as arrays, else `[]`; label and narrative are the response's own when not null or undefined, else `""`, whatever the response; all four are empty for a null response |
| SingleResultPage.FailureShowsNothing | pages/archive/index_6_7_25.tsx:29-47 | after a refused or failed call all four safe values are empty |
| SingleResultPage.ColourCard | pages/archive/index_6_7_25.tsx:96-109 | swatch "#ccc", chromakey "CK-UNKNOWN", reason "No reason provided.", hex "#" when absent; the chromakeys line is "unknown" unless `chromakeys` is a non-empty array |
| SingleResultPage.EmptyColourShowsFallbacks | pages/archive/index_6_7_25.tsx:96-109 | a null or empty colour shows every fallback |
| SingleResultPage.Single.constructor | pages/archive/index_6_7_25.tsx:5-8 | the initial cells: empty prompt, null response, not loading, no error |
| SingleResultPage.Single.SetPrompt | pages/archive/index_6_7_25.tsx:60 | only the prompt changes |
| SingleResultPage.Single.BeginGenerate | pages/archive/index_6_7_25.tsx:14-24 | any prompt is sent as `{prompt}`; the cells become `Started` of the old cells |
| SingleResultPage.Single.CompleteGenerate | pages/archive/index_6_7_25.tsx:26-41 | the cells become exactly `Settled` of the old cells, and the response is null or an accepted reply |
| LumaGenerator.SubmitEnabled | components/LumaGenerator.tsx:57 | submit is enabled exactly when not loading and the prompt is not empty |
| LumaGenerator.Message | components/LumaGenerator.tsx:37 | a non-empty message is shown as it is, and an empty one is replaced by exactly "Something went wrong." |
| LumaGenerator.Started | components/LumaGenerator.tsx:23-25 | loading on, error and result cleared, prompt kept |
| LumaGenerator.Settled | components/LumaGenerator.tsx:26-40 | a non-OK status shows "Server error: " and the status text; a failed fetch or parse shows its message, or "Something went wrong." when that is empty; an OK parsed body becomes the result with no error; never both; loading off |
| LumaGenerator.FailureShowsNoResult | components/LumaGenerator.tsx:33-37 | any submission that does not yield an OK parsed body ends with an error and no result |
| LumaGenerator.BlankPromptSubmits | components/LumaGenerator.tsx:57 | a whitespace-only prompt can be submitted; an empty one, or any prompt while loading, cannot |
| LumaGenerator.Luma.constructor | components/LumaGenerator.tsx:17-20 | the initial cells: empty prompt, no result, not loading, no error |
| LumaGenerator.Luma.SetPrompt | components/LumaGenerator.tsx:52 | only the prompt changes |
| LumaGenerator.Luma.BeginSubmit | components/LumaGenerator.tsx:22-31 | only while enabled; sends `{prompt}` and the cells become `Started` of the old cells |
| LumaGenerator.Luma.CompleteSubmit | components/LumaGenerator.tsx:33-40 | the cells become exactly `Settled` of the old cells |

Behaviour of the code that the model keeps:

- Blank prompts:
  - Only `pages/index.tsx` and `pages/archive/index.tsx` refuse a blank prompt.
  - The single-result and evolve pages send any prompt, including the empty one.
  - LumaGenerator refuses only the empty prompt (`LumaGenerator.BlankPromptSubmits`).
- A non-array `palette`:
  - Only `pages/index.tsx` treats it as an error.
  - The evolve page coerces it to `[]`.
  - The single-result page stores the reply and shows `[]`.
  - `pages/archive/index.tsx` stores the reply's fields unchecked, after the prompt (`{prompt, ...data}`).
- `pages/index.tsx:38` stores `data.palette`, a list of colours, directly as the list of results.
- HTTP status: only LumaGenerator looks at it. Every page parses the body whatever the status.
- The ADA diff shows neither badge when an entry is missing. It does not fall back to "unchanged".

## Left out

- `fetch`, the service URLs, `res.json()` and `JSON.stringify` of request bodies are foreign I/O. A request is modelled as the value it would serialise, and a completion as an `Outcome` input.
- JSX rendering, styles and layout are not modelled, except for the badge predicates and the fallbacks stated above.
- The export button (`pages/index.tsx:290-295`) uses Blob, object URLs and DOM anchors, so the export round trip is not modelled.
- The `Math.random` block id (`pages/archive/index_6_8_25.tsx:44`) is an input of `EvolvePage.Evolve.CompleteGenerate`.
- `decodeHTML` and `decodeURIComponent` are library codecs applied only when rendering.
- `console.log`, `alert`, `useEffect`, `preventDefault` and the settings panel's open/closed flag have no effect on the modelled state.
- components/SwatchGrid.tsx and components/PromptInput.tsx are markup with no logic.
- `pages/archive/index - Copy.tsx` is an earlier copy of the archived chat page and is not part of this model. It keeps `islaReply`/`islaPalette` cells, which a main generate clears, instead of appending chat turns to the history.
- Overlapping requests:
  - Each begin/complete pair is treated as atomic, so a stale reply overwriting newer state is not modelled.
  - EvolvePage.Evolve.CompleteGenerate: requires the parent block to still be on show. A main prompt that completes between an evolve request and its reply is such a race.
- ArchivePage.Thread and ArchivePage.IslaRequest: require every history entry to be non-null. The page's invariant guarantees this because both handlers only store object literals, so the thrown-read path of `responses.map` is not reachable.
- HomePage.Home.BeginAdaFix, HomePage.Home.CompleteAdaFix and HomePage.Home.Toggle can be called in any state. The page renders their buttons only when there are results and only inside the Isla palette's colour list (`pages/index.tsx:243`, `259`, `306`), so the model allows more clicks than the page does.
- ArchivePage.Archive.HandleKeyPress accepts an Enter from the chat area whatever the history holds. The page renders the chat textarea only when `responses.length > 0` (`pages/archive/index.tsx:161`), so the model allows a chat request the page cannot send from an empty history.
- HomePage.Home.SetPaletteLength: requires a whole number from 3 to 10, the only values the range slider produces. `parseInt` of other text is not modelled.
- Numbers:
  - Numbers are reals, and the reply's numeric fields are opaque values.
  - Floating-point rounding is not modelled.
- Objects:
  - Objects keep their keys in insertion order.
  - JavaScript engines list integer-like keys first, and that reordering is not modelled.
  - The toggle compares `JSON.stringify` texts, which the model treats as structural equality of values.
- `===` between two objects or arrays is taken as false, because the values compared are distinct nodes of a parsed reply (the two hexes of the diff badge come from one generate reply, `pages/index.tsx:189`, `194`).
- Strings are sequences of Unicode code points. JavaScript indexes and spreads strings by UTF-16 code units, so `JsValue.Index` and `JsValue.Spread` on a string differ from the page only for characters outside the Basic Multilingual Plane.
- A thrown value without a `message` is modelled as an empty message.
