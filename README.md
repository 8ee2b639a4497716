# Stochify frontend: the visualisation pipeline and its controls, in Dafny

Stochify's web client turns a chat prompt into a visualisation. The chat
panel sends the prompt to the server and shows the reply. When the answer
carries code, the panel broadcasts a "stochify:viz" event. The visual panel
handles that event in six steps:

1. it reads a "cartesian" flag out of the analysis JSON;
2. it clears its container or keeps it, and makes sure a `#viz` element exists;
3. it loads three.js with its orbit controls, or d3, plus a shared-plane
   skeleton when the flag asks for one, through a loader that deduplicates
   script elements by their `src`;
4. it sends the snippet through eight regular-expression rewrites and a trim;
5. it runs the result;
6. it records any error.

Around this pipeline sit several smaller controls:

- the typewriter placeholder of the search bar;
- the resizable chat column of the home page;
- the two resizable sidebars, title editor and file choice of the project page;
- the Cancel button's referrer routing;
- the code/visual display toggle.

The model follows the shape of the source:

- Pure expressions become functions, with lemmas about them:
  - the rewrite chain;
  - the cartesian flag;
  - the script plan;
  - the reply choice;
  - the clamps;
  - the referrer test.
- Event handlers that update component state become classes whose methods
  change their fields:
  - `VisualPanel` and `ScriptHead` (`document.head`'s script elements);
  - `SearchBar`;
  - `ChatPanel`;
  - `HomeLayout` and `ProjectPage`;
  - `DisplayToggle`.

  Each method is specified by the functions above.

Modules:

- `Options`: the optional value, `None` or `Some`.
- `JsonValue`: the JSON values `JSON.parse` returns.
- `Text`: prefixes, substring tests and JavaScript's `trim`.
- `Sanitizer`: the eight rewrites. `String.prototype.replace` with a global
  pattern is the generic `ReplaceAll` scan. It runs over a matcher that gives
  the length of the pattern's match at the start of the remaining text.
- `SanitizerFacts` and `SanitizerExamples`: what the chain guarantees and
  what it does not.
- `Scripts`: `loadScript` and the script elements it leaves behind.
- `VisualSection`: the event handler.
- `ChatSearch`, `ChatSection`, `Widths`, `Home`, `Project`, `CancelButton`
  and `Toggle`: the remaining components.

The following are parameters of the model:

- `JSON.parse`: a function returning `Option<Json>`, with `None` when it throws.
- The network: `available: string -> bool`, whether the browser delivers a script.
- The snippet's execution: `run: string -> RunResult`.
- Whether `window.THREE` is set once three.js has loaded.
- The server's answer to a chat request: a `Response` value.

The model follows the code in three places where the source's comments or an
informal reading would differ:

- An analysis that parses to the JSON literal `null` makes
  `parsedAnalysis.cartesian` throw outside the `try` that guards the parse.
  So the handler stops before it clears or loads anything (`Outcome.Aborted`),
  and its promise rejects.
- `Home.jsx`'s comment says the column clamps to 250–700. The code clamps to
  350–700, and the model uses 350.
- After the whole chain, the cleaned text can contain "```" again. Removing a
  script tag can join backticks from both sides of it
  (`SanitizerExamples.TagRemovalCanFormFence`). The no-fence guarantee holds
  after the two fence steps (`SanitizerFacts.SecondFenceStepIsNoOp`), not
  for the final output.

## Model

| member | source | states |
|---|---|---|
| VisualSection.CartesianFlag | src/components/VisualSection/VisualSection.jsx:15-22 | the flag is true exactly when the parsed analysis is an object whose `cartesian` is `true` or `"true"`; an analysis that fails to parse gives false; an analysis of `null` makes the property read throw |
| VisualSection.CartesianFlagReadsOneField | src/components/VisualSection/VisualSection.jsx:21-22 | two analysis objects that agree on `cartesian` give the same flag, whatever their other fields |
| VisualSection.Container | src/components/VisualSection/VisualSection.jsx:25-35 | a non-cartesian request empties the container; a cartesian one keeps every existing child in place; afterwards a `#viz` element is present, an existing one is reused and at most one exists; when none was there, exactly one is appended and nothing else |
| VisualSection.Library | src/components/VisualSection/VisualSection.jsx:39-45 | "3d" loads three.js then OrbitControls; every other dimension, unknown ones included, loads d3 |
| VisualSection.Skeleton | src/components/VisualSection/VisualSection.jsx:47-54 | a skeleton is due exactly for a cartesian "2d" or "3d" request, and it is the one for that dimension |
| VisualSection.Plan | src/components/VisualSection/VisualSection.jsx:39-54 | the library comes first in order and the skeleton last; each skeleton appears exactly when it is due; no address appears twice |
| VisualSection.LoadAll | src/components/VisualSection/VisualSection.jsx:38-54 | awaiting loads in turn requests a prefix of the list; it faults exactly when some script fails; then the last script requested is the first failing one and the fault is its "Failed to load" message |
| VisualSection.ThreePhase | src/components/VisualSection/VisualSection.jsx:39-42 | the "3d" phase stops at three.js or OrbitControls when that load fails; otherwise it faults with the unbound-`THREE` ReferenceError exactly when `window.THREE` is missing |
| VisualSection.D3Phase | src/components/VisualSection/VisualSection.jsx:43-45 | every other dimension requests d3 alone and faults exactly when d3 fails |
| VisualSection.SkeletonPhase | src/components/VisualSection/VisualSection.jsx:47-54 | after a library phase without fault, the due skeleton is requested last, and the run faults exactly when the skeleton fails |
| VisualSection.LoadPhaseFollowsPlan | src/components/VisualSection/VisualSection.jsx:38-54 | the loading phase requests a prefix of the plan; it faults exactly when a planned script fails or, for "3d", `THREE` is unbound; without a fault it requests the whole plan; the skeleton is requested only after the whole library has loaded |
| VisualSection.VisualPanel.constructor | src/components/VisualSection/VisualSection.jsx:5-6 | the container starts empty and the error starts as `null` |
| VisualSection.VisualPanel.LoadThree | src/components/VisualSection/VisualSection.jsx:39-42 | the "3d" branch computes the three.js phase; the head gains exactly the requested addresses; no `src` is duplicated |
| VisualSection.VisualPanel.LoadD3 | src/components/VisualSection/VisualSection.jsx:43-45 | the other branch computes the d3 phase; the head gains exactly d3; no `src` is duplicated |
| VisualSection.VisualPanel.LoadLibrary | src/components/VisualSection/VisualSection.jsx:39-45 | the library branch taken on the dimension computes the library phase; the head gains exactly the requested addresses |
| VisualSection.VisualPanel.LoadScripts | src/components/VisualSection/VisualSection.jsx:38-54 | the awaited loads give exactly the loading phase of the plan; the script set only grows, by exactly the requested addresses; no `src` is duplicated |
| VisualSection.VisualPanel.HandleVizEvent | src/components/VisualSection/VisualSection.jsx:10-72 | the error is reset first; a `null` analysis stops the handler with nothing cleared or loaded; otherwise the container follows `Container`; the loads follow the plan; the cleaned code runs only when no load faulted; the error is the load fault, else the run's message, else none; no other fault propagates |
| Scripts.ScriptKind | src/components/VisualSection/VisualSection.jsx:96 | the `type` is "module" exactly when `src` ends in ".js", and "text/javascript" otherwise |
| Scripts.FailureMessage | src/components/VisualSection/VisualSection.jsx:98 | a failed load rejects with "Failed to load " followed by the `src` |
| Scripts.ScriptHead.Present | src/components/VisualSection/VisualSection.jsx:93 | the selector finds an element exactly when its `src` is in the head's set |
| Scripts.ScriptHead.Request | src/components/VisualSection/VisualSection.jsx:92-99 | a present `src` resolves with the head unchanged; an absent one appends exactly one pending element with its type; the set becomes the old set plus `src`; uniqueness is preserved |
| Scripts.ScriptHead.Settle | src/components/VisualSection/VisualSection.jsx:97-98 | `onload` resolves and `onerror` rejects with the failure message; only that element's state changes; the `src` set is unchanged |
| Scripts.ScriptHead.LoadScript | src/components/VisualSection/VisualSection.jsx:91-101 | it resolves when the `src` is present (pending or failed included) or the script arrives, else it rejects with the failure message; at most one element is appended; the set only grows |
| Sanitizer.FirstMatchFrom | src/components/VisualSection/VisualSection.jsx:61 | the lazy `[\s\S]*?` stops at the first position at which the `from` clause matches, with no match before it, and fails only when there is none |
| Sanitizer.FromClauseLen | src/components/VisualSection/VisualSection.jsx:61 | the `from\s+['"][^'"]+['"];?` tail matches only on a text starting with "from"; a match is at least 8 characters long (`from 'x'`) and lies within the text |
| SanitizerFacts.FromClauseShape | src/components/VisualSection/VisualSection.jsx:61 | the tail matches exactly when the text is "from", at least one white-space character, a quote, at least one non-quote character and a quote; the match then ends after that quote, or after a `;` right behind it |
| Sanitizer.ImportLen | src/components/VisualSection/VisualSection.jsx:61 | a text starting with "import" matches exactly when a `from` clause begins at some position from 6 on; the match then ends where the clause begins at the first such position ends; a match is at least 14 characters long and lies within the text |
| SanitizerFacts.ReplaceAllIdentity | src/components/VisualSection/VisualSection.jsx:58-65 | a global replace over a text with no match returns the text unchanged |
| SanitizerFacts.LiteralFreeIffAbsent | src/components/VisualSection/VisualSection.jsx:59 | a literal pattern matches nowhere in a text exactly when the text does not contain it |
| SanitizerFacts.ReplaceAllLeavesNoMatch | src/components/VisualSection/VisualSection.jsx:62-65 | when the replacement cannot start or complete a match, the replaced text contains no match of the pattern |
| SanitizerFacts.ReplaceAllKeepsFree | src/components/VisualSection/VisualSection.jsx:58-65 | a later rewrite whose replacement cannot form a match keeps a match-free text match-free |
| SanitizerFacts.FenceOpenersLeaveNoFence | src/components/VisualSection/VisualSection.jsx:58 | after the fence-opener step the text contains no "```" |
| SanitizerFacts.FenceStepLeavesNoFence | src/components/VisualSection/VisualSection.jsx:59 | after the fence step the text contains no "```" |
| SanitizerFacts.SecondFenceStepIsNoOp | src/components/VisualSection/VisualSection.jsx:58-59 | the fence step changes nothing after the fence-opener step |
| SanitizerFacts.RetargetBodyIdempotent | src/components/VisualSection/VisualSection.jsx:62 | the `d3.select('body')` rewrite leaves no match and is idempotent |
| SanitizerFacts.QualifyOrbitControlsIdempotent | src/components/VisualSection/VisualSection.jsx:63 | the `new OrbitControls` rewrite leaves no match and is idempotent |
| SanitizerFacts.CleanCodeGuarantees | src/components/VisualSection/VisualSection.jsx:57-66 | the cleaned code contains neither "&lt;" nor "&gt;" and neither starts nor ends with whitespace |
| SanitizerExamples.CleanCodeOfEmpty | src/components/VisualSection/VisualSection.jsx:57-66 | empty code cleans to "" |
| SanitizerExamples.EncodedScriptTagSurvives | src/components/VisualSection/VisualSection.jsx:60-65 | because the entities are decoded after tag stripping, "&lt;script&gt;" comes out as a literal "<script>" |
| SanitizerExamples.TagRemovalCanFormFence | src/components/VisualSection/VisualSection.jsx:58-60 | an input without "```" can clean to exactly "```", because tag removal joins the backticks around it |
| Text.Trim | src/components/VisualSection/VisualSection.jsx:66 | the result is a slice of the input; everything cut at either end is whitespace; the result neither starts nor ends with whitespace |
| Text.TrimEmptyIffAllSpace | src/components/ChatSection/ChatSection.jsx:15-16 | the trimmed text is empty exactly when every character is whitespace |
| Text.Includes | src/components/Cancel-button/Cancel-button.jsx:10 | `includes` is true exactly when the pattern occurs at some position |
| ChatSearch.PlaceholdersShape | src/components/ChatSection/ChatSectionSearch/ChatSectionSearch.jsx:6-47 | there are 29 sample prompts, none of them empty |
| ChatSearch.Shown | src/components/ChatSection/ChatSectionSearch/ChatSectionSearch.jsx:66-78 | the placeholder is the first `charIndex` characters of the current prompt |
| ChatSearch.Step | src/components/ChatSection/ChatSectionSearch/ChatSectionSearch.jsx:65-85 | typing adds one character and turns to deleting exactly at the full length; deleting removes one; reaching 0 turns back to typing and advances the index modulo 29; the counters stay in range |
| ChatSearch.FullCycle | src/components/ChatSection/ChatSectionSearch/ChatSectionSearch.jsx:65-85 | from an empty placeholder, twice the prompt's length in ticks types the prompt, deletes it and lands on the next prompt, wrapping after the last |
| ChatSearch.SearchBar.constructor | src/components/ChatSection/ChatSectionSearch/ChatSectionSearch.jsx:50-52 | the input and placeholder start empty, on the first prompt |
| ChatSearch.SearchBar.RunEffect | src/components/ChatSection/ChatSectionSearch/ChatSectionSearch.jsx:55-89 | a started chat stops the ticking and shows "anything"; otherwise typing restarts from an empty prompt |
| ChatSearch.SearchBar.TypeEffect | src/components/ChatSection/ChatSectionSearch/ChatSectionSearch.jsx:65-85 | one tick moves the counters by `Step`, and the placeholder is then the shown prefix of the current prompt |
| ChatSearch.SearchBar.HandleSubmit | src/components/ChatSection/ChatSectionSearch/ChatSectionSearch.jsx:91-97 | empty trimmed input or a pending reply does nothing; otherwise the trimmed text is sent and the field cleared |
| ChatSearch.SearchBar.Displayed | src/components/ChatSection/ChatSectionSearch/ChatSectionSearch.jsx:104 | the input shows "Visualize " followed by the placeholder |
| ChatSection.Decimal | src/components/ChatSection/ChatSection.jsx:32 | the status is written in decimal digits with no leading zero |
| ChatSection.DecimalRoundTrip | src/components/ChatSection/ChatSection.jsx:32 | reading those digits back gives the status |
| ChatSection.ServerErrorText | src/components/ChatSection/ChatSection.jsx:32 | the message carries the status and then the body, or "unknown" when the body is empty |
| ChatSection.NetworkErrorText | src/components/ChatSection/ChatSection.jsx:62 | the message carries the error's `message`, or its string form when it has none |
| ChatSection.AnalysisReply | src/components/ChatSection/ChatSection.jsx:44-45 | the analysis supplies a reply exactly when it parses to an object whose `chat_response` is truthy (of any JSON type), and the reply is that value |
| ChatSection.ChooseReply | src/components/ChatSection/ChatSection.jsx:41-49 | the reply is always truthy: the answer's own `chat_response` when truthy, else the analysis's, else "✅ Visualization ready." (parse failure and `null` included) |
| ChatSection.ReplyFor | src/components/ChatSection/ChatSection.jsx:30-62 | every completed request yields one truthy assistant message: the server error, the network error or the chosen reply |
| ChatSection.VizEvent | src/components/ChatSection/ChatSection.jsx:54-60 | the event is sent exactly when the answer has code, and it carries exactly its code, dimension and analysis |
| ChatSection.ChatPanel.constructor | src/components/ChatSection/ChatSection.jsx:6-8 | the panel starts with no messages, an empty input and no pending reply |
| ChatSection.ChatPanel.PushMessage | src/components/ChatSection/ChatSection.jsx:10-11 | one message is appended at the end, and the earlier ones are kept |
| ChatSection.ChatPanel.BeginSend | src/components/ChatSection/ChatSection.jsx:13-21 | empty trimmed input or a pending reply changes nothing; otherwise the user message is appended, the input cleared and loading set |
| ChatSection.ChatPanel.CompleteSend | src/components/ChatSection/ChatSection.jsx:23-65 | exactly one assistant reply is appended; loading is false on every path; the viz event is the one `VizEvent` gives |
| Widths.Clamp | src/pages/Home.jsx:18 | the width stays within the bounds and equals the pointer when the pointer is within them |
| Widths.ClampMonotone | src/pages/Home.jsx:18 | a pointer further right never gives a narrower width |
| Widths.ClampIdempotent | src/pages/Home.jsx:18 | clamping a clamped width changes nothing |
| Home.HomeLayout.constructor | src/pages/Home.jsx:7-8 | the column starts at 400 pixels, not resizing |
| Home.HomeLayout.MouseDown | src/pages/Home.jsx:10-14 | resizing starts, with the resize cursor and no text selection |
| Home.HomeLayout.MouseMove | src/pages/Home.jsx:16-20 | while resizing, the width is the pointer clamped to 350..700; otherwise nothing changes |
| Home.HomeLayout.MouseUp | src/pages/Home.jsx:22-26 | resizing stops, and the cursor and selection are restored |
| Project.DocumentTitle | src/pages/project.jsx:120 | the document title is the project title followed by " – Stochify" |
| Project.ChooseFile | src/pages/project.jsx:62-80 | an asset wins, and keeps the old file when its download fails; otherwise content becomes a text/plain file named after the title or "file.txt"; otherwise the file is unchanged |
| Project.ContentFileIsNamed | src/pages/project.jsx:73-79 | a file made from content always has a non-empty name |
| Project.ProjectPage.constructor | src/pages/project.jsx:15-28 | the sidebars start at 280 and 400 pixels, neither being resized, text selection enabled, no project, no file, loading, and the default title |
| Project.ProjectPage.MouseMove | src/pages/project.jsx:89-100 | the left width follows the pointer clamped to 160..400, or else the right width follows the distance to the window edge clamped to 400..600; at most one width changes, and left wins |
| Project.ProjectPage.StopResizing | src/pages/project.jsx:102-106 | both flags are cleared |
| Project.ProjectPage.StartResizingLeft | src/pages/project.jsx:108-111 | only the left flag is raised |
| Project.ProjectPage.StartResizingRight | src/pages/project.jsx:113-116 | only the right flag is raised |
| Project.ProjectPage.HandleTitleUpdate | src/pages/project.jsx:118-121 | only the project's title changes, and the document title follows it |
| Project.ProjectPage.OnProjectFetched | src/pages/project.jsx:56-80 | the project is stored and loading ends; a non-empty title sets the document title; the file is `ChooseFile`'s |
| CancelButton.CancelDestination | src/components/Cancel-button/Cancel-button.jsx:5-24 | the destination is one of the two URLs, and the dashboard exactly when the referrer contains "stochify.com/dashboard" |
| CancelButton.DashboardIsOnSite | src/components/Cancel-button/Cancel-button.jsx:10-16 | a dashboard referrer also contains "stochify.com" |
| CancelButton.CancelIsTwoWay | src/components/Cancel-button/Cancel-button.jsx:10-23 | dashboard referrers go to the dashboard; every other referrer, "" included, goes to the homepage |
| Toggle.DisplayToggle.constructor | src/components/VisualSection/CodeVisualToggle/CodeVisualToggle.jsx:7 | the mode starts as the `mode` prop, or "visual" when that is absent or empty |
| Toggle.DisplayToggle.HandleToggle | src/components/VisualSection/CodeVisualToggle/CodeVisualToggle.jsx:9-12 | the mode becomes the new one, so toggling to the same mode twice is the same as once; the callback, when given, receives it |
| Toggle.DisplayToggle.VisualActive | src/components/VisualSection/CodeVisualToggle/CodeVisualToggle.jsx:17 | the visual button is active exactly when the mode is "visual" |
| Toggle.DisplayToggle.CodeActive | src/components/VisualSection/CodeVisualToggle/CodeVisualToggle.jsx:24 | the code button is active exactly when the mode is "code", and then the visual one is not |

## Left out

- Network and server I/O are inputs, not modelled code. This covers the
  requests (`fetch`), the auth token, `localStorage`, `navigate` and `alert`.
  The chat answer is a `Response` value; the project page receives its data
  and its downloaded file.
- The user fetch of project.jsx is left out, with the `user` state it stores
  and the navigation on its failure. The project fetch failure, which only
  alerts and navigates away, is left out too.
- `loadFileFromServer` is not part of this model; its result is a parameter.
- `JSON.parse` is a parameter returning an optional JSON value. JSON numbers
  are integers in the model; fractions, `NaN` and the distinction between
  `0` and `-0` are not represented.
- `new Function(cleanedCode)()` is a parameter returning completion or a
  thrown message. Its side effects on the page and a thrown value that is not
  an `Error` are not modelled.
- The browser's script loading is a parameter. The effects of `type="module"`
  on evaluation are not modelled.
- `document.querySelector` is modelled as exact `src` comparison. A `src`
  containing a quote would break the real selector.
- Browser rendering is out of scope:
  - the DOM beyond the container's children and the head's script elements;
  - React rendering and CSS;
  - `console` output;
  - the `style` sizes of `#viz`.
- A `#viz` element elsewhere in the document is not modelled: the model looks
  only inside the container. A missing container (`vizRef` unset) is also not
  modelled.
- Timers are not modelled: the 20 ms typing interval and the 2500 ms pause are
  scheduling. Only the tick (`TypeEffect`) and the effect restart
  (`RunEffect`) are.
- An interval started by the pause's `setTimeout` after the effect has been
  cleaned up is not modelled.
- Two "stochify:viz" events whose handlers interleave at their `await`s are not
  modelled. Each handler runs to completion against its own state.
- Mouse coordinates are integers in the model; the source uses floating
  point.
- Strings are sequences of code points, whereas JavaScript strings are UTF-16
  code units. `trim`'s whitespace set is the ECMAScript one.
- ChatSection.ChatData: the answer's `analysis`, `dimension` and `code` are
  strings in the model; a non-string value in those fields is not represented.
  `chat_response` may be any JSON value.
- VisualSection.ThreeUnbound: the message "THREE is not defined" is the
  wording of V8 and Firefox. JavaScriptCore (Safari) says "Can't find
  variable: THREE".
- The snippet's execution covers only synchronous throws. A snippet that
  returns a rejected promise escapes the `try`, because
  VisualSection.jsx:68 does not await the call.
- The script loader assumes that every load ends in `onload` or `onerror`. A
  script that fires neither leaves the handler suspended forever, which the
  model does not represent.
- ChatSection.NetworkErrorText: the thrown value is reduced to its `message`
  and its string form.
- The `onChange` handlers of the text inputs only copy the typed text into
  state and are not modelled.
- Files with no logic of their own are left out: the 3D starfield demo
  (`public/demo.js`, graphics and floating point), the chat transcript's status
  polling and clipboard, the chat header, and the router setup.
