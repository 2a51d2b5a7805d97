# ClickGuide: a model of the guide overlay, the keyword classifier and the AI service

ClickGuide is a browser extension that walks a user through a task on a web
page, one step at a time. Each step has a title, a description and a CSS
selector. The extension highlights the element the selector finds, dims the
rest of the page and shows "Previous"/"Next" buttons. The steps come from one
of two places:

- a fixed table of five guides (GitHub repository creation, sign-up, login,
  search and a generic guide), picked by keywords in the user's instruction;
- an AI provider (OpenAI or Anthropic), called from the background worker,
  whose JSON answer is normalised into steps.

This project models and proves the parts of that logic that do not depend on
the browser:

| file | module | what it models |
|---|---|---|
| `wrappers.dfy` | `Wrappers` | `Option` (JavaScript `null`) and `Result` (a value or a thrown error) |
| `jsstring.dfy` | `JsString` | the string built-ins used: `trim`, `toLowerCase`, `includes`, `split(',')`, `substring(0, n)`, `String(n)` |
| `steps.dfy` | `Steps` | the step record, the `GENERATE_GUIDE` request and reply, and how the content script adopts a reply |
| `tasks.dfy` | `Tasks` | the task table, `parseTask` and `getTaskSteps` |
| `selectors.dfy` | `Selectors` | `findElement`, over an abstract page |
| `session.dfy` | `Session` | the content script's overlay state and the functions that change it, as a class `ContentScript` proved against state functions |
| `airesponse.dfy` | `AiResponse` | what both copies of the AI service share: `isConfigured`, the provider choice and `parseAIResponse` after extraction |
| `aiservice.dfy` | `AiService` | the `AIService` class of `aiService.js`, with its cache |
| `background.dfy` | `Background` | the background worker's copy of the service and its `GENERATE_GUIDE` / `SET_API_KEY` handlers |

The page is a function from a selector to `Invalid` (the query throws),
`NoMatch` or `Match(element)`. A provider's HTTP call is a function from the
provider to the text of its answer or an error. The regular-expression
extraction and `JSON.parse` in `parseAIResponse` are a function from the
answer's text to the parsed array, or `None` when no array comes out.

Which element carries the highlight class, and how many dim layers are
attached to the document, are not variables of the script. The model
records both as ghost state of `ContentScript` (`marked`, `dimLayers`). The
invariant `Session.Consistent` then states:

- the only marked element is the highlighted one;
- there is exactly one dim layer when an element is highlighted and none otherwise;
- a non-empty guide is at one of its steps.

Every entry point keeps this invariant: `RenderStep`, `CloseGuide`, `NavigateStep`, `CreateOverlay`, `StartGuide`, `OnGuideResponse` and the three click handlers. `HighlightElement` and `CreatePageOverlay` do not keep it on their own, since each adds a mark or a dim layer to what is already there. They keep it only when `ClearHighlight` runs first, as it does in `RenderStep`.

## Model

| member | source | states |
|---|---|---|
| Steps.AdoptedSteps | contentScript.js:498-517 | the response callback adopts the reply's steps exactly when a response arrived without `lastError` and has `success` and `steps` both set (an empty array counts); otherwise it runs the keyword guide |
| Tasks.TableStep | contentScript.js:12-155 | a step of the table is never the URL-check step |
| Tasks.Expand | contentScript.js:202 | the copy of a row's steps has the row's steps, in order, one for one |
| Tasks.ExtraChecksUnreachable | contentScript.js:183-189 | when no row's keyword occurs, none of the words the extra checks look for occurs either, so they never fire and the result is `generic` |
| Tasks.ParseTaskFirstMatch | contentScript.js:164-190 | blank input gives `github`; otherwise the key of the first non-generic row, in table order, with a keyword in the lowercased trimmed input, else `generic` |
| Tasks.ParseTaskByPosition | contentScript.js:169-189 | `generic` iff no row selects the input; any other result is the key of a selecting row with no selecting row before it |
| Tasks.BlankInstructionIsGitHub | contentScript.js:164-167 | an instruction that is empty or all white space gives `github` |
| Tasks.ParseTaskEmpty | contentScript.js:165-166 | the empty instruction gives `github` |
| Tasks.ParseTaskIsKey | contentScript.js:164-190 | the result is always one of the five table keys, and it finds its row |
| Tasks.LookupKeys | contentScript.js:199 | each of the five keys finds its own row of the table |
| Tasks.FirstSelectingAt | contentScript.js:172-180 | the keyword loop returns the key of a selecting row when no earlier row selects |
| Tasks.ParseNormalised | contentScript.js:169 | an input that lowercasing and trimming leave unchanged goes straight to the keyword loop |
| Tasks.ParseTaskAt | contentScript.js:169-180 | a normalised input is classified by the first row that selects it |
| Tasks.ParseTaskIsGitHub | contentScript.js:11 | a normalised input with a GitHub keyword gives `github` |
| Tasks.ParseTaskIsSignUp | contentScript.js:48 | a normalised input with a sign-up keyword and no GitHub keyword gives `signup` |
| Tasks.ParseTaskIsSearch | contentScript.js:110 | a normalised input with a search keyword and no keyword of the first three rows gives `search` |
| Tasks.ParseTaskGitHub | contentScript.js:11 | "create a new github repo" gives `github` |
| Tasks.ParseTaskSignUp | contentScript.js:47-48 | "sign up" gives `signup` |
| Tasks.ParseTaskSearch | contentScript.js:109-110 | "search for cats" gives `search` |
| Tasks.NoGitHubKeyword | contentScript.js:11 | an input lacking `g` or `h`, and lacking `r` or `p`, contains no GitHub keyword |
| Tasks.NoSignUpKeyword | contentScript.js:48 | an input without `g`, `u` and `j` contains no sign-up keyword |
| Tasks.NoLoginKeyword | contentScript.js:79 | an input without `g` and `l` contains no login keyword |
| Tasks.GetTaskStepsCases | contentScript.js:198-216 | an unknown key gets the generic steps; `github` off github.com gets the URL-check step followed by the five GitHub steps (six in all); every other key gets its row's steps unchanged |
| Tasks.UrlCheckOnlyInFront | contentScript.js:204-212 | a step is the URL-check step exactly when it is the first step of the GitHub guide started off github.com |
| Tasks.TaskStepsLength | contentScript.js:12-155 | every guide from the table has between three and six steps |
| Tasks.SignUpScenario | contentScript.js:47-74 | "sign up" loads the four sign-up steps on any page |
| Tasks.SignUpSteps | contentScript.js:198-213 | the `signup` key loads the sign-up row's steps |
| Selectors.FindFirstSpec | contentScript.js:357-369 | the candidate loop gives `null` iff no candidate's query matches, else the match of a candidate with none matching before it |
| Selectors.FindElementFirstMatch | contentScript.js:351-370 | `findElement` gives `null` for an empty selector or when no trimmed comma-separated candidate matches; otherwise the match of the first matching one |
| Selectors.FindFirstAt | contentScript.js:359-364 | the first matching candidate decides the result |
| Selectors.InvalidIsNoMatch | contentScript.js:360-366 | a query that throws has the same effect as one that matches nothing: the search never throws |
| Selectors.OnlyCandidatesQueried | contentScript.js:355-367 | only the selector's own candidates are queried |
| Selectors.CandidatesOfList | contentScript.js:355 | the candidates are the comma-separated pieces of the selector, each trimmed |
| Selectors.FindElementSkipsFirst | contentScript.js:357-366 | a first candidate that throws or matches nothing is passed over |
| Selectors.FindElementTakesFirst | contentScript.js:357-363 | a first candidate that matches wins, whatever follows it |
| Session.AtMostOneOfEach | contentScript.js:226-227 | under the invariant there is at most one highlighted element and at most one dim layer |
| Session.InitialConsistent | contentScript.js:223-227 | the script starts in a consistent state |
| Session.ClearedEffect | contentScript.js:433-443 | `clearHighlight` leaves no highlighted element and no dim layer, unmarks the element and changes nothing else |
| Session.ClearedIdempotent | contentScript.js:433-443 | `clearHighlight` twice is `clearHighlight` once |
| Session.ClosedEffect | contentScript.js:463-473 | from a consistent state `closeGuide` returns to the initial state: no highlight, no dim layer, no container, index 0, no steps |
| Session.ClosedIdempotent | contentScript.js:463-473 | `closeGuide` is idempotent and keeps the invariant |
| Session.RenderOutOfRange | contentScript.js:300-302 | `renderStep` outside `[0, length)` changes no state |
| Session.RenderAfterClose | contentScript.js:300-302 | after `closeGuide`, `renderStep` is a no-op for every index |
| Session.RenderHighlight | contentScript.js:304-343 | `renderStep(i)` in range sets the index to `i`, removes the old highlight and dim layer, and adds a new one of each exactly when the selector is non-empty and `findElement` finds an element |
| Session.RenderWithHighlight | contentScript.js:337-343 | the same, for any outcome of `findElement` |
| Session.RenderPanel | contentScript.js:313-335 | on the step panel: the step's title; the description with ` (fallback)` appended exactly when there is a fallback and nothing is found; "previous" disabled iff `i = 0`; "next" disabled and labelled `Finish` iff `i` is the last index; any other container untouched |
| Session.RenderWithPanel | contentScript.js:313-335 | the same, for any outcome of `findElement` |
| Session.RenderedKeepsSteps | contentScript.js:299-305 | rendering a step of the guide makes it the current step and keeps the guide's steps |
| Session.RenderedConsistent | contentScript.js:299-344 | `renderStep` keeps the invariant |
| Session.NavigateCases | contentScript.js:449-458 | a target inside the guide becomes the current step and the steps are kept; at or past the end the guide closes, which from a consistent state is the state the script was loaded in; below 0 nothing changes |
| Session.NavigatedConsistent | contentScript.js:449-458 | `navigateStep` keeps the invariant |
| Session.CreatedShowsFirst | contentScript.js:232-293 | opening a guide with steps shows its first step's title on a fresh step panel, at index 0 |
| Session.EmptyAdoptionKeepsHighlight | contentScript.js:300-302 | adopting an empty list of steps leaves the previous highlight and dim layer in place behind a blank panel |
| Session.CreatedConsistent | contentScript.js:232-293 | opening a guide keeps the invariant |
| Session.CreatedKeepsSteps | contentScript.js:232-293 | opening a guide keeps its steps |
| Session.TableGuideOpens | contentScript.js:543-549 | the guide of every table row opens at its first step, consistently |
| Session.KeywordGuideOpens | contentScript.js:536-550 | `fallbackToKeywordGuide` loads `getTaskSteps(parseTask(instruction), url)` and shows its first step |
| Session.RespondedCases | contentScript.js:496-518 | the callback adopts the reply's steps exactly when `AdoptedSteps` gives them, and otherwise runs the keyword guide; the invariant is kept either way |
| Session.FinishIsInert | contentScript.js:332-335 | at the last step the button reads `Finish` but is disabled, so clicking it changes nothing |
| Session.ClicksConsistent | contentScript.js:284-286 | the three button listeners keep the invariant |
| Session.ContentScript.constructor | contentScript.js:223-227 | the five variables start as declared, with nothing marked and no dim layer |
| Session.ContentScript.ClearHighlight | contentScript.js:433-443 | moves the state as `Cleared` does |
| Session.ContentScript.CreatePageOverlay | contentScript.js:404-428 | replaces any dim layer with a new one |
| Session.ContentScript.HighlightElement | contentScript.js:376-398 | marks the element `findElement` finds and adds a dim layer; nothing when none is found |
| Session.ContentScript.RenderStep | contentScript.js:299-344 | moves the state as `Rendered` does and keeps the invariant |
| Session.ContentScript.CloseGuide | contentScript.js:463-473 | moves the state as `Closed` does; from a valid state the result is the initial state |
| Session.ContentScript.NavigateStep | contentScript.js:449-458 | moves the state as `Navigated` does and keeps the invariant |
| Session.ContentScript.CreateOverlay | contentScript.js:232-293 | a fresh step panel, then `renderStep(0)` |
| Session.ContentScript.ShowLoadingOverlay | contentScript.js:555-584 | the loading message replaces the container |
| Session.ContentScript.FallbackToKeywordGuide | contentScript.js:536-550 | loads the table's steps for the instruction and opens the guide at index 0 with at least three steps |
| Session.ContentScript.StartGuide | contentScript.js:481-529 | an empty URL is replaced by the page's location; the keyword path opens the guide; the AI path shows the loading message and sends the request, or opens the keyword guide when sending throws |
| Session.ContentScript.OnGuideResponse | contentScript.js:496-518 | moves the state as `Responded` does and keeps the invariant |
| Session.ContentScript.ClickPrevious | contentScript.js:284 | enabled "Previous" navigates back one step |
| Session.ContentScript.ClickNext | contentScript.js:285 | enabled "Next" navigates forward one step |
| Session.ContentScript.ClickClose | contentScript.js:286 | the close button closes the guide |
| AiResponse.Or | aiService.js:228-231 | a string field or its default: the value when it is a non-empty string, else the default |
| AiResponse.Normalised | aiService.js:227-232 | the map keeps the length and normalises each element at its own index |
| AiResponse.ParseArray | aiService.js:223-232 | a usable array gives one step per element; title defaults to `Step i+1`, description to `''`, selector to `body`, fallback to the description; no title or selector is empty |
| AiResponse.DefaultTitleNumbers | aiService.js:228 | a default title is `Step ` followed by digits that read back as the one-based position |
| AiResponse.FallbackEmptyIff | aiService.js:231 | a step's fallback is empty iff the answer gave neither a fallback nor a description |
| AiResponse.ParseFailure | aiService.js:233-244 | when extraction fails, the array is not an array, or an element is `null`, the result is one step: `Step 1: Follow Instructions`, the first min(200, length) characters followed by `...`, selector `body` |
| AiResponse.ParseEmptyIff | aiService.js:220-244 | the result is empty iff the parsed array was empty |
| AiResponse.ConfiguredIff | aiService.js:30-32 | `isConfigured` holds iff the key is not `null` and has a character that is not white space |
| AiResponse.SelectProvider | aiService.js:74-80 | `openai` names OpenAI, `anthropic` names Anthropic, anything else names no provider |
| AiResponse.CallAIDispatch | aiService.js:71-81 | `callAI` throws `Unknown API provider` for any other name; for a known provider it returns the parse of that provider's trimmed answer, or its error |
| AiResponse.CallAISteps | aiService.js:71-81 | a successful `callAI` reached a provider, and yields no steps iff that provider's answer parsed to an empty array |
| AiService.CacheKey | aiService.js:46 | the key is the lowercased task, `_`, then the URL |
| AiService.CacheKeyIgnoresCase | aiService.js:46 | tasks differing only in letter case share a cache entry |
| AiService.CacheKeyCollides | aiService.js:46 | different requests can share a key: task `a_b` on `c` and task `a` on `b_c` |
| AiService.StoredKey | aiService.js:20 | an empty or missing stored key becomes `null` |
| AiService.AIService.constructor | aiService.js:8-12 | no key, provider `openai`, empty cache |
| AiService.AIService.Initialize | aiService.js:17-25 | key and provider from storage; an empty or missing key becomes `null` and an empty or missing provider `openai` |
| AiService.AIService.CallAI | aiService.js:71-81 | calls the named provider once, or none for an unknown name |
| AiService.AIService.GenerateGuide | aiService.js:40-63 | throws `API key not configured` without a key; returns a cached guide without calling a provider; otherwise calls `callAI` and caches a successful result under the key |
| AiService.AIService.SetApiKey | aiService.js:252-254 | sets the key and provider to the arguments; only an omitted provider becomes `openai` |
| Background.SameAsService | background.js:162-179 | the background copy equals the key check followed by `callAI` of `aiService.js` |
| Background.UnconfiguredFails | background.js:163-165 | without a key the result is `API key not configured` and no provider answer matters |
| Background.ReplyAdoptedIff | background.js:190-197 | the content script adopts the reply's steps iff the generation succeeded; a failure reply carries the error message |
| Background.UnconfiguredUsesKeywords | background.js:163-165 | without a key the content script always ends on the keyword path |
| Background.BackgroundService.constructor | background.js:11-14 | no key, provider `openai` |
| Background.BackgroundService.Initialize | background.js:16-24 | key and provider from storage; an empty or missing key becomes `null` and an empty or missing provider `openai` |
| Background.BackgroundService.Configured | background.js:26-28 | `isConfigured` holds iff the key is not `null` and has a character that is not white space |
| Background.BackgroundService.HandleGenerateGuide | background.js:188-200 | the reply is `{success: true, steps}` or `{success: false, error}`; `success` iff steps are present; without a key, the not-configured error |
| Background.BackgroundService.HandleSetApiKey | background.js:202-220 | on a storage error the fields stay unchanged and the reply carries the error; otherwise the fields take the key and the provider, with `openai` for a missing or empty one |

## Left out

- HTTP: `callOpenAI` and `callAnthropic` are a `fetch` parameter giving the answer's text or the thrown message. Request bodies, headers and the `... API error: ...` message format are not modelled.
- `buildPrompt`: template text over `new URL(...).hostname`, which is URL parsing by the platform. It runs before the provider is chosen (aiService.js:72, background.js:167), so a non-empty URL that does not parse makes `new URL` throw `Invalid URL`. `generateGuide` then fails even for an unknown provider and no provider is called. The callers pass `window.location.href` or a tab's URL, which always parse.
- AiResponse.CallAI: the `Invalid URL` throw of `buildPrompt` is not modelled, so every URL reaches the provider dispatch. The same holds for AiService.AIService.CallAI, AiService.AIService.GenerateGuide and Background.GenerateGuide and the lemmas about them. In the source that throw would come even before the `Unknown API provider` error.
- The regular expressions and `JSON.parse` in `parseAIResponse` (aiService.js:209-220, background.js:129-139) are the `extract` parameter. An array element's field holding anything other than a string (a number, an object) is not modelled. An element is either `null` or an object with string or absent fields.
- Chrome APIs: `chrome.storage.sync` becomes the stored values passed to `Initialize` and the storage error passed to `HandleSetApiKey`. `chrome.runtime` messaging becomes a returned request plus a later `OnGuideResponse` call. The `GET_API_STATUS` and `START_GUIDE` listeners are not modelled. The `beforeunload` listener only calls `closeGuide`, which is modelled.
- DOM construction and styling (element trees, `innerHTML`, CSS, colours, opacity, the spinner, `scrollIntoView`) are not modelled. The panel is modelled by its title, description, warning colour, button states and "Next" label. The loading overlay is just a panel kind: it has no element with the step ids, so `renderStep` leaves it alone.
- `hideLoadingOverlay` has no effect in either branch, so it is not modelled.
- Asynchrony: a response is applied whenever it arrives. The script has no guard against stale responses and `startGuide` does not close a running guide first, so neither is modelled.
- Logging is not modelled.
- Session.Rendered: `renderStep` calls `findElement` twice on the same selector, once for the description and once through `highlightElement`. The model uses one result for both, which assumes the two calls agree. They can disagree, because between them `renderStep` rewrites the panel's description and buttons and `clearHighlight` removes the `clickguide-highlighted` class and the `#clickguide-page-overlay` element. A selector that matches the guide's own nodes (`.clickguide-highlighted`, say) can then find an element for the description and none for the highlight.
- Tasks.TextOf: the table's step texts are kept verbatim, but no lemma states their contents, only the table's shape (keys, keywords, step counts, order). The URL-check step has no `fallback`; it is modelled as the empty string, which is falsy in the same way.
- Tasks.ParseTask: the instruction is a string. An absent instruction (`!userInput`) is covered by the empty string, which the `START_GUIDE` listener passes in its place.
- Tasks.GetTaskSteps: only the table's own keys are looked up. A key naming an inherited property of a JavaScript object (such as `constructor`) would make `[...task.steps]` throw. `parseTask` never returns such a key.
- JsString.ToLower: maps ASCII letters only, whereas `toLowerCase` maps all of Unicode.
- JsString.Prefix: counts sequence elements, whereas `substring` counts UTF-16 code units, so the two differ only on characters outside the Basic Multilingual Plane.
- AiService.AIService.SetApiKey: `chrome.storage.sync.set` after the field updates is not modelled.
- Background.BackgroundService.HandleSetApiKey: `message.apiKey` is taken to be a string. A message without one would set the key to `undefined`, and a later `isConfigured` would then throw.
