# computer-use-lib in Dafny

A model of the Go package `computeruse` (PeronGH/computer-use-lib), a thin wrapper
over the go-rod browser driver that gives an agent a single browser page to look at,
point at, type into and navigate. The model covers the logic the wrapper adds on top
of the driver:

- the session configuration and its defaults, and the scaling of the 0-999 logical
  grid to viewport pixels with Go's truncating integer division;
- the popup redirector: which created targets it handles, the URL it extracts from a
  popup, and the navigate-or-ignore decision, with the popup always closed afterwards;
- the keyboard: the key-name table, how the tokens of a key combination resolve
  (trimmed and lower-cased for the lookup, sent rune by rune on a miss), the
  press / type / release order of a combination, `TypeText` and the composite
  `TypeTextAt`;
- the pointer operations (clicks, button down and up, moves, hover, drag) and wheel
  scrolling with its direction check;
- navigation with its "https://" scheme default, history steps and search.

The driver is the class `Driver.Driver`. Every call the wrapper makes on the browser,
the main page or a popup page is an `Event` appended to its `trace`. A fixed failure
oracle `failing` (the trace positions whose call fails) decides what each call returns.
`Driver.Run` is what a chain of `if err := ...; err != nil { return err }` issues and
returns for a plan of calls. Most operations promise `Performed(plan, st)`: the trace
grew by exactly what `Run` issues for `plan`, and `st` is the status `Run` returns.
Each plan is spelled out as a function or a literal list. `Did`, `DidCall`, `DidThen`
and `DidStop` are how an operation made of smaller operations proves that promise.

Modules follow the Go files. `GoInt` and `GoStrings` hold the Go semantics the code
relies on: truncating division, `strings.TrimSpace`, `strings.ToLower`,
`strings.HasPrefix` and `unicode.IsSpace`. `Driver` holds the driver. `Sessions`
models session.go, `Keyboard` keyboard.go, `Mouse` mouse.go, `Scroll` scroll.go and
`Navigation` navigation.go.

Two behaviours of the code are worth knowing. `ScrollAt` moves the pointer before it
checks the direction (scroll.go:59-77), so an invalid direction still issues the Move,
while `Scroll` issues nothing for one. And when a step of `NewSession` after connecting
fails (session.go:71-92), it returns the error without closing the browser; the model's
`NewSession` likewise issues no `CloseBrowser` on that path.

## Model

| member | source | states |
|---|---|---|
| Driver.Run | keyboard.go:150-169 | a stop-at-first-error chain issues at most its plan, and all of it when it succeeds |
| Driver.RunStopsAtFirstFailure | keyboard.go:150-169 | what is issued is a prefix of the plan. The status is Ok exactly when the whole plan was issued and no call in it failed. Otherwise the last issued call is the first failing one, and its error is returned |
| Driver.RunAllOk | mouse.go:8-14 | a plan none of whose calls fails is issued whole and returns Ok |
| Driver.RunFirstFailure | mouse.go:10-12 | when the k-th call is the first failing one, exactly the first k+1 calls are issued and that call's error is returned |
| Driver.RunOkIssuesAll | keyboard.go:150-169 | a chain that returned Ok issued every call of its plan |
| Driver.RunAppendOk | keyboard.go:70-116 | running a successful chain and then another is running their concatenation |
| Driver.RunAppendFailed | keyboard.go:70-116 | a failing chain stops everything after it: its concatenation with anything issues and returns the same |
| Driver.Driver.Answer | mouse.go:10 | a call fails exactly when its trace position is in the failure oracle, and its error names that position |
| Driver.Driver.Call | mouse.go:10 | one driver call appends itself to the trace and returns the oracle's answer |
| Driver.Driver.CallThenWait | navigation.go:15-19 | one call and then WaitLoad, the wait issued only when the call succeeded |
| GoInt.TruncDiv | session.go:206-207 | Go's `/` for a positive divisor: the magnitude is the floor of abs(a)/d and the sign is that of a, so the quotient truncates toward zero |
| GoStrings.TrimSpace | keyboard.go:128 | the result neither starts nor ends with a Unicode space, and an all-space string trims to "" |
| GoStrings.TrimSpaceOfPadded | keyboard.go:128 | TrimSpace removes exactly the spaces around a string that has none at its ends |
| GoStrings.LowerRune | keyboard.go:128 | 'A'-'Z' go to 'a'-'z'. U+0130 goes to 'i' and U+212A to 'k'. Every other rune is kept. An ASCII lower-case result comes only from an ASCII letter, U+0130 or U+212A |
| GoStrings.ToLower | keyboard.go:128 | lower-cases rune by rune and keeps the length |
| Sessions.ApplyDefaults | session.go:35-46 | a zero width becomes 1440 and a zero height 900. An empty initial URL becomes "about:blank" and an empty search engine "https://duckduckgo.com". Every other value, negative sizes included, is kept, and both flags are untouched |
| Sessions.DefaultsIdempotent | session.go:35-46 | filling in defaults twice is filling them in once |
| Sessions.FillDefaults | session.go:35-46 | the field-by-field overwrite produces `ApplyDefaults` of its input |
| Sessions.NormalizeCoords | session.go:203-211 | the identity when normalisation is off. Otherwise each coordinate is scaled by its viewport dimension over 1000, truncating |
| Sessions.GridPointInViewport | session.go:204-208 | a grid point in 0..999 x 0..999 lands inside a viewport of positive size |
| Sessions.ScaleInRange | session.go:206-207 | a grid value in 0..999 scales to a pixel in 0..dim-1 |
| Sessions.ScaleTruncatesTowardZero | session.go:206-207 | scaling is odd in its value: a negated grid value scales to the negated pixel, as truncation (not floor division) gives |
| Sessions.PopupTargets | session.go:123-137 | a target is handled exactly when some created event for it is a page opened by the main target. Never more targets than events |
| Sessions.Session.StartPopupRedirector | session.go:122-138 | the targets dispatched to the popup handler are the filtered ones, in order |
| Sessions.ExtractURL | session.go:173-191 | "" when Info fails. A non-blank info URL is returned unchanged. The result is blank exactly when neither source gave a non-blank URL, and otherwise it is one of them. With a blank info URL and no usable href, the info URL itself is returned |
| Sessions.PopupGotoThird | session.go:156-169 | the only navigation of the main page is the third call, and it goes to the extracted URL |
| Sessions.PopupDecision | session.go:141-170 | attach is first. The main page is navigated at most once (no two calls are navigations), only to the extracted URL, and exactly when attaching and waiting succeeded and the URL is not blank. Once attached, the popup is closed exactly once, last. A failed attach issues nothing else |
| Sessions.Session.HandlePopup | session.go:141-170 | the trace grows by exactly the popup events of `PopupDecision` for the extracted URL |
| Sessions.Session.Close | session.go:195-200 | no browser: Ok and no call. Otherwise one browser close whose status is returned |
| Sessions.Session.constructor | session.go:94-100 | the session keeps the configuration, driver and main target it is given |
| Sessions.NewSession | session.go:33-117 | with defaults applied: open the page, set the viewport to the configured size, go to the initial URL, wait, stopping at the first failure. A session exists exactly when all succeeded, and it holds the defaulted configuration |
| Mouse.ClickAt | mouse.go:8-14 | Move to the scaled point, then one left click. The click is issued only when the move succeeded |
| Mouse.RightClickAt | mouse.go:17-23 | Move, then one right click |
| Mouse.MiddleClickAt | mouse.go:26-32 | Move, then one middle click |
| Mouse.DoubleClickAt | mouse.go:35-41 | Move, then a left click with count 2 |
| Mouse.TripleClickAt | mouse.go:44-50 | Move, then a left click with count 3 |
| Mouse.MouseDown | mouse.go:53-59 | Move, then left button down |
| Mouse.MouseUp | mouse.go:62-68 | Move, then left button up |
| Mouse.MouseMove | mouse.go:71-74 | exactly one move to the scaled point |
| Mouse.HoverAt | mouse.go:77-79 | the same trace and status as `MouseMove` |
| Mouse.ClickDrag | mouse.go:82-103 | move to the start, button down, move to the end, button up, in this order, stopping at the first failure |
| Keyboard.Literal | keyboard.go:134-137 | one key per rune of the token, in order, each the rune itself |
| Keyboard.ResolveAllLength | keyboard.go:127-139 | only empty tokens can make the key list shorter than the token list |
| Keyboard.ResolveTokenEmpty | keyboard.go:127-139 | a token contributes no key exactly when it is the empty string; a blank but non-empty token is sent as its spaces |
| Keyboard.ResolveIgnoresCaseAndPadding | keyboard.go:128-132 | a table name written in any case and surrounded by any spaces resolves to exactly its table key |
| Keyboard.ModifierAliases | keyboard.go:11-60 | "return"/"enter" name Enter, "shift"/"shiftleft" ShiftLeft, "control"/"ctrl"/"controlleft" ControlLeft, "alt"/"altleft" AltLeft, "command"/"cmd"/"meta"/"metaleft" MetaLeft |
| Keyboard.NavigationAliases | keyboard.go:11-60 | "escape"/"esc" name Escape, and each arrow has its short and its "arrow" name |
| Keyboard.KeyPlanShape | keyboard.go:146-167 | for n keys: 2n-1 calls, the first n-1 keys pressed in order, the last typed in the middle, and each held key released once in reverse order. No calls for no keys |
| Keyboard.KeyPlanTypesOnlyLast | keyboard.go:151-167 | only the last key is typed. Calls before it are presses and calls after it releases |
| Keyboard.KeyIsNoOp | keyboard.go:121-143 | the tokens resolve to no key, so `Key` issues nothing, exactly when every token is empty, zero tokens included |
| Keyboard.AppendRunes | keyboard.go:135-137 | the loop appends the token's runes after the keys so far |
| Keyboard.ResolveKeys | keyboard.go:126-139 | the resolution loop computes `ResolveAll` of the tokens |
| Keyboard.PressHeld | keyboard.go:151-155 | presses the held keys in order, stopping at the first failure |
| Keyboard.ReleaseHeld | keyboard.go:163-167 | releases the held keys from last to first, stopping at the first failure |
| Keyboard.TypeCombination | keyboard.go:141-169 | the calls of `KeyPlan` for the resolved keys, stopping at the first failure, which may leave keys held |
| Keyboard.Key | keyboard.go:120-170 | resolves the tokens and issues `KeyPlan` of the resulting keys, stopping at the first failure |
| Keyboard.TypeText | keyboard.go:63-65 | one typing call with the text's runes |
| Keyboard.NormalizesTo | keyboard.go:128 | a token with no surrounding spaces normalises to its rune-by-rune lower case |
| Keyboard.NormalizesCapitalized | keyboard.go:128 | a capitalised word normalises to the name that differs from it only in its lower-case first letter |
| Keyboard.LetterAIsLiteral | keyboard.go:84-91 | "A" is no name in the table, so it is sent as the character 'A' |
| Keyboard.CommandIsMeta | keyboard.go:84-86 | "Command" resolves to MetaLeft |
| Keyboard.ControlIsControlLeft | keyboard.go:88-90 | "Control" resolves to ControlLeft |
| Keyboard.DeleteIsDelete | keyboard.go:94-96 | "Delete" resolves to the Delete key |
| Keyboard.EnterIsEnter | keyboard.go:109-113 | "Enter" resolves to the Enter key |
| Keyboard.SingleKeyTyped | keyboard.go:146-148 | a single token naming one key is one typing call of that key |
| Keyboard.ResolvePair | keyboard.go:127-139 | two tokens resolve to the first's keys followed by the second's |
| Keyboard.KeyPlanPair | keyboard.go:151-167 | two keys: press the first, type the second, release the first |
| Keyboard.PairOfKeys | keyboard.go:120-170 | two one-key tokens: the first held around typing the second |
| Keyboard.SelectAllKeys | keyboard.go:83-91 | the select-all combination presses the platform's modifier (MetaLeft on macOS, ControlLeft elsewhere), types 'A' and releases the modifier |
| Keyboard.ClearField | keyboard.go:82-97 | select all, then type Delete, stopping at the first failure |
| Keyboard.ClickAndWait | keyboard.go:72-79 | click at the point, then wait for the page |
| Keyboard.TypeAndWait | keyboard.go:100-106 | type the text, then wait for the page |
| Keyboard.EnterAndWait | keyboard.go:109-115 | type Enter when asked, then wait for the page |
| Keyboard.TypeTextAt | keyboard.go:70-116 | move and click, wait; when clearing, the select-all combination and Delete; type the text, wait; when asked, Enter; wait. Stops at the first failure |
| Scroll.Magnitude | scroll.go:13-22 | the amount as given when not normalising. Otherwise it is scaled by the viewport height for "up"/"down" and by the width for any other string |
| Scroll.WheelDelta | scroll.go:25-37 | a delta exists exactly for "up", "down", "left", "right". Only the named axis moves, by the full distance; up and left are the negative directions. Whatever the sign of the distance, up and left move by its negation and down and right by the distance itself |
| Scroll.MagnitudeWithinViewport | scroll.go:15-22 | a grid distance in 0..999 scrolls by less than the viewport along its axis |
| Scroll.OppositeDirectionsCancel | scroll.go:26-34 | up and down, and left and right, scroll by opposite deltas |
| Scroll.Scroll | scroll.go:12-40 | an invalid direction fails with no driver call. Otherwise one wheel call of one step by the delta |
| Scroll.ScrollAt | scroll.go:46-81 | the move to the scaled point comes first and its error wins. An invalid direction then fails with the move already issued. A valid one wheels by the delta with zero steps |
| Navigation.NormalizeURL | navigation.go:10-13 | the result starts with "http://" or "https://". A URL already starting with one is kept, and any other gets "https://" in front |
| Navigation.NormalizeURLIdempotent | navigation.go:10-13 | normalising twice is normalising once |
| Navigation.NormalizeURLKeepsURL | navigation.go:10-13 | normalising only ever prepends: the URL ends the result |
| Navigation.SearchDefaultsToDuckDuckGo | session.go:44-46 | without a configured search engine, search goes to "https://duckduckgo.com" |
| Navigation.Navigate | navigation.go:8-20 | go to the normalised URL, then wait, with the wait only after a successful navigation |
| Navigation.GoBack | navigation.go:23-28 | one step back, then wait |
| Navigation.GoForward | navigation.go:31-36 | one step forward, then wait |
| Navigation.Search | navigation.go:39-41 | navigate to the configured search engine's normalised URL |

## Left out

- Launching the browser, its command-line flags, connecting to it and binding the context (session.go:48-68) are process and network plumbing. `NewSession` starts from a connected driver and is given the main page's target id.
- Concurrency is left out: the event-listener goroutine, one goroutine per popup, and the navigation mutex. `StartPopupRedirector` handles a given sequence of creation events, and `HandlePopup` runs one popup on its own, so no claim is made about interleaved popups.
- go-rod's own behaviour is not modelled. This covers `Mouse.Click` issuing a press and a release, `Keyboard.Type` issuing one press/release pair per key, CDP messages and key codes. Each driver method is one `Event`, and whether it fails is the oracle's choice. As a result a typing call with no keys can fail in the model, which rod would not do.
- `Page.Info` and the `location.href` evaluation are not driver events. Their outcomes are the `Option<string>` inputs of `ExtractURL` and `HandlePopup`.
- The `float64` conversions of points and deltas are not modelled, and coordinates and deltas are integers. This is exact for magnitudes below 2^53.
- `runtime.GOOS` is the boolean parameter `darwin` of `TypeTextAt`.
- Sessions.NormalizeCoords: does not model 64-bit overflow of `x * ScreenWidth` (and of the scroll magnitude product), because integers here are unbounded. The results agree with Go whenever the product fits in an `int`.
- Strings are sequences of runes, so the byte-level handling of invalid UTF-8 by Go's `range` over a string is not modelled. `strings.ToLower` is modelled for the runes whose lower case is ASCII, which is all the key-name lookup can match. Other runes are kept, where Go may map them to other non-ASCII runes; a lookup gives the same answer either way.
- `GetURL` (session.go:213-220), screenshot.go and example/main.go are not part of this model. They are a library query, a wait before a library screenshot, and a demo program.
