# Verified models of an MCP SDK

This project models the parts of a Model Context Protocol SDK written in Go whose behaviour spans several
functions, goroutines or calls, and proves what they are for. Every statement holds for all inputs, all runs or
all reachable states of the model. `dafny verify dfyconfig.toml` checks the whole project.

**URI templates.** Two engines expand templates and match URIs back. The one in `server/resource_template.go`
replaces expressions one after the other in the template text, and builds its pattern in the same way; the one in
`shared/uri_template.go` parses a template into parts.
- `Text` and `Regex` hold what both take from Go's library: first-occurrence replacement, splitting, quoting,
  and patterns made of characters, classes and greedy captured runs. A pattern is built as text, read by
  `Compile`, and matched by backtracking, leftmost first.
- `ServerTemplate` (validation and its grammar), `ServerErrors` (which error is reported), `ServerExpand`
  (sequential replacement against simultaneous substitution), `ServerMatch` (both round trips, the registry) and
  `ServerRead` (which URIs match, and how the returned variables stand in them).
- `UriTemplate` (parser and printer), `UriParse` (what any template parses to), `UriExpand` (escaping and
  expansion), `UriMeaning` (what any parts expand to), `UriMatch` (pattern building and matching), `UriRead` (which
  URIs match, and how the returned variables stand in them), `UriRoundTrip` (when matching undoes expansion).

**JSON-RPC correlation.** State machines whose steps are the lock-protected operations, timer firings and channel
moves of the goroutines. `JsonRpc` is the message handler, and `JsonRpcRuns` what becomes of a request in terms of
the steps. `TimerRace` looks at its timer callback and its
response delivery at a finer grain, as the code runs them and with a repair. `Progress` adds progress tokens and
timers in discrete time, and `ProgressNotices` says what notifications do to deadlines. `Stdio` is the stdio
transport as a chain of bounded channels, `StdioRuns` what its runs deliver, `InProcess` the in-process transport
closed into a loop with the message handler, and `InProcessRuns` what requests over it are answered with.

**Server.** `ServerPool` is admission, the dispatcher and the worker pool, and `ServerAnswers` what it answers.
`ResourceCache` is the resource registry's cache with its interleaved readers, and `ResourceHistory` where returned
content comes from. `ToolStats` is the execution statistics of tools.

Code that changes state step by step is a method with a loop, or a class whose methods are proved equal to the
steps of the state machine; the theorems are about the functions and steps that these contracts name. Where code and
contract share a definition, another theorem fixes it in terms of inputs, results and the steps of a run. In the
classes, `View()` is the state of the machine. The cuts between methods of one loop body are the points where
other goroutines can run.

## Where the code differs from what it says

- The comments of the server engine mention a `*` modifier. Its third group is always empty, because the name
  before it is greedy and takes the star (`ServerTemplate.ModifierIsEmpty`); so the branch for `{/name*}` is never
  taken, and a template with a star is rejected because its name is not an identifier.
- Sequential replacement is not always substitution. A value goes to the first place where its expression's text
  occurs, and that can be inside an earlier value (`ServerExpand.ExpandDisplaces`). The loop replaces every
  expression in its own place exactly when no expression's text occurs in what the values before it have become
  (`ServerExpand.InPlaceIffClear`). It has the text of one-pass substitution after every step exactly when every
  replacement is harmless, meaning that its text does not occur earlier or that value and text may trade places
  there (`ServerExpand.StepsAgreeIffHarmless`). When all but the last expression are harmless, the last one decides
  about the result (`ServerExpand.LastDecides`). Several misplaced values can cancel each other out
  (`ServerExpand.WrongPlacesCanCancel`).
- A template of `shared/uri_template.go` whose first name starts with an operator character after a blank, such as
  `{ +a}`, prints as `{+a}` and then parses differently (`UriTemplate.BlankHidesOperator`,
  `UriTemplate.ReparsesExactly`).
- `correlateResponse` truncates a fractional id, so that it answers another request
  (`JsonRpc.MisdirectedIffFractional`).
- A response whose id, or a progress notification whose token, is an array or an object makes the lookup panic,
  and nothing recovers (`JsonRpc.MessageHandler.CorrelateResponse`,
  `Progress.ProgressMessageHandler.LookUpNotification`).
- The timer callback closes the response channel without asking whether it removed the request. When a response or
  the shutdown took the request first, a channel is closed twice or sent on after closing
  (`TimerRace.PanicsExactlyWhenLost`).
- A progress token decoded from JSON is a float and is never found among the integer keys
  (`Progress.JsonTokenIsIgnored`), and closing the progress handler leaves its response channels open
  (`Progress.ShutdownLeavesChannelOpen`).
- A read that spans a re-registration puts the old handler's content into the new entry's cache
  (`ResourceCache.SpanningReadGoesStale`).

## Model

| member | source | states |
|---|---|---|
| Regex.PlainMatch | shared/uri_template.go:465-481 | The exploded pattern, a class followed by repeated comma groups, matches and captures in every context exactly what the class alone does |
| Regex.MatchSound | server/resource_template.go:304-313 | A found match spells the matched text piece by piece with its captures, and all of it when anchored |
| Regex.MatchGreediest | server/resource_template.go:304-313 | If any captures spell the text a match is found, and its runs are at least as greedy, earlier runs first |
| Regex.CompileQuoted | shared/uri_template.go:354-357 | Quoted text is read as its own characters, whatever follows |
| Text.ReplaceFirstAt | server/resource_template.go:527-527 | A first-occurrence replacement hits the occurrence before which its marking character does not occur |
| Text.SplitJoin | shared/uri_template.go:417-418 | Splitting a joined list of comma-free strings gives the list back, empty strings included |
| ServerTemplate.ValidationIsTheGrammar | server/resource_template.go:438-482 | Validation accepts exactly the nonempty concatenations of brace-free text and `{operator? identifier}` |
| ServerTemplate.ValidateURITemplate | server/resource_template.go:438-482 | The brace-counting loop and the loop over variables return the specified verdict and error |
| ServerTemplate.PrintedIsValid | server/resource_template.go:438-482 | The text of well-formed nonempty tokens is accepted |
| ServerTemplate.ScannersAgree | server/resource_template.go:256-257 | On well-formed templates the three variable patterns of the file find the same expressions, in order |
| ServerTemplate.ModifierIsEmpty | server/resource_template.go:256-271 | Whatever the template, the modifier group is empty in every match |
| ServerTemplate.CompileAllVariables | server/resource_template.go:466-493 | The texts of the three variable patterns compile to the pieces the proofs use |
| ServerErrors.ReportsFirstBrace | server/resource_template.go:444-462 | Validation reports the first place where, counting opening less closing braces, the text has more than one or fewer than none open: a nested brace if the character there opens, an unmatched closing one if it closes |
| ServerErrors.ReportsFirstName | server/resource_template.go:464-482 | If there is no such place, it reports an unmatched opening brace if one is open at the end, and else the first expression whose name is empty or no identifier |
| ServerExpand.ExpandURITemplate | server/resource_template.go:484-531 | The replacement loop computes the specified fold and error |
| ServerExpand.FormatValue | server/resource_template.go:506-525 | The switch gives each operator's replacement |
| ServerExpand.ReplacementShape | server/resource_template.go:506-525 | Every operator but `+` goes before the value, and `;`, `?` and `&` put the name and `=` between |
| ServerExpand.ExtractTemplateVariables | server/resource_template.go:419-436 | The loop with its set of seen names returns the names that NamesAreDistinct and NamesInOrder speak about |
| ServerExpand.NamesAreDistinct | server/resource_template.go:419-436 | Extracted names are pairwise distinct, and are exactly the names of the matched expressions |
| ServerErrors.NamesInOrder | server/resource_template.go:419-436 | Names are extracted in the order in which they first occur |
| ServerExpand.SequentialIsSimultaneous | server/resource_template.go:490-530 | For any valid template, repeated variables included, if no replacement does harm, replacing first occurrences one after the other equals substituting all expressions at once |
| ServerExpand.StepsAgreeIffHarmless | server/resource_template.go:490-530 | The loop has the text of one-pass substitution after every step if and only if every replacement is harmless: the expression's text does not occur in what the values before have become, or value and text commute around what is between |
| ServerExpand.InPlaceIffClear | server/resource_template.go:527-527 | The loop replaces every expression where it stands if and only if no expression's text occurs in what the values before it have become |
| ServerExpand.LastDecides | server/resource_template.go:490-530 | When all expressions but the last are harmless, the expansion equals one-pass substitution if and only if the last one is harmless |
| ServerExpand.ExpandDisplaces | server/resource_template.go:490-530 | For all values the expansion is, left to right, each value put at the first earlier occurrence of its expression's text, or in its own place |
| ServerExpand.BraceFreeIsSimultaneous | server/resource_template.go:490-530 | In particular, values without `{` make the expansion one-pass substitution |
| ServerExpand.BraceInValueIsReplacedAgain | server/resource_template.go:527-527 | For any two variables, a value that is the second expression's text is replaced in its turn, and the result is wrong if and only if the second value does not commute with that text |
| ServerExpand.WrongPlacesCanCancel | server/resource_template.go:490-530 | For any three variables, values that make a harmful replacement and still come out right |
| ServerExpand.ExpandsIffBound | server/resource_template.go:485-504 | An accepted template expands without error if and only if every extracted name is bound |
| ServerErrors.ReportsFirstUnbound | server/resource_template.go:495-504 | Expanding a valid template reports the name of the first expression that is not bound |
| ServerMatch.BuildRegex | server/resource_template.go:264-302 | The loop builds the specified pattern text |
| ServerMatch.GroupFor | server/resource_template.go:278-299 | The switch gives each operator's group, as the same text that the compiled pieces are read from |
| ServerMatch.CleanValue | server/resource_template.go:324-338 | What is returned is the captured value, less a leading `/`, `.` or `#` if that is the operator |
| ServerMatch.AssignVariables | server/resource_template.go:315-342 | The loop assigns the captures, cleaned by operator, to the names |
| ServerMatch.MatchesTemplate | server/resource_template.go:250-345 | The method returns the variables and the verdict that ServerRead describes |
| ServerMatch.BuildsPattern | server/resource_template.go:264-302 | On well-formed templates the replacement loop yields the concatenation of each token's own pattern |
| ServerMatch.MatchesPieces | server/resource_template.go:250-345 | So matching a URI is matching the pieces of the template's tokens |
| ServerRead.MatchReads | server/resource_template.go:250-345 | For all eight operators and distinct names: a URI that matches is, token by token, the template's own characters and for each expression its lead and then the returned variable, which is all that is returned. The lead is nothing for none and `+`; `/`, `.` and `;` themselves; `?` or `&` for both query operators; `#`, or `##` where the fragment itself starts with `#`. Each value keeps to its operator's characters, and only a fragment can be empty |
| ServerRead.MatchesIffReads | server/resource_template.go:250-345 | A URI matches if and only if it can be read in that way with some values |
| ServerMatch.MatchThenExpand | server/resource_template.go:250-345 | For operators none, `+`, `/` and `.` and distinct variables, expanding with the matched variables gives the URI back, however ambiguous the split |
| ServerMatch.ExpandThenMatch | server/resource_template.go:250-345 | For operators none, `/` and `.`, each expression followed by the end or a slash and fitting nonempty values, matching the expansion returns exactly those values |
| ServerMatch.ResourceTemplateRegistry.FindTemplateForURI | server/resource_template.go:230-247 | Whatever the map order, the answer is an enabled template that matches, with its variables, or nothing when there is none |
| ServerMatch.ResourceTemplateRegistry.RegisterTemplate | server/resource_template.go:153-192 | A new name is stored enabled; a taken name changes nothing |
| ServerMatch.ExpansionIsFound | server/resource_template.go:230-247 | The expansion of an enabled template is always found, with the values it was expanded with if that template is the one found |
| UriTemplate.Parse | shared/uri_template.go:98-161 | The loop over the template returns the specified parts or error |
| UriTemplate.SplitNames | shared/uri_template.go:174-188 | The loop returns the cleaned, nonempty names |
| UriTemplate.NewUriTemplate | shared/uri_template.go:63-80 | Over-long templates are refused, others parsed |
| UriParse.Chunks | shared/uri_template.go:98-161 | Every template is a row of texts without opening braces and of closed expressions, and then nothing or an expression that is not closed |
| UriParse.NewParses | shared/uri_template.go:63-161 | Such a template is refused when it is too long, else when it has too many closed expressions, else when the last one is not closed, and for no other reason; otherwise its parts are its texts and expressions in their order |
| UriParse.ParsesItems | shared/uri_template.go:163-188 | An expression's operator is its first character if that is one; its names are what stands between the commas, without blanks around, stars and empty ones; a star after any name makes all of it exploded |
| UriTemplate.ParserInvertsPrinting | shared/uri_template.go:98-188 | Printing normal parts and parsing the text gives them back, or the error of the limit that is exceeded; the limit on names never is |
| UriTemplate.ReparsesExactly | shared/uri_template.go:98-188 | Printed normal parts parse back if and only if no operator-less expression's first name starts with an operator character and both limits are kept |
| UriTemplate.ParsedIsNormal | shared/uri_template.go:98-188 | Whatever the parser returns is normal: trimmed names without `,`, `*`, `}`, literals not empty, not adjacent and without `{` |
| UriTemplate.BlankHidesOperator | shared/uri_template.go:163-188 | The template `{ +a}` parses to a part that prints as `{+a}` and does not parse back |
| UriExpand.UnescapeEscape | shared/uri_template.go:191-204 | Percent-decoding undoes the escaping of any bytes |
| UriExpand.QueryEscapeInjective | shared/uri_template.go:191-204 | Different strings escape differently |
| UriExpand.EncodeItems | shared/uri_template.go:294-301 | The loop escapes every string or returns the length error |
| UriMeaning.QueryMeans | shared/uri_template.go:210-249 | For any names and variables: a query expression fails exactly when a bound name has a string that is too long; else it is empty exactly when no name is bound, and otherwise its operator and the `name=escaped` texts of the bound names, in the order of the names, joined by `&` |
| UriMeaning.SeveralMean | shared/uri_template.go:251-281 | Several names outside a query never fail: the first strings of the bound names, not escaped, joined after the operator's lead |
| UriMeaning.OneMeans | shared/uri_template.go:283-318 | A single name is empty when unbound, fails when a string is too long, and else is its escaped strings joined after the operator's lead |
| UriMeaning.ExpandMeans | shared/uri_template.go:320-352 | For any template and variables: the expansion fails exactly when a string that has to be escaped is too long, and else is the texts of the parts in order, where a query expression starts with `&` when one with a bound name stands before it |
| UriExpand.JoinValues | shared/uri_template.go:265-280 | The switch gives each operator's prefix and separator |
| UriExpand.ExpandOne | shared/uri_template.go:206-318 | The method expands one expression as specified, for every operator and number of names |
| UriExpand.ExpandTemplate | shared/uri_template.go:320-352 | The loop over parts, with the query flag, computes the expansion or error that ExpandMeans describes |
| UriMatch.BuildPattern | shared/uri_template.go:365-392 | The loop builds the specified pattern text and group list |
| UriMatch.PartToRegExp | shared/uri_template.go:427-495 | The method returns the pattern and groups of one expression |
| UriMatch.PathGroup | shared/uri_template.go:462-484 | The switch gives each operator's group, as the same text that the compiled pieces are read from |
| UriMatch.CollectVariables | shared/uri_template.go:408-422 | The loop turns captures into values, lists where a star and a comma allow |
| UriMatch.MatchTemplate | shared/uri_template.go:359-425 | The method returns the specified failure, no match, or variables |
| UriMatch.MatchesPieces | shared/uri_template.go:359-425 | The generated pattern always compiles, to the pieces of the parts, so only the two length limits make matching fail |
| UriRead.MatchReads | shared/uri_template.go:359-495 | For every operator, any names and any stars: a URI that matches is, part by part, the template's text and, after the operator's lead or the query's `name=`, a nonempty text without the characters that its operator keeps out; each name is bound to the value of its last text, a list of what stands between the commas where a star allows one, and nothing else is bound |
| UriRead.MatchesIffReads | shared/uri_template.go:359-495 | A URI matches if and only if both length limits are kept and it can be read in that way; matching fails only on the limits |
| UriRoundTrip.RoundTrip | shared/uri_template.go:207-495 | For a path of literals, `{name}`, `{/name}`, `{.name}` and `{name*}`, each expression followed by the path's end or a slash, then `{?..}` and any number of `{&..}`, or instead a last `{+name}`, all bound to nonempty texts: matching the expansion returns exactly the escaped values, unless a length limit is exceeded |
| UriRoundTrip.ValuesComeBack | shared/uri_template.go:408-422 | In such a template every scalar comes back escaped, and a list of two or more strings under a star comes back as the list of its escaped strings, empty ones included |
| UriRoundTrip.ExpansionLosesNothing | shared/uri_template.go:207-352 | Two assignments with the same expansion have the same values |
| UriRoundTrip.RunBacksUp | shared/uri_template.go:465-482 | A greedy path capture that runs on into the query backs up to the only question mark |
| UriRoundTrip.Expands | shared/uri_template.go:320-352 | On fitting values the expansion is the concatenation of each part's own text |
| JsonRpc.StepKeepsInv | internal/jsonrpc.go:119-358 | Every step keeps the invariant: pending exactly while waiting, timer armed with it, channel contents as the outcome says, counters counting outcomes |
| JsonRpc.ExactlyOnce | internal/jsonrpc.go:119-358 | In every run each id has one outcome, its channel got nothing, was closed once, or got the one response with its own id and was then closed; pending ids are the unresolved ones; the counters count outcomes |
| JsonRpc.RunKeepsOutcome | internal/jsonrpc.go:119-358 | An outcome and the history of its channel never change again |
| JsonRpcRuns.FirstEventDecides | internal/jsonrpc.go:119-358 | In every run from where a request waits, its outcome is what the first step that concerns it says: the body of the first response whose id names it, its timer, its withdrawal or the shutdown; and its channel has seen exactly that |
| JsonRpcRuns.RegisteredWaits | internal/jsonrpc.go:119-160 | A request that is sent waits under a new id with an empty channel and an armed timer |
| JsonRpcRuns.LookupNames | internal/jsonrpc.go:298-312 | For any response id, the request selected is the pending one whose number it is, or whose number it reaches as a float without reaching the next |
| JsonRpcRuns.OutgoingIsAQueue | internal/jsonrpc.go:164-171 | In every run the outgoing channel holds what was put out and not yet taken, in order |
| JsonRpcRuns.SentAreCounted | internal/jsonrpc.go:164-171 | In every run the counter of sent requests counts those put out |
| JsonRpc.JsonIdFindsOwnRequest | internal/jsonrpc.go:298-312 | An integer id up to 2^53 finds exactly its own request after JSON has made it a float |
| JsonRpc.MisdirectedIffFractional | internal/jsonrpc.go:302-312 | A float id that finds a request finds another one than it equals exactly when it is fractional |
| JsonRpc.FractionalIdAnswersAnother | internal/jsonrpc.go:302-312 | The id 1.5 finds request 1 |
| JsonRpc.DeliversToOwners | internal/jsonrpc.go:290-330 | Each pending request that a response names gets that response, wherever it stands |
| JsonRpc.LeavesOthers | internal/jsonrpc.go:290-330 | Delivering responses changes no channel but those of the pending requests they name |
| JsonRpc.OrderDoesNotMatter | internal/jsonrpc.go:290-330 | Any two orders of the same responses with distinct ids end in the same state |
| JsonRpc.MessageHandler.FinishSend | internal/jsonrpc.go:164-171 | Puts the request out and counts it, or withdraws it when cancelled |
| JsonRpc.MessageHandler.FindPending | internal/jsonrpc.go:298-312 | The two lookups find the request that the id selects |
| JsonRpc.MessageHandler.CorrelateResponse | internal/jsonrpc.go:290-330 | Panics exactly on an id that is an array or an object; else the new state is the answer step's: removal, timer, send, count and close |
| JsonRpc.MessageHandler.StopPending | internal/jsonrpc.go:349-354 | The loop stops and closes each pending request once, and nothing else |
| JsonRpc.MessageHandler.Close | internal/jsonrpc.go:344-358 | The new state is that of the cancellation followed by the sweep |
| TimerRace.PanicsExactlyWhenLost | internal/jsonrpc.go:138-143 | As written, in every run and at every moment a channel has panicked if and only if no delivery is under way and its timer callback finished although a response or the shutdown had taken the request, or a delivery has just sent and its value did not go in |
| TimerRace.CrossingPanics | internal/jsonrpc.go:313-328 | A run of seven steps in which the callback and a response cross and the channel is closed twice |
| TimerRace.RepairedNeverPanics | internal/jsonrpc.go:138-143 | If the callback closes only when it removed the entry, no run panics |
| Progress.StepKeepsInv | internal/progress_handler.go:83-383 | Every step keeps the invariant on maps, tokens, timers and channels |
| ProgressNotices.DeadlineOfRun | internal/progress_handler.go:318-336 | In every run the timeout timer of a live request is due one timeout after the last re-arm that the run made for it, if it was sent with `resets`, and else one timeout after its start; and it is not overdue |
| ProgressNotices.NotificationProlongs | internal/progress_handler.go:246-326 | In every run, once a notification has looked up a live request by its token and, whatever came between, its re-arm has run, the timeout is due a full timeout later if the request was sent with `resets`, and else no timer has changed |
| ProgressNotices.NotificationsDoNotProlong | internal/progress_handler.go:318-336 | In every run a request sent without `resets` is gone once its timeout since its start is over, however many notifications arrive |
| ProgressNotices.NoticeFinds | internal/progress_handler.go:262-316 | A notification finds exactly the live request that its token was issued to, calls its callback once, and otherwise changes nothing |
| ProgressNotices.SentAsAsked | internal/progress_handler.go:83-156 | A request is stored with the options it was sent with, the default timeout if none was given, a token that no request ever had if there is a callback, and a second timer exactly if a total limit was given |
| ProgressNotices.WaysToEnd | internal/progress_handler.go:330-476 | A live request ends by its own timer, its own failed send or the close; it is then in no map and has no timer; its channel is closed and the end counted exactly in the first case |
| Progress.Deadlines | internal/progress_handler.go:143-148 | In every run a live request is no older than its total limit, when it has one, counted from its start; and no older than its timeout counted from the last instant at which its timer was armed |
| Progress.TimerRemovesWhenDue | internal/progress_handler.go:320-360 | A timer that removes a request fires exactly at the earlier of those two instants |
| Progress.MapsAgree | internal/progress_handler.go:150-156 | In every run the token map is exactly the inverse of the token field of the live requests, no two requests ever had the same token, and ids are disjoint from plain ones |
| Progress.IdsAreNotReused | internal/jsonrpc.go:23-25 | In every run the next id was never given out, to plain requests or others, what an id was issued for never changes, and later ids are larger than all before |
| Progress.OthersUntouched | internal/progress_handler.go:246-383 | Whatever a step does, however late, it leaves every other request's entry, token, timers and channel untouched |
| Progress.StaleTimerDoesNothing | internal/progress_handler.go:330-336 | A timer of a request that is gone only goes away |
| Progress.JsonTokenIsIgnored | internal/progress_handler.go:261-272 | A notification whose token is a float changes nothing |
| Progress.ChannelsOnlyClose | internal/progress_handler.go:330-360 | In every run a progress request's channel is untouched or was closed once, and does not change once the request is gone |
| Progress.ShutdownLeavesChannelOpen | internal/progress_handler.go:455-478 | A request that is live when the handler closes never has its channel closed |
| Progress.ProgressMessageHandler.SendRequestWithProgress | internal/progress_handler.go:83-156 | Refuses when cancelled, else the new state is the send step's: id, token, defaults, both timers, both maps |
| Progress.ProgressMessageHandler.LookUpNotification | internal/progress_handler.go:246-316 | Panics exactly on a token that is an array or an object; else finds the token's request and calls its callback |
| Progress.ProgressMessageHandler.RearmTimer | internal/progress_handler.go:318-326 | The timer of the request found before is due one timeout from now if the request was sent with `resets`, even if it is gone by now, and else no timer changes |
| Progress.ProgressMessageHandler.HandleRequestTimeout | internal/progress_handler.go:330-360 | The new state is the timeout step's: nothing for a missing request, else both maps, both timers, channel and count |
| Progress.ProgressMessageHandler.CloseProgressRequests | internal/progress_handler.go:455-476 | Clears both maps and stops exactly the timers of the requests they held |
| StdioRuns.RunDelivers | transport/stdio.go:168-333 | In every run, of each kind of message, what was delivered followed by what is in each channel and hand, in order, is what the scanner read of that kind, where the kind follows from method and id; what was written followed by what is on its way out is what was sent; every malformed line is counted or still on its way |
| StdioRuns.OutletsHoldTheirKind | internal/jsonrpc.go:250-274 | In every run the channels and the hand of the requests hold only messages with a method and an id, those of the notifications with a method and no id, those of the responses with an id and no method |
| Stdio.PipelineRefines | transport/stdio.go:168-333 | In every run no channel exceeds its capacity, and each outlet and what is not yet routed make up what was read for it |
| Stdio.StepKeepsInv | transport/stdio.go:168-333 | Every move of every loop keeps that |
| Stdio.NeverStuck | transport/stdio.go:168-333 | While anything is in the chain some move is possible |
| Stdio.StepDecreases | transport/stdio.go:168-333 | Every move decreases the measure |
| Stdio.DrainedIsDelivered | transport/stdio.go:168-333 | In an empty chain everything routed to an outlet was delivered, in order, and everything sent was written |
| Stdio.Drains | transport/stdio.go:168-333 | Without new input, and while the consumers consume, the chain stops within the measure's moves, and then it is empty |
| StdioRuns.RunDrains | transport/stdio.go:168-333 | Whatever was read and sent: when it has stopped, each kind of message has been delivered in the order read, every message sent is on the wire, every malformed line and every line read and written is counted |
| Stdio.StdioTransport.HandleIncomingMessage | internal/jsonrpc.go:243-275 | A malformed line is counted, a message of no kind dropped, another one routed |
| Stdio.StdioTransport.DispatchMessage | internal/jsonrpc.go:250-274 | A message with a method and an id goes to the request channel, one with a method only to the notification channel, one with an id only to the response channel, and to no other |
| InProcess.StepKeepsInv | transport/inprocess.go:110-152 | Every step keeps: each request put out is, in order, correlated, on its way back with its own id and what it was served, or on its way out |
| InProcess.NeverStuck | transport/inprocess.go:110-152 | While any message is in a channel or a hand, an internal step is possible |
| InProcess.StepDecreases | transport/inprocess.go:110-152 | Every internal step decreases the measure |
| InProcess.Drains | transport/inprocess.go:110-152 | Left to itself the loop stops within the measure's steps, empty, and then every request put out is answered with its own id and what it was served, or has timed out |
| InProcess.DrainedIsAnswered | internal/jsonrpc.go:290-330 | When nothing is in transit, every request put out has been answered as it was served, or has timed out |
| InProcess.ServedOnce | transport/inprocess.go:133-134 | How a request is served is decided once, by the server and the request as they are then |
| InProcessRuns.ServedByTheRules | transport/inprocess.go:262-536 | In every run a request that was served was served for the call registered under its id, with the names that had a handler by then: -32602 for parameters without the name, -32601 for an unknown name or method, -32603 for a failing handler, and else the handler's value or the description |
| InProcessRuns.AnsweredByTheRules | transport/inprocess.go:110-152 | In every run that has come to rest each request that was put out has timed out or was answered so, under its own id |
| InProcess.InProcessTransport.HandleRequest | transport/inprocess.go:262-536 | The switch over methods returns the specified result or error code |
| InProcess.InProcessTransport.CallHandler | transport/inprocess.go:304-364 | Parameters that are not an object, a missing name, an unknown name and a failing handler each give their own error |
| InProcess.InProcessTransport.BridgeOutgoingServe | transport/inprocess.go:128-146 | A request is answered under its id, a notification is not |
| ServerPool.Conservation | server/server.go:154-161 | In every run permits and busy goroutines make N, so returning a permit never blocks; each received request, and nothing else, is in exactly one place of arriving, refused, queued, held, running and answered; the numbers add up; and at most 2N + 1 accepted requests are unanswered |
| ServerPool.RepliesOnce | server/server.go:304-436 | In every run each request gets at most one reply, under its own id, and is not both refused and answered; a refusal says that the server is overloaded, an answer is the routed answer to the request's own method |
| ServerPool.RoutedOnce | server/server.go:395-435 | An answer is routed once, by the goroutine that gives it, with the handlers of that moment |
| ServerAnswers.AnsweredByTheRules | server/server.go:395-435 | In every run an answered request was answered under its own id, by the built-in code of its method, also when a custom handler has that name, else by the custom handler registered by then, -32603 when that fails, and -32601 when there is none |
| ServerAnswers.RefusedAsOverloaded | server/server.go:322-335 | In every run a refused request is told -32000 under its own id, and none of its code runs |
| ServerPool.DispatchInOrder | server/server.go:361-379 | Dispatch follows the order of arrival |
| ServerPool.RefusedIffFull | server/server.go:322-335 | A request is refused exactly when the queue holds N requests |
| ServerPool.NeverStuck | server/server.go:361-386 | While an accepted request is unanswered the pool can take a step |
| ServerPool.EveryAcceptedIsAnswered | server/server.go:361-436 | Left to itself the pool stops, and then every accepted request is answered and every permit is back |
| ServerPool.Server.constructor | server/server.go:126-161 | The loop fills the pool with N permits, 100 when no limit is given |
| ServerPool.Server.AdmitRequest | server/server.go:322-335 | The request is queued if there is room, else answered as overloaded |
| ServerPool.Server.Route | server/server.go:394-432 | The switch, the lookup of a custom handler and its error give the answer that RepliesOnce speaks about |
| ServerPool.Server.HandleRequest | server/server.go:382-436 | The request is answered once, under its id, before its permit goes back |
| ResourceHistory.ReturnsWhatWasYielded | server/registry.go:154-210 | In every run whatever a read returns is, text included, what a call of a handler registered at its URI yielded when it was read for that URI |
| ResourceHistory.ReturnsItsOwn | server/registry.go:165-209 | In every run a read that ends with content is a hit that returns the content it found and its age, or returns exactly what its own handler call yielded |
| ResourceHistory.HitIffFresh | server/registry.go:165-173 | In every run a reader has a hit if and only if something was stored into its entry less than the timeout before, and then it has what was last stored there |
| ResourceHistory.EntryOver | server/registry.go:194-243 | Over any run an entry's cache becomes what was last stored into it and its count grows by the accesses counted, and nothing else of it changes |
| ResourceHistory.LatestIsRegistered | server/registry.go:89-142 | In every run the handler of a URI is that of its last registration, or none if it was removed since |
| ResourceCache.Provenance | server/registry.go:154-182 | In every run permits and readers that hold one make the maximum, and a hit was younger than the timeout |
| ResourceCache.StoreIsCurrentIff | server/registry.go:194-205 | Storing keeps every cache's content that of its entry's handler if and only if the entry registered by then has the reader's handler |
| ResourceCache.UndisturbedIsCurrent | server/registry.go:89-210 | If no read spans a change of its URI's registration, cached content always came from the registered handler |
| ResourceCache.SpanningReadGoesStale | server/registry.go:183-205 | From any state, a read that spans a re-registration leaves the old handler's content in the new entry's cache, and the next read is given it |
| ResourceCache.ResourceRegistry.constructor | server/registry.go:63-87 | The loop fills the pool, with the default sizes when none are given |
| ResourceCache.ResourceRegistry.ReadCheckCache | server/registry.go:165-173 | A hit exactly when the reader's entry has content younger than its lifetime |
| ResourceCache.ResourceRegistry.ReadStore | server/registry.go:194-205 | The content goes into the entry registered now, if any |
| ResourceCache.ResourceRegistry.ReadCountAccess | server/registry.go:169-207 | The access is counted on the registered entry; a hit returns its content and age, and what was fetched is kept as it is |
| ToolStats.StatsSummarizeHistory | server/registry.go:347-453 | After any steps a tool has statistics exactly if it was registered; count, total and errors are those of the executions since then, the average is the total divided by the count, rounded down, and the tool's entry mirrors them, with the time of registration before the first |
| ToolStats.QuotientIsAverage | server/registry.go:438-438 | average times count is at most the total, and one more would exceed it |
| ToolStats.ToolRegistry.UpdateExecutionStats | server/registry.go:426-453 | The new state is the recording step's, and nothing changes for an unknown tool |

## Left out

- Sockets, HTTP, server-sent events, WebSocket, OAuth, process spawning and compatibility wrappers: I/O around libraries.
- JSON encoding and decoding: messages are decoded values, and every request and result is assumed to encode.
- Strings are sequences of Unicode characters; invalid UTF-8 is not modelled.
- Integer widths: ids, counters, durations and times are unbounded; request ids in `InProcess` and the delivery lemmas stop at 2^53, the last exact float64 integer.
- `regexp` in general: only the pattern shapes that the two engines build.
- Round trips of `#`, `;`, `?` and `&` in the server engine, of `#`, exploded `/` and `.` lists and repeated `{?..}` in the other one: expansion and matching are not inverse there.
- Expressions with several names outside queries in `shared/uri_template.go`: expanded as the code does, but without a round trip, since their values are not escaped.
- `IsTemplate` of `shared/uri_template.go`, and `ListTemplates`, `ListResources` and `CompleteParameter` of `server/resource_template.go`: single loops or single patterns.
- `addProgressToken`, the parsing of progress parameters, and orphaned notifications, which only serve tests.
- The delivery of responses to requests with progress: the code has only a stub (internal/progress_handler.go:386-393).
- `Progress` has no outgoing channel of its own: whether a request is put out or given up is a free choice there.
- `JsonRpc`: a timer that fires while a response is being delivered; that grain is `TimerRace`'s.
- Cancellation of the context in `Stdio`, `InProcess` and `ServerPool`; those models are about running transports and servers.
- Scanner line lengths, write errors and flush timing in `Stdio`.
- The values that tool, resource and prompt handlers return, and the order of listed items, are inputs of the steps.
- Handler panics in `ServerPool`, and negative limits, which fail when the server is made.
- Subscriptions and events of the resource registry, and the pools of the tool and prompt registries, which repeat the permit pattern.
- The lock order of `ToolRegistry`: registering and recording take its two locks in opposite orders, and `ToolStats` takes each as one step.
- `ResourceCache`: entries are numbered values rather than heap objects; a number stands for the reference to the entry that the code keeps, and an entry's cache record is part of the entry.
- InProcess.NeverStuck: says that a step is possible, not which goroutine the scheduler picks.
