# ZephyrLily, verified

A Dafny model of the parts of ZephyrLily that are hard to get right: the proxy's concurrent
message delivery and its command demultiplexer, the terminal client's text layout, its bounded
histories, and the indexes, coordinate maps and parsers around them. Code that changes objects in
place is modelled by classes and loops, each proved against a function on values or a state
machine; the promises are then proved of those, for every input and every run.

| file | models |
|---|---|
| `ClientQueue.dfy`, `Delivery.dfy`, `Progress.dfy`, `LastSeen.dfy`, `ProxyServer.dfy` | `internal/proxy/api/server.go`: one client's queue and writer; any number of publishers and attaching clients; that publishing and attaching come to an end; racing last-seen reports; the objects themselves |
| `FanOut.dfy` | the same file: `fanOut`, stale captures and the fetch that one HTTP handler may arm |
| `Slcp.dfy` | `internal/slcp/parser.go`, and the printer of `internal/lilytest/fakelily.go` |
| `TextWrap.dfy`, `HardWrap.dfy` | `internal/tui/ui/format.go` |
| `RateLimit.dfy` | `internal/proxy/api/ratelimit.go` |
| `Perf.dfy`, `Ghosts.dfy`, `Search.dfy` | `internal/tui/ui/perf.go`, `linkpreview.go`, `input.go` |
| `TeeBuf.dfy` | `internal/tui/teebuf/teebuf.go` |
| `Cron.dfy` | `internal/proxy/commands/cron.go` |
| `EntityIndex.dfy` | `internal/lily/state.go` |
| `Creds.dfy` | `internal/tui/creds/file.go` |
| `Text.dfy`, `Sets.dfy` | strings as the Go library treats them; picking from a set |

Concurrency is modelled as interleaved atomic steps: one step for each critical section or channel
operation of the source, taken by any goroutine at any time. Locks are held where the source holds
them, so `publish` is three steps (number, append to the ring, broadcast client by client) and
`enqueue` two (append, nudge). Clocks are arguments, and timers are steps. Strings are sequences of
characters, one for each byte, with ASCII white space and case folding.

## What the proofs show about the code

These are results about the code as it is.

* The ring is in append order, which need not be the order of ids (`RingNeedNotFollowIds`). Ids
  ascend in it, and go on doing so under serial publishing, exactly while messages for the ring have
  been published one at a time up to the append (`RingFollowsIdsIff`).
* A message can reach an attaching client twice (`TwiceHappens`): exactly when it was in the ring at
  the snapshot and its broadcast began after the client subscribed. What is appended after the
  snapshot comes exactly once (`AttachDelivers`).
* A client that attaches while the ring is full has exactly the backlog bound queued before its
  writer starts; one more message disconnects it (`UnstartedBacklog`). Ring and bound are 5000 both,
  so a replay to which nothing is added never disconnects (`RingFitsBacklog`, `AttachOverflowsIff`).
* `enqueue` nudges nobody when it closes a client for overflow. The writer stops all the same
  (`ClosedWriterStops`), and the writer of an open client stops only for a failed write or a lost
  connection (`WriterStopsIff`).
* A `%begin` that reuses an id still open drops what was collected (`ReusedIdLosesLines`; lines
  are conserved except for exactly those, `LinesConserved` with `LostIsByBracket`).
* A pending fetch can be answered by another command than the one it pinned: by one numbered 0
  (`ZeroIdAnswersAnyFetch`), or by one that reuses the pinned id (`PinnedIdAnswersTheFetch`). Only a
  `%begin` of one of these two kinds can lead there, and each of them can (`CarefulIffStaysAnswered`,
  and `CarefulRunIff` over runs).
* `KEY=VALUE` is read back exactly when the value has no blank and does not start like a length
  (`PlainRoundTrip`, and inside a line `PlainNextIff`): `3=abc` is taken for three bytes. The
  length-prefixed form carries anything. A NOTIFY line is read field by field as it was meant exactly
  when its plain fields are such (`NotifyReadIff`).
* Pruning the rate limiter's table can change an answer exactly when the lockout is shorter than the
  window and more than one failure is allowed (`PruningTransparentIff`); with the defaults, and for
  clients that wait for each answer, it never does.
* The same condition decides whether one client's calls can affect another's answers
  (`KeysApartIff`).
* The rate limiter keeps to its bound of maxFailures in all runs in which a client has at most m
  attempts under way exactly when m is 1. The least bound is maxFailures + m - 1, and it is met
  (`CapsIff`, `WideBoundIsMet`); with no limit on m there is none (`UnsettledAttemptsBreakTheBound`).
* Cancelling a scheduled command silences it exactly when every run committed by then has been
  announced and sent in full (`CancelSilencesIff`); a run committed just before the cancel goes on
  (`CommittedRunOutlivesCancel`), and no other starts (`CancelledNeverDispatches`).
* The name index stays right exactly as long as each update gives a name that is the object's own or
  new and free (`AgreesIff`). A group record gives a group of its name exactly when no user or
  discussion goes by it (`GroupGivenIff`); otherwise its members go to that one
  (`GroupTakenForAnother`).
* `saveFile` is documented to leave every other line alone. It does exactly when the file is a run of
  comments, then account lines as the program writes them -- the account's own aside -- and the last
  newline (`SaveKeepsOthersIff`); otherwise a comment or another odd line is dropped
  (`OddLinesDropped`), a line is trimmed, or the default header is put on top. A new account whose
  name has white space around it, or whose line starts like a comment, is saved but not found
  (`NewAccountIff`).
* The branch of `wrapTextCore` for a word continued on a line with no room left cannot be reached:
  only a hard break continues a word, and the line after it is empty and has room (asserted in
  `WrapWord`).
* An idle perf window is documented to be closed at its due time. The code closes it when the next
  sample comes, so it ends at its due time exactly when that sample comes just then
  (`ClosesOnTimeIff`).

## Model

| member | source | states |
|---|---|---|
| ClientQueue.StepKeepsInv | internal/proxy/api/server.go:241-277 | every step of an enqueuer, of `shutdown` and of the writer keeps conservation and the absence of a lost wakeup |
| ClientQueue.RunSafe | internal/proxy/api/server.go:241-277 | in every interleaving: sent, then in hand, then queued is the accepted sequence while open and a prefix of it once closed; a parked writer beside work has a token or an enqueuer about to nudge |
| ClientQueue.QuietMeansDelivered | internal/proxy/api/server.go:1122-1162 | an open client whose writer is parked, with no token and no enqueuer under way, has been sent exactly what it accepted |
| ClientQueue.ClosedWriterStops | internal/proxy/api/server.go:256-277 | a closed client's writer is never stuck and every step of it brings the stop nearer, also after an overflow, which nudges nobody |
| ClientQueue.WriterStopsIff | internal/proxy/api/server.go:1122-1162 | a step stops the writer if and only if it is a failed write, the end of the connection, or an empty batch taken on a closed client |
| ClientQueue.OpenWriterStopsOnFailure | internal/proxy/api/server.go:1122-1162 | in every run, the writer of a client that is open stops only by a failed write or the end of its connection |
| ClientQueue.OpenWriterGoesOn | internal/proxy/api/server.go:1133-1162 | while an open client is owed a message and its writer has not stopped, a writer step or the nudge it waits for can be taken, keeps it so, and brings it nearer to having sent everything |
| ClientQueue.AllIsSent | internal/proxy/api/server.go:1122-1162 | from every such state a run of such steps sends all that was accepted, in order, with the client still open |
| ClientQueue.ShutDownIsFinal | internal/proxy/api/server.go:268-277 | a client that was shut down is closed with an empty queue and stays so; it accepts nothing more |
| ClientQueue.UnstartedBacklog | internal/proxy/api/server.go:655-660 | before its writer starts a client holds all it accepted, so one message past 5000 disconnects it, and no other does |
| Delivery.RingIsTailOfHistory | internal/proxy/api/server.go:280-309 | over any interleaving of publishers ids are distinct and the ring is exactly the last 5000 messages in append order |
| Delivery.RingNeedNotFollowIds | internal/proxy/api/server.go:296-309 | a run of two publishers whose ring is not in id order |
| Delivery.StaysAscendingIff | internal/proxy/api/server.go:280-309 | ids ascend in the ring however publishers go on one at a time, if and only if they ascend now, at most one message for the ring is numbered and still to be appended, and its id is above those in the ring |
| Delivery.RingFollowsIdsIff | internal/proxy/api/server.go:280-309 | over whole runs, the ring is safe to ascend in every state if and only if messages for the ring are published one at a time up to the append |
| Delivery.AttachDelivers | internal/proxy/api/server.go:640-657 | a client that was replayed the ring and is open has accepted each message of the snapshot once, and a second time exactly if its broadcast began after the client subscribed and has come round to it; each message appended later it has accepted exactly once, or not yet while its broadcast is under way |
| Delivery.AttachReachesSocket | internal/proxy/api/server.go:640-661 | once its queue is drained, its writer parked and no broadcast under way, exactly that was sent on the socket: two copies of a snapshot message broadcast after the client subscribed, one of every other |
| Delivery.LiveIsHeard | internal/proxy/api/server.go:312-318 | a client is sent live only broadcasts that took the lock while it was subscribed, and while it is open each of those, or the broadcast is still coming round to it |
| Delivery.UnreplayedExactlyOnce | internal/proxy/api/server.go:312-318 | a client that was not replayed anything accepts each message appended since it subscribed exactly once |
| Delivery.TwiceHappens | internal/proxy/api/server.go:640-657 | a run in which a message arrives both live and replayed |
| Delivery.AttachOverflowsIff | internal/proxy/api/server.go:640-661 | a client whose replay of the ring has ended, before its writer starts, was disconnected if and only if ring, broadcasts and direct messages come to more than 5000; otherwise all it accepted is queued, and that is just the ring, in order, if nothing came meanwhile |
| Delivery.ReplayedIffUnseen | internal/proxy/api/server.go:645-657 | a client is replayed a snapshot if and only if nothing had been reported seen when it looked |
| Delivery.GoneAcceptsNothing | internal/proxy/api/server.go:662-668 | a client that has left accepts nothing any more |
| Delivery.PublishedIsKept | internal/proxy/api/server.go:284-309 | a message of one of the six kinds that make history is, from its numbering on, with its publisher or in the history |
| Delivery.OnlyKeptKinds | internal/proxy/api/server.go:284-292 | the history holds no other kind |
| Delivery.SnapshotKept | internal/proxy/api/server.go:649-657 | from the snapshot on a client's replay is of that snapshot and the history only grows |
| Delivery.CoveredDelivers | internal/proxy/api/server.go:649-657 | the exact number of copies accepted of every message from the base of the snapshot on: two or one if the snapshot has it, one or none if it came later |
| Delivery.RunKeepsInv | internal/proxy/api/server.go:296-318 | the joint invariant of ring, publishers, lock and clients holds after every step of every run |
| Delivery.StepKeepsRing | internal/proxy/api/server.go:296-309 | ids count up and the ring is the capped tail of what was appended, whoever steps |
| Delivery.StepKeepsReplay | internal/proxy/api/server.go:649-657 | the replay walks the snapshot in order and an open client has accepted all that was walked |
| Delivery.StepKeepsComplete | internal/proxy/api/server.go:312-318 | no message appended since a client subscribed passes it by |
| Delivery.StepKeepsLiveOnce | internal/proxy/api/server.go:312-318 | a broadcast reaches a client at most once, and only while it is under way |
| Progress.CastEnds | internal/proxy/api/server.go:312-318 | whoever holds the lock of the subscribers can offer its message to each one left and let go; every open one then has it, and nothing else has changed |
| Progress.PublishEnds | internal/proxy/api/server.go:296-318 | a message under way can be broadcast: every open subscriber accepts it live, and it is in the history if its kind is kept |
| Progress.PublisherFinishes | internal/proxy/api/server.go:296-318 | in every run, whoever holds the lock and whatever else is under way, any publisher can finish |
| Progress.AttachEnds | internal/proxy/api/server.go:640-661 | in every run a client that attaches can come to its writer, subscribed, connected, with the whole ring queued if nothing was reported seen and nothing otherwise |
| ProxyServer.WsClient.Enqueue | internal/proxy/api/server.go:241-264 | the object's whole new state is that of the two steps of an enqueue |
| ProxyServer.WsClient.ShutDown | internal/proxy/api/server.go:268-277 | the object's whole new state is that of closing and nudging |
| ProxyServer.WsClient.WritePass | internal/proxy/api/server.go:1122-1162 | one pass takes the queue, writes it in order and parks, goes round or exits as the state machine says; it exits if and only if the writer is stopped, and then only for a closed client or a failed write |
| ProxyServer.WrittenIsSteps | internal/proxy/api/server.go:1133-1140 | writing n messages of a batch is n writer steps |
| ProxyServer.Session.Broadcast | internal/proxy/api/server.go:312-318 | every subscriber is offered the message once, whatever the map order, and no other client changes |
| ProxyServer.Session.Publish | internal/proxy/api/server.go:296-309 | numbers the message, keeps it in the ring if its kind is kept, and offers it to every subscriber |
| ProxyServer.Session.Attach | internal/proxy/api/server.go:640-657 | subscribes the client and replays it the whole ring if nothing was ever reported seen |
| ProxyServer.Session.Detach | internal/proxy/api/server.go:662-668 | unsubscribes the client and shuts it down |
| ProxyServer.Session.AdvanceLastSeen | internal/proxy/api/server.go:998-1010 | undisturbed, a report raises the mark to its id or leaves it |
| LastSeen.ReturnTakesEffect | internal/proxy/api/server.go:998-1010 | among racing reports, each takes effect in the one step it returns in, as if alone, and no other step moves the mark |
| LastSeen.MarkIsLargest | internal/proxy/api/server.go:998-1010 | in every interleaving the mark is at least every report that has returned, and is 0 or one of them |
| LastSeen.MarkNeverFalls | internal/proxy/api/server.go:990-998 | in every interleaving the mark never falls |
| LastSeen.RetriesArePaid | internal/proxy/api/server.go:999-1008 | a report has gone round again at most once for each report whose swap succeeded, and those are different ones and have returned |
| ProxyServer.ReplayDelivers | internal/proxy/api/server.go:649-657 | replaying a snapshot of up to 5000 messages to a fresh client queues all of it in order; a longer one disconnects it at message 5001 |
| ProxyServer.RingFitsBacklog | internal/proxy/api/server.go:649-661 | replaying any ring to a fresh client leaves it open, with the whole ring queued in order and its writer woken |
| FanOut.ResultIsOwnOutput | internal/proxy/api/server.go:708-791 | in every run, a command's result is exactly the lines that belong to it, in order, and there is one result for a command |
| FanOut.OwnerIsByBracket | internal/proxy/api/server.go:763-791 | a line belongs to a command exactly when it came inside that command's bracket, tagged with its id or, carrying no tag, while no other bracket was open; what a tag is, is said of the characters of the line |
| FanOut.RawIsRouted | internal/proxy/api/server.go:763-798 | what one raw line adds: tagged with an open id, its rest to that capture; tagged otherwise, its rest to the published text; with no tag, the whole line to the only open capture, or to the text |
| FanOut.ContentIs | internal/proxy/api/server.go:763-798 | what is kept of a line is what follows its tag, or all of it |
| FanOut.OpenIffBracket | internal/proxy/api/server.go:708-761 | the table of captures is exactly the brackets begun, not ended, not replaced and never found stale |
| FanOut.LinesConserved | internal/proxy/api/server.go:677-813 | each raw line is at its place in published text if nobody owns it; else it is in the capture, in the capture on its way, or in the result of its command, in one of them only, and in none exactly if a reuse of its open id replaced the command |
| FanOut.LostIsByBracket | internal/proxy/api/server.go:711-715 | the commands whose lines are lost are exactly those replaced by a later `%begin` that reused their id while their bracket was open |
| FanOut.LineHasItsPlace | internal/proxy/api/server.go:763-791 | a line stands in the output it belongs to right after those that came before it |
| FanOut.FetchGetsItsCommand | internal/proxy/api/server.go:1435-1482 | in every run an armed fetch gets at most one result, the complete output of one command; with ids used carefully it is the very command it pinned, whose label matches |
| FanOut.FetchIsAnswered | internal/proxy/api/server.go:717-761 | from an idle state with a fetch pending and unpinned: once a command begins whose name matches what was sent, and its `%end` comes in time, the fetch has the result of that very command, whatever came between that did not reuse or end the id and unless the fetch was given up |
| FanOut.LabelMatchesIff | internal/proxy/api/server.go:1435-1442 | a name matches what was sent if and only if they are equal, or the text of what was sent up to its first blank is not empty and is, bar case, that of the name |
| FanOut.CarefulIffStaysAnswered | internal/proxy/api/server.go:711-749 | from any idle state with fetches in order, a message keeps every later fetch with its own command, under careful use of ids, if and only if it does not begin a command numbered 0 or by the id a pending fetch has pinned |
| FanOut.CarefulRunIff | internal/proxy/api/server.go:677-813 | over whole runs: every fetch stays with its own command at each point if and only if ids are used carefully throughout |
| FanOut.PinnedIdAnswersTheFetch | internal/proxy/api/server.go:711-761 | after a command begins by the id a pending fetch has pinned, the fetch can be answered by it in place of the pinned one |
| FanOut.ReusedIdLosesLines | internal/proxy/api/server.go:711-715 | a run in which a reused open id loses lines |
| FanOut.ZeroIdAnswersAnyFetch | internal/proxy/api/server.go:737-748 | after a command numbered 0 begins, in any idle state, a fetch can be answered by a command that is not its own, though all later ids are used carefully |
| FanOut.RunKeepsInv | internal/proxy/api/server.go:677-813 | captures, results, text and the fates of all commands agree with the brackets after every step of every run |
| FanOut.BracketArrives | internal/slcp/parser.go:94-111 | the id and the trimmed name of a whole `%begin` line, and the id of a whole `%end` line, come out of `Parse` and reach the demultiplexer |
| FanOut.RawArrives | internal/slcp/parser.go:87-92 | an ordinary line, and a tagged one, reaches the demultiplexer unchanged |
| FanOut.Demux.FlushStaleCaptures | internal/proxy/api/server.go:836-852 | captures older than the limit become published results and the others stay, whatever the map order |
| FanOut.Demux.HandleRaw | internal/proxy/api/server.go:763-798 | a raw line goes to the capture its tag names, or to the only one open, or to text |
| FanOut.Demux.OnMessage | internal/proxy/api/server.go:677-813 | handling one message is the state machine's arrival with the fetch steps it leads to |
| FanOut.Demux.ArmFetch | internal/proxy/api/server.go:1447-1457 | one fetch may be pending; arming clears any pin |
| FanOut.Demux.GiveUpFetch | internal/proxy/api/server.go:1459-1481 | giving up leaves no fetch pending |
| Slcp.ParseParams | internal/slcp/parser.go:140-201 | the cursor loop computes the parameters the recursive reading gives, with the same errors |
| Slcp.ParamsRoundTrip | internal/slcp/parser.go:140-201 | parsing `KEY=LEN=DATA` lines gives back exactly the printed map, for any bytes in the values, and reading goes on right behind them |
| Slcp.RecordArrives | internal/slcp/parser.go:69-86 | the lines of the five kinds of records come out of `Parse` as their kind with exactly the printed parameters |
| Slcp.TruncatedIsError | internal/slcp/parser.go:158-190 | a length past the end of the string is an error; a stray '=' ends the reading |
| Slcp.PlainRoundTrip | internal/slcp/parser.go:165-200 | `KEY=VALUE` comes back if and only if the value has no blank and is not shaped like a length |
| Slcp.PlainNextIff | internal/slcp/parser.go:165-200 | inside a line, before a blank, the cursor hands on the printed value if and only if it has no blank and is not shaped like a length |
| Slcp.NotifyLine | internal/lilytest/fakelily.go:74-82 | the builder's line is the type token and the printed fields |
| Slcp.NotifyRoundTrip | internal/slcp/parser.go:204-240 | event, source, recipients and any value come back from `Parse` and `ParseNotify` of a printed line whose first three are plain |
| Slcp.NotifyReadIff | internal/slcp/parser.go:140-201 | a printed NOTIFY line is read field by field as it was meant if and only if its event, source and recipients are such as the plain form can carry |
| Slcp.NotifyFlagIff | internal/slcp/parser.go:204-240 | an event asks to be announced if and only if its line says so or it is, however written, an emote, a public or a private message |
| Slcp.RecipsBackIff | internal/slcp/parser.go:204-240 | the list of recipients comes back from its field if and only if it is not one empty name and no name has a comma |
| Slcp.TaggedRoundTrip | internal/slcp/parser.go:118-132 | a tagged line gives back its id and exactly the rest |
| Slcp.SplitIff | internal/slcp/parser.go:118-132 | a line is split into an id and a rest if and only if it is `%command [`, a numeral for the id, `] ` and the rest |
| Slcp.UntaggedIff | internal/slcp/parser.go:118-132 | and left alone if and only if it is no such line |
| Slcp.BoundRoundTrip | internal/slcp/parser.go:94-111 | a bracket's id and name come back |
| Slcp.PrintedNext | internal/slcp/parser.go:165-190 | after a printed parameter the cursor stands right behind it, whatever its bytes |
| TextWrap.SplitWords | internal/tui/ui/format.go:133-158 | words and gaps spell the text, whitespace shown as spaces, but for the whitespace at its ends |
| TextWrap.ScannedIsText | internal/tui/ui/format.go:133-158 | the scan's words are free of whitespace and its gaps as wide as what they stand for |
| TextWrap.WrapTextCore | internal/tui/ui/format.go:32-131 | terminates when the prefix is narrower than the width; with links erased gives the plain layout, whatever the spans; what is linked, over all lines, is exactly the words' URLs, in order, or nothing without linkify |
| TextWrap.WrapWord | internal/tui/ui/format.go:74-127 | the inner loop lays out one word as the layout does, fragment by fragment, and links exactly the characters of its URL, with its target and id on every fragment |
| TextWrap.UrlsAt | internal/tui/ui/format.go:56-72 | each character of each word's URL has its own place among what is linked, under that URL's target and an id that counts the URLs before it |
| TextWrap.UrlsLength | internal/tui/ui/format.go:56-72 | and nothing else is linked |
| TextWrap.WrapIsFaithful | internal/tui/ui/format.go:32-131 | for any text: every line fits but for an over-wide first one, all words come in order with their exact gaps, only separators at breaks are lost, and every break is forced |
| TextWrap.LinesFit | internal/tui/ui/format.go:74-127 | every line is within the width unless it is the caller's own, unchanged |
| TextWrap.LayoutKeepsText | internal/tui/ui/format.go:74-127 | stripping the prefixes and restoring the lost separators gives back the text |
| TextWrap.BreaksAreForced | internal/tui/ui/format.go:74-127 | a line ends only where the next word does not fit, or inside a word that began the line and fills it |
| HardWrap.EscSeqLen | internal/tui/ui/format.go:255-287 | the scanner finds the whole escape sequence, control sequences as in section 5.4 of ECMA-48 |
| HardWrap.EscLenIff | internal/tui/ui/format.go:255-287 | the length found is that of the sequence, told from its characters: a control sequence to its first final byte, an operating system command to its first BEL or ESC `\`, two bytes otherwise, all there is if it is not ended |
| HardWrap.CharWrapLinkify | internal/tui/ui/format.go:181-248 | with links erased the result is the pieces of the line, whatever the spans; if they do not overlap, what is linked over all pieces is exactly what lies inside them, each under its whole URL and id |
| HardWrap.PiecesOfLine | internal/tui/ui/format.go:181-248 | the pieces concatenate to the line, all but the last show exactly the width and the last no more, and each is left alone when wrapped again |
| HardWrap.CutsBetweenTokens | internal/tui/ui/format.go:181-248 | no cut falls inside an escape sequence; each is just before a visible character |
| HardWrap.RenderSpans | internal/tui/ui/format.go:198-226 | linkifying a stretch changes nothing of what is shown, and links just what lies inside a span |
| HardWrap.LinkedAt | internal/tui/ui/format.go:198-226 | each character inside a span has its own place among what is linked, with the whole URL as its target |
| HardWrap.LinkedOnly | internal/tui/ui/format.go:198-226 | each linked character lies inside a span |
| HardWrap.PieceAlone | internal/tui/ui/format.go:232-247 | a piece has the visible width it was cut to and fits in one piece |
| RateLimit.FailuresBounded | internal/proxy/api/ratelimit.go:68-127 | the N failures recorded since a client's last success, each in turn, satisfy N <= maxFailures * (1 + span / min(window, lockout)), whatever other clients do |
| RateLimit.WideFailuresBounded | internal/proxy/api/ratelimit.go:68-127 | with at most m attempts of the client under way at a time, the same bound with maxFailures + m - 1 |
| RateLimit.CapsIff | internal/proxy/api/ratelimit.go:68-127 | over all runs of a client with at most m attempts under way, a number bounds its failures in this way if and only if it is at least maxFailures + m - 1; so maxFailures does if and only if m is 1 |
| RateLimit.WideBoundIsMet | internal/proxy/api/ratelimit.go:68-106 | for any client and any m, a run with at most m attempts under way records maxFailures + m - 1 failures at one time |
| RateLimit.UnsettledAttemptsBreakTheBound | internal/proxy/api/ratelimit.go:68-106 | for any client and any n above maxFailures: n attempts all admitted before the first failure, then n failures, which are more than the bound |
| RateLimit.PruningTransparentIff | internal/proxy/api/ratelimit.go:119-127 | pruning changes no answer in any run at all, if and only if the lockout is at least the window or one failure locks out |
| RateLimit.PruningHidesNothingInTurn | internal/proxy/api/ratelimit.go:119-127 | pruning changes no answer of a client that waits for each attempt to be settled, whatever the limits and whatever other clients do |
| RateLimit.KeysApartIff | internal/proxy/api/ratelimit.go:68-127 | a client's answers are those it would get alone, in all runs, if and only if the lockout is at least the window or one failure locks out |
| RateLimit.KeysApartInTurn | internal/proxy/api/ratelimit.go:68-127 | under any limits that holds of a client that waits for each attempt to be settled |
| RateLimit.UnsettledAttemptsAllAdmitted | internal/proxy/api/ratelimit.go:68-88 | any number of attempts are admitted while no failure is recorded |
| RateLimit.LateAnswer | internal/proxy/api/ratelimit.go:91-127 | the run that tells the pruning limiter from one that never prunes |
| RateLimit.RefusedOnlyIf | internal/proxy/api/ratelimit.go:68-127 | a client is refused only if its last maxFailures failures, since its last success, lie within one window, and only until a lockout after the last; the wait it is told is just what is left of that |
| RateLimit.LockedOutUntil | internal/proxy/api/ratelimit.go:68-127 | a client without a record that fails maxFailures times within a window is refused exactly until a lockout after the last failure, whatever other clients do |
| RateLimit.RunHasRounds | internal/proxy/api/ratelimit.go:91-106 | failures fall into rounds of at most maxFailures that start at least a window or a lockout apart |
| RateLimit.AuthLimiter.PruneLocked | internal/proxy/api/ratelimit.go:119-127 | drops exactly the records whose lockout is served or, without one, whose first failure is more than a window ago |
| RateLimit.AuthLimiter.Allow | internal/proxy/api/ratelimit.go:68-88 | the table is pruned and the answer and wait follow from the client's record |
| RateLimit.AuthLimiter.RecordFailure | internal/proxy/api/ratelimit.go:91-106 | the new table is the specification's, and no other client's record changes |
| RateLimit.AuthLimiter.RecordSuccess | internal/proxy/api/ratelimit.go:110-114 | the client's record goes and no other changes |
| Perf.PerfHist.Add | internal/tui/ui/perf.go:86-99 | the counters become those of one sample more |
| Perf.PerfHist.BucketOf | internal/tui/ui/perf.go:92-98 | the loop finds the first bucket whose edge the sample does not pass |
| Perf.PerfHist.Merge | internal/tui/ui/perf.go:101-110 | the counters become the merged ones and the other histogram is untouched |
| Perf.PerfHist.QuantileOf | internal/tui/ui/perf.go:115-131 | the loop finds the specification's quantile |
| Perf.MergeIsConcatenation | internal/tui/ui/perf.go:101-110 | merging gives the histogram of all the samples together |
| Perf.HistIs | internal/tui/ui/perf.go:86-99 | the histogram of some samples has their number, their sum and the largest of them |
| Perf.LimitsAre | internal/tui/ui/perf.go:52-66 | and up to each of the thirteen limits its buckets hold exactly the samples at most that limit |
| Perf.QuantileIsTight | internal/tui/ui/perf.go:112-131 | more than floor(n*q) samples are at most the result and no more than that many are at most the edge before it |
| Perf.QuantileBoundsRankedSample | internal/tui/ui/perf.go:112-131 | the result is at least the sample of that rank, and in its bucket |
| Perf.QuantileError | internal/tui/ui/perf.go:52-131 | the result is above the sample of that rank only within the first tenth of a millisecond or by a factor of at most 2.5; past one second it is the largest sample |
| Perf.TopQuantile | internal/tui/ui/perf.go:115-131 | asked for a rank past the last sample it is the largest sample, and 0 for no samples |
| Perf.SessionKeepsInv | internal/tui/ui/perf.go:253-303 | after any calls: the windows tile the session, each holds exactly its samples, at most 23 are closed, and each is at least base * 2^merges long |
| Perf.SessionIsCovered | internal/tui/ui/perf.go:253-303 | the windows merge back to the lifetime histograms, and any merge means twelve windows' worth of closed time |
| Perf.EveryRecordIsLogged | internal/tui/ui/perf.go:253-262 | every recorded sample is counted once, in the order of the calls |
| Perf.SamplesInTheirWindow | internal/tui/ui/perf.go:253-303 | if the clock never goes back, every window, through every compaction, holds just samples recorded between its start and its end |
| Perf.WindowsShowTheirGauge | internal/tui/ui/perf.go:268-339 | after any calls each window shows the last gauge taken by its end, and the open one the last of all |
| Perf.PairedKeeps | internal/tui/ui/perf.go:282-303 | pairwise compaction keeps the tiling, with windows twice as long, and every sample |
| Perf.RecordKeeps | internal/tui/ui/perf.go:253-262 | recording a sample keeps all of that |
| Perf.RolloverKeeps | internal/tui/ui/perf.go:268-278 | closing the open window, with or without compaction, keeps all of that |
| Perf.ClosesOnTimeIff | internal/tui/ui/perf.go:253-278 | a window whose time was up ends at its due time if and only if the next sample comes just then |
| Perf.PerfMetrics.Record | internal/tui/ui/perf.go:253-262 | the fields become those the specification gives |
| Perf.PerfMetrics.Rollover | internal/tui/ui/perf.go:268-278 | the same for the rollover |
| Perf.PerfMetrics.Compact | internal/tui/ui/perf.go:282-303 | the loop pairs the windows up and doubles the window length |
| Perf.PerfMetrics.TakeGauge | internal/tui/ui/perf.go:317-339 | the latest gauge is kept for the windows to come and put in the open one |
| TeeBuf.TailIsLastBytes | internal/tui/teebuf/teebuf.go:79-145 | over any writes of any sizes, `Tail` is exactly the last min(capacity, total) bytes of the stream |
| TeeBuf.PutHolds | internal/tui/teebuf/teebuf.go:96-111 | a write keeps the ring holding the stream's tail, longer than the ring, going round, or short of its end |
| TeeBuf.Writer.PutBytes | internal/tui/teebuf/teebuf.go:96-111 | the array, position and flag become what the write on values gives |
| TeeBuf.Writer.Record | internal/tui/teebuf/teebuf.go:79-111 | stream and write history grow by this write; kept records are the history's suffix, and with those dropped make up the number of writes |
| TeeBuf.Writer.Tail | internal/tui/teebuf/teebuf.go:135-145 | returns the last bytes of the stream |
| TeeBuf.Writer.Writes | internal/tui/teebuf/teebuf.go:128-132 | returns the last 8192 records and how many are missing |
| Ghosts.ToDisplay | internal/tui/ui/linkpreview.go:220-228 | the loop adds up the widths of the ghosts anchored before the offset |
| Ghosts.ToInput | internal/tui/ui/linkpreview.go:233-250 | the loop finds the inverse map, and its result is the largest offset drawn at or before the place: toDisplay(o) <= d if and only if o <= toInput(d) |
| Ghosts.AdjointMaps | internal/tui/ui/linkpreview.go:216-250 | toInput is the upper adjoint of toDisplay, at every place on the line |
| Ghosts.ThereAndBack | internal/tui/ui/linkpreview.go:216-250 | toInput(toDisplay(o)) == o |
| Ghosts.ErasingGivesInput | internal/tui/ui/linkpreview.go:187-207 | taking the ghost spans out of the drawn line gives the line |
| Ghosts.SpansShowGhosts | internal/tui/ui/linkpreview.go:187-207 | each span shows its own ghost's text |
| Ghosts.CharsInPlace | internal/tui/ui/linkpreview.go:187-228 | each character of the line is drawn just before where toDisplay puts the offset after it |
| Ghosts.InputLine.InputDisplay | internal/tui/ui/linkpreview.go:187-207 | the loop builds the drawn line and its spans |
| Ghosts.InputLine.Ghosts | internal/tui/ui/linkpreview.go:130-155 | ghosts come in order, with text, within the line: one for each URL whose summary has come back, that is not dismissed and whose text, bar the leading blank, occurs nowhere in the line |
| Ghosts.InputLine.AcceptPreviews | internal/tui/ui/linkpreview.go:476-513 | the line becomes the line drawn with the accepted ghosts, their keys are dismissed, placeholders are stepped over |
| Ghosts.Splice | internal/tui/ui/linkpreview.go:491-508 | the loop's text is the drawn line and its cursor is past what was accepted at or before it |
| Ghosts.CursorKeepsItsPlace | internal/tui/ui/linkpreview.go:491-508 | text before the new cursor is that before the old one with what was accepted there; text after it that after the old one with the ghosts anchored later |
| Ghosts.DisplaySplits | internal/tui/ui/linkpreview.go:187-207 | the drawn line splits at any offset into what is drawn of the two halves |
| Ghosts.AcceptedIsOffered | internal/tui/ui/linkpreview.go:174-178 | accepted text is in the line, so it is not offered again |
| Ghosts.OfferedIff | internal/tui/ui/linkpreview.go:174-178 | a text counts as offered if and only if, without a leading blank, it occurs somewhere in the line |
| Ghosts.InputLine.DismissAtCursor | internal/tui/ui/linkpreview.go:536-548 | dismisses a ghost anchored at the cursor if there is one, and nothing else |
| Search.Model.Enter | internal/tui/ui/input.go:881-896 | a search starts at the end of the current line backward, at its start forward, with no pattern and the line saved |
| Search.Model.WithResult | internal/tui/ui/input.go:919-928 | the search is then at the match and the input shows its line; nothing else changes |
| Search.FirstMatchAtLeast | internal/tui/ui/input.go:1033-1045 | the first occurrence from there on, and none before it |
| Search.LastMatchAtMost | internal/tui/ui/input.go:1049-1064 | the last occurrence up to there, and none after it |
| Search.SearchFind | internal/tui/ui/input.go:936-971 | exactly the lexicographic predecessor or successor among all hits in history and current line |
| Search.HitIff | internal/tui/ui/input.go:936-971 | a place is a hit if and only if the characters there are the pattern's, bar case |
| Search.SearchStep | internal/tui/ui/input.go:1021-1029 | moves to that hit, or changes nothing when there is none |
| Search.SearchRefresh | internal/tui/ui/input.go:975-992 | re-anchors at the nearest hit, the current place included; an empty pattern restores the saved line |
| Search.VisitsEveryHit | internal/tui/ui/input.go:936-1029 | no hit between the start and where repeated presses have come to was skipped |
| Search.StopsOnlyAtHits | internal/tui/ui/input.go:936-1029 | each press goes strictly further, to a hit, or changes nothing at all |
| Search.StuckMeansDone | internal/tui/ui/input.go:936-1029 | a press that changes nothing means every hit beyond the start was visited |
| Search.RepeatsStop | internal/tui/ui/input.go:936-1029 | repeated C-r, or C-s, gets there within as many presses as there are characters ahead of the start, in that direction |
| Search.ThereAndBack | internal/tui/ui/input.go:1021-1029 | C-s right after a C-r that moved, or the other way round, restores everything |
| Search.LongerPatternFewerHits | internal/tui/ui/input.go:975-992 | a hit of the longer pattern is one of the shorter |
| Search.MatchSpan | internal/tui/ui/input.go:1000-1017 | the highlighted stretch is, character by character, the pattern bar case |
| Search.HitsAreHighlighted | internal/tui/ui/input.go:1000-1017 | a place shown that is a hit is highlighted in full |
| Cron.RunKeepsInv | internal/proxy/commands/cron.go:174-285 | over every run: a live job has its one timer armed or pending, nothing else is armed, no job is lost, and no run comes early |
| Cron.CallbackKeeps | internal/proxy/commands/cron.go:197-212 | the locked part of a callback keeps all of that, also for a job cancelled meanwhile |
| Cron.ExactlyOneTimer | internal/proxy/commands/cron.go:174-212 | exactly one timer of a live job is still to come |
| Cron.RunsKeepTheirTurn | internal/proxy/commands/cron.go:197-212 | the k-th run is at least k intervals after scheduling, and a one-shot job runs at most once |
| Cron.AddTicks | internal/proxy/commands/cron.go:174-191 | a new job ticks and is due one interval later |
| Cron.RunComes | internal/proxy/commands/cron.go:197-219 | a ticking job runs as soon as it is due and is dispatched; a repeating one then ticks for one interval more, a one-shot one has left |
| Cron.RunsComeOnTime | internal/proxy/commands/cron.go:197-212 | undisturbed, the runs of a repeating job come when it is first due and then an interval apart, for any number of them |
| Cron.FiredIs | internal/proxy/commands/cron.go:213-219 | what a run sends is each line of its command that is not blank, trimmed, in order |
| Cron.ScriptIs | internal/proxy/commands/cron.go:211-219 | a run announces its interval and command and then sends its lines |
| Cron.StaleCallback | internal/proxy/commands/cron.go:199-203 | the callback of a job that is gone changes nothing but its own timer |
| Cron.GoneForGood | internal/proxy/commands/cron.go:197-246 | a job that has left the table never comes back and never runs again |
| Cron.FreshIds | internal/proxy/commands/cron.go:178-179 | a new job's id is one that no job has had |
| Cron.CancelledNeverCommits | internal/proxy/commands/cron.go:223-246 | no run of a job is committed after it is cancelled |
| Cron.StopAllStops | internal/proxy/commands/cron.go:278-285 | afterwards no timer is armed and no callback under way commits |
| Cron.CancelledNeverDispatches | internal/proxy/commands/cron.go:197-246 | no dispatch is added for an id after it is cancelled; what is still sent for it belongs to a dispatch already under way |
| Cron.StopAllEndsDispatches | internal/proxy/commands/cron.go:278-285 | after StopAll every dispatch added is of a job scheduled later |
| Cron.RunsAreDispatched | internal/proxy/commands/cron.go:197-219 | in every run the dispatches of an id are as many as its committed runs |
| Cron.CommittedRunOutlivesCancel | internal/proxy/commands/cron.go:211-219 | for any job: a run of it is committed, it is cancelled at once, and all of the run is still to be announced and sent |
| Cron.CancelSilencesIff | internal/proxy/commands/cron.go:211-246 | in any run: after a job is cancelled no continuation announces or sends anything for it, if and only if all of its committed runs were out in full by then |
| Cron.SilentIff | internal/proxy/commands/cron.go:197-246 | the same of a job that has left the table in any way, a one-shot job by its run among them |
| Cron.StopAllSilencesIff | internal/proxy/commands/cron.go:278-285 | the same of every job after StopAll |
| Cron.CancelAllRemoves | internal/proxy/commands/cron.go:223-246 | exactly the named jobs go |
| Cron.CronTable.AddJob | internal/proxy/commands/cron.go:174-191 | the new job, its timer and its id, and nothing else changed |
| Cron.CronTable.Run | internal/proxy/commands/cron.go:197-219 | rearms or removes the job under the lock, then announces it and sends each trimmed line of its command |
| Cron.CronTable.CancelJobs | internal/proxy/commands/cron.go:223-246 | cancels id by id, with a reply for each |
| Cron.RepliesTell | internal/proxy/commands/cron.go:223-246 | the k-th reply tells whether the k-th id was a job's that was still there, a number without a job, or no number |
| Cron.CronTable.Stop | internal/proxy/commands/cron.go:278-285 | cancels every job, in any map order |
| EntityIndex.AgreesIff | internal/lily/state.go:71-225 | an update keeps the name index equal to a scan of the live entities if and only if the name it gives is the object's own, or not empty and free |
| EntityIndex.AgreesThroughout | internal/lily/state.go:71-225 | over any sequence of updates the indexes agree after each if and only if each fits |
| EntityIndex.LookupIsScan | internal/lily/state.go:250-254 | a name is found exactly when it is not empty and a live entity's name differs from it at most in the case of letters, and then it is that one |
| EntityIndex.NamesUnique | internal/lily/state.go:250-254 | two live entities never have names that differ only in the case of letters |
| EntityIndex.UpsertKeeps | internal/lily/state.go:270-284 | the same if and only if, for a user or discussion record |
| EntityIndex.RenamedKeeps | internal/lily/state.go:169-175 | the same for a rename |
| EntityIndex.DestroyedKeeps | internal/lily/state.go:192-203 | destroying leaves no stale key and no other entity's key dropped |
| EntityIndex.GroupedKeeps | internal/lily/state.go:153-163 | the same for a group: it takes a name that is not empty |
| EntityIndex.GroupTakenForAnother | internal/lily/state.go:153-163 | a group under the name of a live object gives that object the members, whatever it is, and changes nothing else |
| EntityIndex.GroupGivenIff | internal/lily/state.go:153-163 | after a group record a live group of that name has those members if and only if no live user or discussion goes by the name |
| EntityIndex.UserRecorded | internal/lily/state.go:71-80 | a user record's fields are known under its handle from then on, what it does not carry and every other handle's record are as they were |
| EntityIndex.DiscRecorded | internal/lily/state.go:84-93 | the same of a discussion record |
| EntityIndex.GroupRecorded | internal/lily/state.go:153-163 | a group record changes no handle's record but the members of the object that goes by its name |
| EntityIndex.EventRecorded | internal/lily/state.go:166-225 | every event of the wire, on what is known under any handle and on the membership, whatever becomes of the names |
| EntityIndex.State.GetOrCreate | internal/lily/state.go:270-284 | the maps and the shared object change as the value model says |
| EntityIndex.State.ApplyUser | internal/lily/state.go:71-80 | the same for a user record, with all its fields |
| EntityIndex.State.ApplyDisc | internal/lily/state.go:84-93 | the same for a discussion record |
| EntityIndex.State.ApplyGroup | internal/lily/state.go:153-163 | the same for a group record |
| EntityIndex.State.ApplyNotify | internal/lily/state.go:166-225 | the same for each event that changes the state |
| EntityIndex.State.ApplyDestroy | internal/lily/state.go:192-203 | the same for a list of destroyed discussions |
| EntityIndex.State.LookupHandle | internal/lily/state.go:243-247 | the object of a handle, with its record, or none |
| EntityIndex.State.LookupName | internal/lily/state.go:250-254 | what the name index holds; on agreeing indexes, the live object whose name differs at most in the case of letters, or none when there is none, also for the empty name |
| Creds.RoundTripIff | internal/tui/creds/file.go:37-80 | entries and header come back from the file written from them if and only if every entry is representable |
| Creds.ReadRepresentable | internal/tui/creds/file.go:55-79 | whatever is in the file, what is read can be written back |
| Creds.RewritingIsStable | internal/tui/creds/file.go:150-170 | rewriting what was read changes nothing of what is read, but that a missing header becomes the default one |
| Creds.RewritingKeepsIff | internal/tui/creds/file.go:37-80 | rewriting what was read gives back the file, to the letter, if and only if it is a run of comments, account lines as they are written, and the last newline |
| Creds.SaveKeepsOthersIff | internal/tui/creds/file.go:95-128 | a save changes or adds the account's own line and leaves every other line alone if and only if the file is of that form, the account's own line aside |
| Creds.SaveThenRead | internal/tui/creds/file.go:102-128 | after a representable save the account, in whatever case it is asked for, has the new password, and every other account and the header are as before |
| Creds.NewAccountIff | internal/tui/creds/file.go:102-128 | a new account's password is found again if and only if its line is representable |
| Creds.KnownIsRepresentable | internal/tui/creds/file.go:115-121 | saving an account that is there is always representable, unless both its names are empty |
| Creds.SavedIs | internal/tui/creds/file.go:115-124 | saving changes the first matching entry's password, or adds an entry at the end |
| Creds.LookupIsFirst | internal/tui/creds/file.go:82-93 | the password found is that of the first entry whose names differ at most in the case of letters |
| Creds.MatchesIff | internal/tui/creds/file.go:29-29 | an entry is an account's if and only if both names agree bar the case of letters |
| Creds.FieldsIff | internal/tui/creds/file.go:66-72 | a line has the three fields of an account if and only if it has two tabs |
| Creds.ForgetThenRead | internal/tui/creds/file.go:130-148 | afterwards no account that differs from it only in the case of letters is left, and the rest keep their order |
| Creds.KeptInOrder | internal/tui/creds/file.go:137-144 | what is kept is exactly the entries of other accounts, at their places in order |
| Creds.SaveThenForget | internal/tui/creds/file.go:102-148 | what was saved and then forgotten is not found, whatever the names |
| Creds.OddLinesDropped | internal/tui/creds/file.go:56-72 | a line that is no account, anywhere in the file, is not read at all unless it is a comment before the first account |
| Creds.CredentialsFile.ReadFile | internal/tui/creds/file.go:37-80 | the loop reads entries and header; nothing from a file others can read |
| Creds.CredentialsFile.WriteEntries | internal/tui/creds/file.go:150-170 | the builder's text, in a private file |
| Creds.CredentialsFile.LookupFile | internal/tui/creds/file.go:82-93 | the first matching entry's password, or none |
| Creds.CredentialsFile.SaveFile | internal/tui/creds/file.go:102-128 | refuses tabs, newlines and exposed files and changes nothing then; else the saved content |
| Creds.CredentialsFile.ForgetFile | internal/tui/creds/file.go:130-148 | the content without the account, or the very same content when it is not there |
| Text.AtoiOfItoa | internal/slcp/parser.go:101-106 | a printed number is read back |
| Text.AtoiIff | internal/slcp/parser.go:101-106 | a text is read as a number if and only if it is decimal digits, after a sign or none, that come to it place by place |
| Text.LowerIsFolding | internal/lily/state.go:250-254 | two texts are equal when lowered if and only if they differ only in the case of letters |
| Text.TrimIs | internal/tui/creds/file.go:57-78 | trimming takes the white space off both ends and nothing else |
| Text.SpaceIff | internal/tui/creds/file.go:57-78 | which characters are white space |
| Text.SplitOfJoin | internal/tui/creds/file.go:55-56 | splitting undoes joining |

## Left out

- Sockets, HTTP handlers, TLS, JSON, WebSocket framing, pings and contexts: the writer's wakes and stops are steps that may happen at any time.
- Paging of `/events` and the reconnecting client's backfill: a client with a last-seen mark is replayed nothing here.
- ClientQueue.RunSafe: a failed socket write is a stop of the writer; what the peer received of the batch in hand is not modelled.
- Delivery.RunKeepsInv: an enqueuer's nudge may come after its goroutine's next step, which allows more interleavings than the code has.
- ProxyServer.Session.AdvanceLastSeen: the object's method is undisturbed and so never retries; the race of loads and swaps is in `LastSeen`.
- Slcp.NotifyRoundTrip: its conditions are exact for the fields as they are read (`NotifyReadIff`); that no other line leaves the same map of parameters by chance, later fields overriding earlier ones, is not shown.
- Timeouts and the pruning of "* " prefixes in `fetchLines`: a fetch is given up at any time, and its lines are those of the result.
- `%` commands, aliases, prompts, login and keepalive: `fanOut` publishes them without keeping state.
- Slcp.ParamsRoundTrip: `Atoi` is unbounded, where the machine's integers would wrap or fail.
- TextWrap.WrapTextCore and HardWrap.CharWrapLinkify: the URL pattern is any assignment of spans; terminal cells wider than one character are not modelled.
- Perf.PerfHist.QuantileOf: the quantile is a rational number, where the code multiplies floating point.
- Perf.PerfMetrics.Record: windows hold histogram values, as Go copies the structs; the category names, gauges beyond their number and the report are not modelled.
- TeeBuf.Writer.Record: the file below, and short writes to it; the prefix actually written is the argument.
- Ghosts.InputLine.Ghosts: finding URLs, and fetching and evicting summaries; the spans and the cache are given.
- Search.SearchFind: case folding is ASCII, where some Unicode letters change length when lowered.
- TextWrap.SplitWords: white space is ASCII, where the code also takes the other Unicode spaces.
- Search.SearchStep: the key bindings around it; syncing the text area and the viewport.
- Cron.CronTable.Run: parsing of intervals and the listing; quoting of the announced command.
- EntityIndex.State.ApplyNotify: `ApplyWhereResponse`, server metadata and the copies `AllEntities` makes.
- Creds.CredentialsFile.ReadFile: file modes are one flag, a missing file reads as empty, and I/O errors are not modelled; case folding is ASCII; the wording of the default header is shortened to two comment lines.
- The keyring, atomic renames, styles, phrase tables, help texts, the scroll view, the Python and web clients.
