# Verified models of heir

This project models the parts of heir (a Kubernetes control-plane and worker manager written in Go) whose
correctness rests on more than reading one function, and proves what they are for. `dafny verify
dfyconfig.toml` checks all of it.

| files | what they model |
|---|---|
| `strvals_*.dfy`, `decimal.dfy` | the `--set` parser of `pkg/strvals` and its literal sibling: parser, buffer-consuming classes, reference tree update with brace lists, typed values, round trip, agreement (also on empty values), bounds |
| `version*.dfy` | version parsing (with the exact language of semantic versions), printing and ordering |
| `broker.dfy`, `agent.dfy`, `agent_convergence.dfy` | the two ends of the plane tunnel: the broker's tables and 64-bit round robin, the agent's manager loop and serve goroutines, and that the agent gets its connections |
| `helmchart.dfy`, `helmchart_convergence.dfy`, `helmchart_lag.dfy`, `helmchart_deletion.dfy`, `helmchart_teardown.dfy` | the HelmChart controller: safety with a lagging cache, convergence on current objects and from lagging caches, deletion, and the RBAC objects of a teardown Job |
| `join_token.dfy` | the WorkerJoinToken controller and the bootstrap tokens it leaves behind |
| `helm_shell.dfy`, `helm_options.dfy` | the shell quoting of Helm Jobs, against a tokeniser for the POSIX shell, and their commands, against a reader of Helm's options |
| `pki.dfy`, `string_order.dfy` | SAN canonicalisation and leaf-certificate regeneration |
| `proxy.dfy` | the worker's proxy registry |

Code that changes state is a class or a method with loops, proved equal to a function on values; the theorems
are about these functions. Concurrent code is a machine whose steps are the critical sections, channel operations
and API calls; the theorems hold in every state of every run.

## What turned out not to hold

- Version comparison is not transitive, because a number and a word are compared as text (`VersionOrder.Cycle`) and
  because a generic version hides pre-releases (`VersionTransitive.BridgeBreaks`).
  `VersionTransitive.ParsedTransitiveExactly` says exactly when it is. Nor does it always follow section 11 of Semantic
  Versioning 2.0.0; `VersionOrder.FollowsPrecedenceExactly` says exactly when it does.
- The comment on version parsing promises that trailing whitespace is ignored; a line break after the numbers is
  refused, since the pattern's dot does not match it (`VersionSpace.TrailingSpaceExactly`).
- `Pick` can miss an open connection when its counter passes 2^64 (`Broker.PickFindsOpenExactly`), and is then not
  fair either (`Broker.AlwaysFairExactly`).
- A name with a comma can hash like two names, and a leaf is then not signed again (`Pki.CommaLeavesLeafStale`);
  `Pki.LeafUpToDate` says exactly when a leaf is up to date.
- Deleting a WorkerJoinToken can leave a live token, when a mint is under way or still follows from a stale cache
  (`JoinToken.DeletedMidMint`, `JoinToken.DeletedBeforeStaleMint`). `JoinToken.DeletionLeavesNoneExactly` says exactly
  when it does not.
- The RBAC objects of a chart are to stay while its teardown Job runs. They need not: when the install Job is being
  deleted or gone as the teardown Job is created, a later reconcile can take the release for never installed
  (`HelmChartTeardown.TeardownLosesRBAC`). `HelmChartTeardown.TeardownKeepsRBACExactly` says exactly when they stay.
- A downstream that is removed and linked again before its first Link has returned can run untracked, and twice
  (`Proxy.LinkTrackedExactly`, `Proxy.RelinkRunsTwice`).
- The string and the literal parser differ on some empty values, with an index on the way (`a[0].b=`) and without
  one (`a.=`). `StrvalsEmpty.EmptyValueExactly` says exactly on which.

## What is taken as given

- Text is a sequence of Unicode runes; integers are unbounded except where the 64-bit limits are written out.
- Hashes and checksums are injective; a signature is determined by CA, names and a serial number; token ids and
  connection ids are fresh.
- HelmChart: one worker, one life of one chart, install Jobs created and deleted by the controller only, one
  watch that shows both Jobs in the order of their changes, caches that lag but never go back.
- WorkerJoinToken: one worker, one life of one resource, a cache that never goes back; a conflict counts as a
  failure of the mint it hits. A status update, finalizer update or revocation that reports failure had no effect; only
  issuing may fail after it created a token. What reading the Secret returns is arbitrary, which covers tampering and lag.
- Proxy: downstreams are linked through the manager only.

## Model

| member | source | states |
|---|---|---|
| StrvalsUpdate.ParseRefines | pkg/strvals/parser.go:158-169 | for every destination tree and every printed list of assignments of single values and brace lists, in typed and in string mode, the parser fails exactly when folding the reference path update fails, and otherwise leaves exactly the folded tree |
| StrvalsUpdate.KeyRefines | pkg/strvals/parser.go:179-289 | `key` on a printed path with a single value or a brace list performs the reference update below a name: same tree, same failure, input consumed up to the next assignment |
| StrvalsUpdate.KeyRefinesAtName | pkg/strvals/parser.go:265-286 | the same for a dot after a name, where the nesting limit and the map check apply |
| StrvalsUpdate.KeyRefinesAtIndex | pkg/strvals/parser.go:195-211 | the same for a bracket after a name |
| StrvalsUpdate.ItemRefines | pkg/strvals/parser.go:335-435 | `listItem` on a printed path with a single value or a brace list performs the reference update at an index |
| StrvalsUpdate.ItemRefinesAtIndex | pkg/strvals/parser.go:393-412 | the same for a bracket after an index, where a nil element becomes a fresh list |
| StrvalsUpdate.GetPut | pkg/strvals/parser.go:291-322 | reading back the path that was stored yields the stored value |
| StrvalsUpdate.PutFrame | pkg/strvals/parser.go:299-322 | storing at one path leaves every path that parts from it unchanged, except that an index past the end may read nil where there was nothing |
| StrvalsUpdate.ScanEscaped | pkg/strvals/parser.go:503-521 | scanning an escaped text up to a stop rune gives back the text, whatever runes it holds |
| StrvalsUpdate.ScanEscapedToEnd | pkg/strvals/parser.go:503-521 | scanning an escaped text to the end of the input gives back the text |
| StrvalsUpdate.IndexText | pkg/strvals/parser.go:324-333 | a printed index is read back when it fits in 64 bits and refused otherwise |
| StrvalsUpdate.ValueText | pkg/strvals/parser.go:459-502 | an escaped non-empty value is read back as one value, never as a brace list |
| StrvalsUpdate.ElementsRead | pkg/strvals/parser.go:465-501 | a printed brace list is read as its elements, typed one by one, in order and after those read before, and the comma after the closing brace is taken with it |
| StrvalsUpdate.EqualsReads | pkg/strvals/parser.go:243-260 | after `=`, both `key` and `listItem` store exactly the printed value, the list of a brace list included, and leave the next assignment |
| StrvalsUpdate.NoValueFails | pkg/strvals/parser.go:188-194 | a name without `=` fails and leaves the tree alone |
| StrvalsUpdate.CommaFails | pkg/strvals/parser.go:261-264 | a name before a comma fails, and has been set to the empty string |
| StrvalsUpdate.OpenBraceFails | pkg/strvals/parser.go:465-501 | a brace list that is never closed fails and leaves the tree alone |
| StrvalsUpdate.OpenBraceItemFails | pkg/strvals/parser.go:335-435 | after an index it fails too, and leaves the list as it was |
| StrvalsUpdate.NoItemValue | pkg/strvals/parser.go:335-345 | an index without `=` succeeds and stores the list as it was |
| StrvalsUpdate.ScanToBackslash | pkg/strvals/parser.go:503-521 | a backslash at the very end of the input is dropped |
| StrvalsTyped.PlainTyped | pkg/strvals/parser.go:528-559 | in typed mode null, truth values and every 64-bit number are read back from their plain text |
| StrvalsTyped.TrueTyped | pkg/strvals/parser.go:528-559 | true in any mixture of cases is the truth value |
| StrvalsTyped.FalseTyped | pkg/strvals/parser.go:528-559 | so is false |
| StrvalsTyped.NullTyped | pkg/strvals/parser.go:528-559 | null in any mixture of cases is nil |
| StrvalsTyped.LeadingZeroIsText | pkg/strvals/parser.go:528-559 | a longer text that starts with a zero stays text |
| StrvalsTyped.TextStaysExactly | pkg/strvals/parser.go:528-559 | a text stays text in typed mode if and only if it is none of the words, not zero, and not a 64-bit number without a leading zero |
| StrvalsRoundTrip.RoundTrip | pkg/strvals/parser.go:101-109 | every map tree of non-empty strings, with non-empty keys, non-empty maps and at most 30 dots a path, printed leaf by leaf in any order and with any repetitions, parses back to itself |
| StrvalsRoundTrip.AllLeavesMakeTree | pkg/strvals/parser.go:158-169 | a tree that lies within another and has all its leaves is that tree |
| StrvalsRoundTrip.FoldLeaves | pkg/strvals/parser.go:158-169 | assigning leaves of a tree in any order never fails and never leaves the tree |
| StrvalsRoundTrip.LeafOrder | pkg/strvals/parser.go:158-169 | such an order of the leaves exists for every tree |
| StrvalsAgree.ParsersAgree | pkg/strvals/literal_parser.go:65-159 | for every path text without backslash, comma and `=`, every non-empty value and every destination, the literal parser and the string parser on the escaped value have the same outcome and leave the same tree |
| StrvalsAgree.KeyAgree | pkg/strvals/literal_parser.go:92-159 | the two `key` functions simulate each other on such texts |
| StrvalsAgree.ItemAgree | pkg/strvals/literal_parser.go:173-238 | the two `listItem` functions simulate each other on such texts |
| StrvalsAgree.SameScan | pkg/strvals/literal_parser.go:78-90 | the escaping and the literal scan stop at the same place with the same text |
| StrvalsAgree.SameKeyIndex | pkg/strvals/literal_parser.go:161-171 | both parsers read the same index, or neither does |
| StrvalsEmpty.EmptyValueExactly | pkg/strvals/literal_parser.go:92-159 | with an empty value, after every path text without backslash, comma and `=` and into every destination, the two parsers agree if and only if a walk along the path says so: the path is refused on the way or ends in an index, or it ends in a name, every index on the way lies within its list and the limit, and no map on the way stays empty (what would have to be stored anew under an empty key is dropped by both and counts for nothing) |
| StrvalsEmpty.KeyMeets | pkg/strvals/parser.go:179-289 | the walk foretells how the two `key` functions end: alike, alike but for the report of the end of the input, with different data, or with success of one only |
| StrvalsEmpty.ItemMeets | pkg/strvals/parser.go:335-435 | the walk foretells the same of the two `listItem` functions |
| StrvalsEmpty.NamesAgreeOnEmpty | pkg/strvals/parser.go:265-286 | below non-empty names joined by dots, an empty value is never a difference |
| StrvalsEmpty.EmptyValueDiffers | pkg/strvals/parser.go:427-430 | the two ways to differ, on whole lines: for `a[0].b=` the string parser drops the element that the literal parser stores, and for `a.=` only the string parser succeeds |
| StrvalsBounds.ParseBounded | pkg/strvals/parser.go:158-169 | no list in the result is longer than the longest of: a list of the destination, 65537 elements, the input |
| StrvalsBounds.KeyBounded | pkg/strvals/parser.go:179-289 | `key` keeps that bound, also when it fails |
| StrvalsBounds.ItemBounded | pkg/strvals/parser.go:335-435 | `listItem` keeps that bound, also when it fails |
| StrvalsBounds.ItemTouches | pkg/strvals/parser.go:299-322 | `listItem` changes at most its own element; a list grows only to end at an index of at most 65536 and the gap holds nils |
| StrvalsBounds.KeyTouches | pkg/strvals/parser.go:179-289 | `key` changes at most the entry under the name it reads |
| StrvalsParser.RunesUntil | pkg/strvals/parser.go:503-521 | a scan stops at one of the stop runes, having consumed it, or consumes everything |
| StrvalsParser.KeyIndex | pkg/strvals/parser.go:324-333 | an index that is read consumes input |
| StrvalsParser.ElementsFrom | pkg/strvals/parser.go:465-501 | a brace list consumes input and has no more elements than runes; the end of the input inside it is an error (which elements: `StrvalsUpdate.ElementsRead`) |
| StrvalsParser.ValList | pkg/strvals/parser.go:465-501 | the same from the opening brace; without a brace nothing is consumed (which elements: `StrvalsUpdate.EqualsReads`) |
| StrvalsParser.Key | pkg/strvals/parser.go:179-289 | a `key` that succeeds consumed input, so `parse` terminates, and no panic escapes it |
| StrvalsParser.ListItem | pkg/strvals/parser.go:335-435 | a `listItem` that succeeds consumed input; one that fails leaves the length of the list |
| StrvalsMachine.Parser.constructor | pkg/strvals/parser.go:143-148 | a parser starts with its line unread |
| StrvalsMachine.Parser.RunesUntil | pkg/strvals/parser.go:503-521 | the reading loop consumes and returns what the scan function says |
| StrvalsMachine.Parser.KeyIndex | pkg/strvals/parser.go:324-333 | the buffer after the index and the index are those of the function |
| StrvalsMachine.Parser.ValList | pkg/strvals/parser.go:465-501 | the element loop returns the elements of the function that `StrvalsUpdate.ElementsRead` is about, and puts a rune that is no brace back |
| StrvalsMachine.Parser.Key | pkg/strvals/parser.go:179-289 | tree, error and unread buffer are those of the function that the theorems are about |
| StrvalsMachine.Parser.ListItem | pkg/strvals/parser.go:335-435 | list, error and unread buffer are those of the function that the theorems are about |
| StrvalsMachine.Parser.Parse | pkg/strvals/parser.go:158-169 | the loop of `parse` leaves the data and the outcome of the function that the theorems are about |
| StrvalsLiteral.Key | pkg/strvals/literal_parser.go:92-159 | a literal `key` that succeeds consumed input, and no panic escapes it |
| StrvalsLiteral.ListItem | pkg/strvals/literal_parser.go:173-238 | a literal `listItem` that succeeds consumed input |
| StrvalsLiteral.LiteralParser.ScanUntil | pkg/strvals/literal_parser.go:78-90 | the literal reading loop is the literal scan function |
| StrvalsLiteral.LiteralParser.ReadIndex | pkg/strvals/literal_parser.go:161-171 | the literal index reader is its function |
| StrvalsLiteral.LiteralParser.ReadKey | pkg/strvals/literal_parser.go:92-159 | the literal `key` consumes and stores what its function says |
| StrvalsLiteral.LiteralParser.ReadItem | pkg/strvals/literal_parser.go:173-238 | the literal `listItem` consumes and stores what its function says |
| StrvalsLiteral.LiteralParser.ParseLine | pkg/strvals/literal_parser.go:65-76 | the literal `parse` loop is its function |
| Decimal.ValDec | pkg/strvals/parser.go:324-333 | printing a number in decimal and reading it gives the number |
| Decimal.AtoiDec | pkg/strvals/parser.go:324-333 | the 64-bit signed reader accepts exactly the printed numbers in its range |
| VersionRoundTrip.SemanticRoundTrip | pkg/version/version.go:181-203 | every semantic version, over the whole uint range, is parsed back from its string with components, pre-release and build metadata |
| VersionRoundTrip.GenericRoundTrip | pkg/version/version.go:181-203 | every generic version is parsed back from its string |
| VersionRoundTrip.ParseStringParse | pkg/version/version.go:26-70 | whatever parses, in either mode, parses to the same version again after printing |
| VersionRoundTrip.ParsedIsVersion | pkg/version/version.go:26-70 | what the parser accepts is a version in the sense of the round trips: range, leading zeros, identifier characters, three components in semantic mode |
| VersionSpace.TrailingSpaceExactly | pkg/version/version.go:19-24 | white space after a string that parses is ignored if and only if it has no line break, in both modes |
| VersionSpace.SpaceAtEnd | pkg/version/version.go:26-70 | with white space appended, any string parses as before, or not at all where there is a line break in it |
| VersionSpace.LeadingSpaceIgnored | pkg/version/version.go:19-24 | white space in front of any string is ignored |
| VersionSpace.LineBreakRefused | pkg/version/version.go:19-24 | every semantic version is read back from its text and refused with a line break after it |
| VersionSpace.LineBreakAfterOneTwoThree | pkg/version/version.go:19-24 | in particular 1.2.3 parses and 1.2.3 with a line break does not |
| VersionSpace.LeadingVIgnored | pkg/version/version.go:19-24 | a v in front of a string that starts with a digit changes nothing, in both modes |
| VersionSpace.GenericIgnoresRest | pkg/version/version.go:19-24 | generic parsing ignores whatever follows the text of a generic version and does not continue it, unless there is a line break in it |
| VersionLanguage.SemanticTextExactly | pkg/version/version.go:26-70 | a string is accepted as the semantic version v if and only if v is one and the string is its text, with white space around it, no line break after it, and perhaps a v before it |
| VersionLanguage.GenericAccepts | pkg/version/version.go:26-70 | two or more numerals below 2^64, joined by dots, of which the first has no leading zero, are accepted in generic mode with these values |
| VersionLanguage.GenericNumerals | pkg/version/version.go:26-70 | what is accepted in generic mode begins with such numerals |
| VersionLanguage.LegalExactly | pkg/version/version.go:60-66 | a pre-release identifier is refused exactly when it is a number below 2^64 with a leading zero |
| Versions.ParseLoop | pkg/version/version.go:26-70 | the parsing loops compute the parse function, failures included |
| Versions.ComponentsLoop | pkg/version/version.go:42-51 | the loop over components refuses leading zeros in the first component, in semantic mode in every component, and numbers beyond 64 bits |
| Versions.LegalLoop | pkg/version/version.go:60-66 | the loop over pre-release identifiers accepts exactly when every identifier is legal |
| Versions.NumbersLoop | pkg/version/version.go:187-192 | the loop over components prints the dotted numbers |
| Versions.StringLoop | pkg/version/version.go:181-203 | the printed text is that of the printing function |
| Versions.CompareLoop | pkg/version/version.go:207-283 | the comparison loops, with the all-zeros tails, compute the comparison function |
| VersionOrder.Antisymmetric | pkg/version/version.go:207-273 | swapping the two versions negates the comparison, for all versions |
| VersionOrder.NumbersArePadded | pkg/version/version.go:207-230 | comparing components equals lexicographic comparison after padding both with zeros to any common length |
| VersionOrder.GenericOrder | pkg/version/version.go:207-230 | generic comparison is that padded order, so trailing zeros never matter |
| VersionOrder.GenericTransitive | pkg/version/version.go:207-230 | generic comparison is transitive, and equality is an equivalence |
| VersionOrder.TameOrder | pkg/version/version.go:232-273 | where every pre-release identifier is a number below 2^64 or starts with a letter, comparison is the precedence of section 11 of Semantic Versioning 2.0.0 |
| VersionOrder.TameTransitive | pkg/version/version.go:232-273 | on such versions comparison is transitive |
| VersionOrder.PrecedenceTransitive | pkg/version/version.go:232-273 | the precedence of section 11 is itself transitive, which is what makes it a reference |
| VersionOrder.Cycle | pkg/version/version.go:258-262 | comparison is not transitive in general: pre-release 10 is less than 1a, 1a less than 2, 2 less than 10 |
| VersionTransitive.TransitiveExactly | pkg/version/version.go:207-273 | for semantic versions u, v, w in two steps of the order, u is at most w if and only if they are not knotted: equal numbers, pre-releases all three, and at the first identifiers that do not all agree two numbers x < y and a word that as text comes after y and before x |
| VersionTransitive.ParsedTransitiveExactly | pkg/version/version.go:207-273 | the same for all versions that the parsers return, semantic and generic mixed: transitivity fails if and only if the three are knotted, or a generic version in the middle hides that the pre-release of u comes after that of w |
| VersionTransitive.ListTransitiveExactly | pkg/version/version.go:241-270 | the same for lists of legal pre-release identifiers |
| VersionTransitive.BridgeBreaks | pkg/version/version.go:228-230 | 1.0.0 equals the generic 1.0, which equals 1.0.0-a, which comes before 1.0.0 |
| VersionOrder.FollowsPrecedenceExactly | pkg/version/version.go:232-273 | comparison agrees with section 11 if and only if the numbers or the absence of a pre-release decide, or the first differing identifiers are a pair that the code orders as section 11 does |
| VersionOrder.EqualUpToBuild | pkg/version/version.go:207-273 | two semantic versions compare equal if and only if they differ at most in build metadata |
| Broker.RunRefines | pkg/tunnel/server/broker/broker.go:43-131 | over every sequence of Register, Unregister and Pick with fresh ids, the table holds exactly the registered and not yet unregistered ids of every node, without duplicates, empty slots or empty sets |
| Broker.StepRefines | pkg/tunnel/server/broker/broker.go:111-131 | each operation, swap-remove included, has its effect on the set of registered ids and keeps the table well formed |
| Broker.PickRegistered | pkg/tunnel/server/broker/broker.go:133-157 | what `Pick` returns is registered under the requested node, sits in the slot that one of its probes looked at, and was open at that probe |
| Broker.LooksEverywhereExactly | pkg/tunnel/server/broker/broker.go:141-157 | the probing loop visits every index if and only if its counter does not wrap at 2^64, or the number of connections divides 2^64 |
| Broker.PickFindsOpenExactly | pkg/tunnel/server/broker/broker.go:141-157 | `Pick` finds an open connection whenever there is one if and only if that same condition holds of the cursor |
| Broker.NoneMeansAllClosed | pkg/tunnel/server/broker/broker.go:141-157 | where the loop looks everywhere and connections only close while it runs, nothing found means everything closed |
| Broker.SkippingMissesOpen | pkg/tunnel/server/broker/broker.go:141-157 | at every wrap with a connection count that does not divide 2^64, some open connection is missed |
| Broker.PicksFair | pkg/tunnel/server/broker/broker.go:141-157 | k picks on an unchanged open set of n connections, in any interleaving of their tickets, return each connection floor(k/n) or ceil(k/n) times, while the cursor does not wrap at 2^64 or if n divides 2^64 |
| Broker.AlwaysFairExactly | pkg/tunnel/server/broker/broker.go:141-157 | picks are fair from every cursor on, however many, if and only if n divides 2^64 |
| Broker.UnfairAcrossWrap | pkg/tunnel/server/broker/broker.go:141-157 | otherwise n picks from the last cursor value on choose one connection twice |
| Broker.PicksDraw | pkg/tunnel/server/broker/broker.go:141-157 | the picks of a node, run through the operation itself with picks of other nodes in between, return exactly what consecutive cursor values give and move its cursor on by their number modulo 2^64 |
| Broker.PickFair | pkg/tunnel/server/broker/broker.go:141-157 | hence k such picks return each of the n connections of the node floor(k/n) or ceil(k/n) times, while the cursor does not wrap at 2^64 or if n divides 2^64 |
| Broker.PickReturnsOpenExactly | pkg/tunnel/server/broker/broker.go:133-157 | `Pick` returns nothing for an unknown node; for a known one it returns nothing exactly when all are closed, if and only if its probes do not run over 2^64 or their number divides 2^64 |
| Broker.CursorCounts | pkg/tunnel/server/broker/broker.go:43-157 | over every run with fresh ids, the cursor of a node is the number of its picks since it was last without connections, modulo 2^64 |
| Broker.SlotsKept | pkg/tunnel/server/broker/broker.go:111-131 | every operation leaves every connection in its slot, except that an unregistration takes its own away and moves the last one |
| Broker.HitsPermuted | pkg/tunnel/server/broker/broker.go:141-157 | how often an index is hit does not depend on the order of the tickets |
| Broker.Find | pkg/tunnel/server/broker/broker.go:118-126 | the search returns the first connection with the id |
| Broker.BrokerObject.Register | pkg/tunnel/server/broker/broker.go:62-69 | the critical section appends to the node set, creating it for the first connection |
| Broker.BrokerObject.Unregister | pkg/tunnel/server/broker/broker.go:111-131 | the loop swaps the last connection into the place of the removed one and drops an empty set |
| Broker.BrokerObject.Pick | pkg/tunnel/server/broker/broker.go:141-157 | the loop advances the 64-bit cursor once and returns the first open connection it probes |
| Agent.NoLostWakeUp | pkg/tunnel/agent/agent.go:112-165 | in every interleaving, while the manager waits, a connection lost since it looked leaves the channel non-empty or its own send pending, although sends to a full channel are dropped; and so does any shortfall of the target |
| Agent.OneServerPerInstance | pkg/tunnel/agent/agent.go:89-121 | a tracked instance has exactly one serve goroutine that has not deleted it, the one of the tracked tunnel |
| Agent.DeletesOwnEntry | pkg/tunnel/agent/agent.go:113-115 | a goroutine that deletes by key always deletes its own entry |
| Agent.NoLeakedTunnel | pkg/tunnel/agent/agent.go:83-121 | every tunnel that connect created is closed, still held by the manager, or tracked |
| Agent.NeverTooMany | pkg/tunnel/agent/agent.go:146-184 | the tracker never holds more connections than the largest target seen so far |
| Agent.MaxTargetIsLargest | pkg/tunnel/agent/agent.go:243-251 | the maximum kept along the run is the largest target of its states (what these targets are: `Agent.TargetIsLastReported`) |
| Agent.TargetIsLastReported | pkg/tunnel/agent/agent.go:83-251 | in every state of every run, the target is the number of instances reported last, and the tracker holds the connections, that a fold over the steps alone says: the last identity of an accepted connection or the last answer of a refresh that was written, and 1 before any |
| Agent.WaitsExactlyWhenEnough | pkg/tunnel/agent/agent.go:146-165 | the manager goes to wait exactly when as many instances are connected as were reported last, and connects otherwise |
| AgentConvergence.Converges | pkg/tunnel/agent/agent.go:83-184 | from every state of every run that is not cancelled, steps that go well are at most as many as a rank, and where none is left the manager waits with nothing queued, enough connections, and all tracked tunnels open |
| AgentConvergence.GoodLowers | pkg/tunnel/agent/agent.go:83-251 | each such step of the manager or a goroutine lowers the rank |
| AgentConvergence.Progress | pkg/tunnel/agent/agent.go:137-184 | short of such a state some step that goes well can be made: no deadlock |
| AgentConvergence.RefreshTakesEffect | pkg/tunnel/agent/agent.go:223-251 | after a tick of the refresh timer, with a connection that stays, the manager waits again only with the number that the servers told it |
| AgentConvergence.GivesUpAtFourth | pkg/tunnel/agent/agent.go:83-128 | unless cancelled, the manager tries again after each of the first three failures since it looked, and goes back to look after the fourth |
| AgentConvergence.StoppedExactly | pkg/tunnel/agent/agent.go:152-175 | the loop has returned exactly when, with the context done, it waited or gave up connecting at some step |
| AgentConvergence.CancelledExactly | pkg/tunnel/agent/agent.go:152-155 | and the context is done exactly when some step cancelled it |
| Agent.StepKept | pkg/tunnel/agent/agent.go:83-251 | every step of the manager, of a goroutine or of the environment keeps the invariant |
| Agent.RunKept | pkg/tunnel/agent/agent.go:137-184 | the invariant holds in every state of every run |
| Agent.WakeUpKept | pkg/tunnel/agent/agent.go:116-119 | every step keeps the wake-up part of the invariant |
| Agent.ConnState.Track | pkg/tunnel/agent/agent.go:89-96 | a second connection to a tracked instance is refused, otherwise entry and target are set |
| Agent.ConnState.Delete | pkg/tunnel/agent/agent.go:113-115 | exactly the entry of the instance goes |
| Agent.ConnState.Signal | pkg/tunnel/agent/agent.go:116-119 | the id is queued unless 16 are queued already |
| HelmChart.NoRunningJobDeleted | internal/controller/clusteragent/helmchart_controller.go:122-137 | over every run with a lagging cache and failing calls, an install Job whose deletion is under way has finished |
| HelmChart.StaleDeleteHitsWhatItRead | internal/controller/clusteragent/helmchart_controller.go:119-137 | when the delete by name is made, the current install Job, if any, is the one the worker read, finished as it was read |
| HelmChart.ReadyMeansCompleted | internal/controller/clusteragent/helmchart_controller.go:146-172 | a Ready=True condition for generation g, in any version of the chart, means that an install Job labelled g completed earlier in the run |
| HelmChart.CompletedGrows | pkg/runtime/helmchart.go:185-189 | the completed generations of a state are those of the completion events before it |
| HelmChart.RunKept | internal/controller/clusteragent/helmchart_controller.go:60-172 | the invariant about caches, deletions and Ready holds in every state of every run (what a deletion does: `HelmChartDeletion.DeletionDecides`) |
| HelmChart.CacheStepKept | internal/controller/clusteragent/helmchart_controller.go:97-137 | every step keeps what a cached Job says about the current one: same epoch, never further along |
| HelmChart.DeletedStepKept | internal/controller/clusteragent/helmchart_controller.go:119-137 | every step keeps that only finished install Jobs are deleted |
| HelmChart.ReadyStepKept | internal/controller/clusteragent/helmchart_controller.go:146-172 | every step keeps that Ready=True is backed by a completed Job |
| HelmChartLag.LaggingConverges | internal/controller/clusteragent/helmchart_controller.go:60-172 | on the step machine, from any state in which the chart cache shows the last generation, with the other cache lagging, the worker anywhere in a reconcile and Job events between its calls, as many turns as the rank end with Ready recorded for that generation |
| HelmChartLag.QuietAdvances | internal/controller/clusteragent/helmchart_controller.go:60-172 | every step of worker, caches and Jobs, without edits, deletion and failing calls, writes nothing or lowers the rank |
| HelmChartLag.WritesBounded | internal/controller/clusteragent/helmchart_controller.go:60-172 | hence the number of writes is bounded by the rank, however the steps interleave and the caches lag |
| HelmChartLag.TurnProgress | internal/controller/clusteragent/helmchart_controller.go:60-172 | a stretch of steps in which some reconcile begins from caches that have caught up and ends, a running Job finishes and a deleted one disappears, lowers the rank unless the outcome is recorded |
| HelmChartLag.RecordedStays | internal/controller/clusteragent/helmchart_controller.go:60-172 | once the outcome is recorded, nothing more is written |
| HelmChartLag.RunReaches | internal/controller/clusteragent/helmchart_controller.go:60-172 | every state of a run is such a state once the worker is idle and the chart cache shows the last generation |
| HelmChartConvergence.MachineConverges | internal/controller/clusteragent/helmchart_controller.go:60-172 | on the step machine, from any state between reconciles of a chart that is not being deleted and however far the caches lag, rounds in which they catch up before each reconcile end with Ready recorded for the current generation |
| HelmChartConvergence.FreshReconcileReconciles | internal/controller/clusteragent/helmchart_controller.go:60-172 | on the step machine, a reconcile without failing calls after the caches caught up changes chart and Job as the reconcile function says, and ensures the RBAC objects exactly where there is a finalizer |
| HelmChartConvergence.FreshReconcileSteps | internal/controller/clusteragent/helmchart_controller.go:60-172 | and is a sequence of enabled steps of that machine |
| HelmChartConvergence.Converges | internal/controller/clusteragent/helmchart_controller.go:60-172 | on current objects, from every combination of finalizer, stale or fresh Job, Job status and condition, as many rounds as the rank end with Ready recorded for the current generation |
| HelmChartConvergence.MoveLowersRank | internal/controller/clusteragent/helmchart_controller.go:60-172 | every move that changes anything lowers the rank |
| HelmChartConvergence.UnsettledMoves | internal/controller/clusteragent/helmchart_controller.go:60-172 | outside the settled states some move changes something: no deadlock |
| HelmChartConvergence.SettledForever | internal/controller/clusteragent/helmchart_controller.go:60-172 | a settled chart is never touched again |
| HelmChartConvergence.RoundProgress | internal/controller/clusteragent/helmchart_controller.go:60-172 | a round of moves settles the chart or lowers the rank |
| HelmChartConvergence.JobCondition | internal/controller/clusteragent/helmchart_controller.go:283-290 | the search finds a condition exactly when one of that type is True |
| HelmChartConvergence.ClusterObject.Reconcile | internal/controller/clusteragent/helmchart_controller.go:60-172 | the reconcile on the objects is the function that convergence is about |
| HelmChartDeletion.DeletionDecides | internal/controller/clusteragent/helmchart_controller.go:178-240 | on the step machine, a deletion reconcile without failing calls after the caches caught up writes nothing while the teardown Job runs, lets the chart go without its RBAC objects when that Job is over or nothing was installed, and otherwise starts a teardown Job of the current generation and leaves the rest |
| HelmChartDeletion.FreshDeletionSteps | internal/controller/clusteragent/helmchart_controller.go:178-240 | and is a sequence of enabled steps of that machine |
| HelmChartDeletion.DeletionEnds | internal/controller/clusteragent/helmchart_controller.go:178-240 | whatever the Jobs were and however they end, at most three rounds of such reconciles and Job events let the chart go, and it stays gone |
| HelmChartDeletion.FailureEndsReconcile | internal/controller/clusteragent/helmchart_controller.go:60-240 | a call that fails writes nothing and ends the reconcile, except in the best-effort clean-up of a deletion |
| HelmChartDeletion.UpdatesFromCurrentOnly | internal/controller/clusteragent/helmchart_controller.go:76-78 | an update of the chart is stored exactly when it does not fail and is made from the current version |
| HelmChartDeletion.ExistingTeardownWaits | internal/controller/clusteragent/helmchart_controller.go:216-222 | a teardown Job that the cache did not show is waited for, not started again |
| HelmChartDeletion.FailedTeardownLetsGo | internal/controller/clusteragent/helmchart_controller.go:216-220 | where the teardown Job cannot be created, the same reconcile lets the chart go, also if the RBAC objects cannot be removed |
| HelmChartTeardown.TeardownKeepsRBACExactly | internal/controller/clusteragent/helmchart_controller.go:178-240 | over every run with lagging caches, from the creation of a teardown Job on, it has its RBAC objects as long as it runs, in every continuation in which no creation of a teardown Job fails, if and only if at its creation they are there and the install Job is neither gone nor being deleted, or the cache shows the chart gone already |
| HelmChartTeardown.AlwaysPowered | internal/controller/clusteragent/helmchart_controller.go:178-240 | hence a running teardown Job has its RBAC objects in every state of every run in which teardown Jobs are created only so and without failure |
| HelmChartTeardown.TeardownLosesRBAC | internal/controller/clusteragent/helmchart_controller.go:236-239 | the comment that they must stay is not kept by the code: there is a run, with no failing creation of a teardown Job, in which a running teardown Job loses them |
| HelmChartTeardown.AlwaysKnown | internal/controller/clusteragent/helmchart_controller.go:60-240 | in every state of every run deletion is for good and keeps a finalizer until the chart is gone, a teardown Job stays and stays finished, and a worker that starts one has read the current install Job complete |
| JoinToken.TokensConserved | internal/controller/clusteragent/workerjointoken_controller.go:73-201 | in every state of every run of reconciles, tampering, expiry, conflicts and failures, the live tokens that neither the status nor a mint in progress accounts for number at most the mints in which a step failed; once the resource is gone, failed revocations count too |
| JoinToken.DeletionRevokes | internal/controller/clusteragent/workerjointoken_controller.go:244-264 | with no failed mint at most the recorded token is live, and with no failed revocation either deletion leaves none |
| JoinToken.OnlyRecordedLivesExactly | internal/controller/clusteragent/workerjointoken_controller.go:139-201 | over every run in which no call fails on its own and nothing cleans up tokens, between reconciles no token but the recorded one is live if and only if every status update of a mint was made from the current version of the resource |
| JoinToken.MintOrphansExactly | internal/controller/clusteragent/workerjointoken_controller.go:139-201 | a mint with nothing interleaved leaves no new unrecorded token if and only if it created none or every step succeeded, the status update from a current version and the revocation of a live token among them |
| JoinToken.DeletionLeavesNoneExactly | internal/controller/clusteragent/workerjointoken_controller.go:244-264 | over every run in which no call fails on its own and nothing cleans up tokens, a deleted resource leaves no live token if and only if every status update of a mint was made from the current version of the resource |
| JoinToken.StrandedForever | internal/controller/clusteragent/workerjointoken_controller.go:157-193 | a token left behind by a mint that failed after creating it, or whose status update was refused or conflicted, is live in every later state, as long as nothing else cleans up tokens |
| JoinToken.DeletedMidMint | internal/controller/clusteragent/workerjointoken_controller.go:241-264 | the comment that deletion always revokes is not true of the code: a deletion in the middle of a mint makes the status update conflict, and the new token outlives the resource without any call failing on its own |
| JoinToken.DeletedBeforeStaleMint | internal/controller/clusteragent/workerjointoken_controller.go:241-264 | nor need it come in the middle of a mint: the worker is idle at the deletion and then mints from a cached version of before |
| JoinToken.NoDriftMeansRecordedToken | internal/controller/clusteragent/workerjointoken_controller.go:114-134 | a reconcile finds no drift exactly when the Secret holds the kubeconfig of the recorded token (what it then does: `JoinToken.ReconcileDecidesExactly`) |
| JoinToken.ReconcileDecides | internal/controller/clusteragent/workerjointoken_controller.go:73-201 | over every run, a reconcile from the current version, undisturbed and without failing calls, records a new token that expires ttl after the time of recording if there was none or the Secret is not the kubeconfig of the recorded one, marks the token expired if the Secret is intact and the time has come, and otherwise writes nothing |
| JoinToken.ReconcileDecidesExactly | internal/controller/clusteragent/workerjointoken_controller.go:96-112 | the recorded token changes if and only if it was missing or the Secret read is not its kubeconfig; Expired is newly recorded if and only if the Secret is intact, the expiry has passed and it was not recorded yet; and no version is written if and only if neither is so |
| JoinToken.DeletionReconciled | internal/controller/clusteragent/workerjointoken_controller.go:244-264 | an undisturbed reconcile of a resource that is being deleted, without failing calls, lets it go with its recorded token dead |
| JoinToken.FinalizerFirst | internal/controller/clusteragent/workerjointoken_controller.go:86-94 | a resource without a finalizer gets one, and nothing else, before anything is minted |
| JoinToken.FailedReadWaits | internal/controller/clusteragent/workerjointoken_controller.go:96-100 | a Secret that cannot be read decides nothing |
| JoinToken.FailedRevokeLetsGo | internal/controller/clusteragent/workerjointoken_controller.go:244-264 | a revocation that fails does not hold the resource back: it goes and its token stays |
| JoinToken.FailedMintDegrades | internal/controller/clusteragent/workerjointoken_controller.go:226-239 | a mint that fails before the status update records Degraded, with the recorded token as it was, if that update goes through |
| JoinToken.StepKept | internal/controller/clusteragent/workerjointoken_controller.go:73-264 | every step of the worker, the user, the cache and the token cleaner keeps the accounting invariant |
| JoinToken.RunKept | internal/controller/clusteragent/workerjointoken_controller.go:73-264 | the accounting invariant holds in every state of every run |
| JoinToken.IssueStep | pkg/token/create.go:78-109 | issuing keeps the accounts, also where the Secret is created and the kubeconfig then fails |
| JoinToken.RecordStep | internal/controller/clusteragent/workerjointoken_controller.go:179-193 | recording keeps the accounts, also where the update is refused after a failed revocation |
| JoinToken.RemoveStep | internal/controller/clusteragent/workerjointoken_controller.go:259-263 | letting the resource go keeps the accounts |
| JoinToken.Cluster.UpdateResource | internal/controller/clusteragent/workerjointoken_controller.go:191-193 | an update is stored exactly when it succeeds from the current version |
| JoinToken.Cluster.Mint | internal/controller/clusteragent/workerjointoken_controller.go:139-201 | the statements of `mint` leave the store that the step functions say |
| JoinToken.Cluster.ReconcileDelete | internal/controller/clusteragent/workerjointoken_controller.go:244-264 | the statements of `reconcileDelete` leave the store that the step functions say |
| HelmShell.ScriptPreservesMeaning | pkg/runtime/helmchart.go:132-152 | tokenising the script by sections 2.2.1, 2.2.2 and 2.3 of the POSIX.1-2017 Shell Command Language yields exactly the given argument vectors in order, separated by `&&`, empty arguments and quotes included |
| HelmShell.ScriptAfterPrefix | pkg/runtime/helmchart.go:144-151 | with a decode pipeline in front, the script is read as that pipeline and then exactly the steps |
| HelmShell.ContainerRuns | pkg/runtime/helmchart.go:132-152 | the direct argv and the shell form run the same steps |
| HelmShell.JobRunsCommand | pkg/runtime/helmchart.go:156-183 | the container of a Job runs exactly the commands of the chart, after decoding the values where there are any |
| HelmShell.LexShellJoin | pkg/runtime/helmchart.go:133-139 | a quoted and joined vector is read as its words, each with its characters taken literally |
| HelmShell.LexArg | pkg/runtime/helmchart.go:135-137 | a quoted argument adds exactly its characters to the word |
| HelmShell.ShellJoinLoop | pkg/runtime/helmchart.go:133-139 | the quoting loop computes the joined text |
| HelmShell.ContainerCommandLoop | pkg/runtime/helmchart.go:132-152 | the loop over steps computes the container command, the single-step case included |
| HelmShell.CommandLoop | pkg/runtime/helmchart.go:78-130 | the appends compute the command of the chart, whatever order the value map is ranged over |
| HelmShell.SetFlagsLoop | pkg/runtime/helmchart.go:117-119 | the loop over sorted keys gives one flag and one assignment each |
| HelmShell.KeyOrderUnique | pkg/runtime/helmchart.go:111-116 | the sorted order of the keys is unique, so the command is deterministic |
| HelmOptions.UpgradeSays | pkg/runtime/helmchart.go:91-123 | read by Helm's option syntax, helm upgrade is told exactly what the spec says: release and chart, each switch if and only if it is on, each option if and only if it is given, the values in the order of their keys |
| HelmOptions.RepoAddSays | pkg/runtime/helmchart.go:124-127 | helm repo add is told the name, the repository and whether to verify |
| HelmOptions.UninstallSays | pkg/runtime/helmchart.go:81-87 | helm uninstall is told the release, its namespace and the timeout if there is one |
| Pki.LeavesFollowSpec | pkg/runtime/pki_auth.go:44-93 | from a generated Secret, over any sequence of spec edits, regenerations and signing failures, the CA never changes and after a successful regeneration both leaves are signed for the names of the current spec (names without commas) |
| Pki.RunKeeps | pkg/runtime/pki_auth.go:44-93 | over any run the CA and every other entry stay, and each leaf stays matched to the names its annotation records |
| Pki.RegenerateKeeps | pkg/runtime/pki_auth.go:44-93 | one regeneration, failing or not, changes nothing but the leaf entries and keeps them matched |
| Pki.RegenerateIdempotent | pkg/runtime/pki_auth.go:44-93 | an immediate second call signs nothing and changes nothing |
| Pki.ReorderNeverResigns | pkg/runtime/pki_auth.go:44-93 | reordering or repeating the names of the spec never signs again |
| Pki.LeafUpToDate | pkg/runtime/pki_auth.go:35-38 | after a successful call a leaf is for the names of the spec if and only if it was, or the comma-joined texts differ |
| Pki.LeafUpToDateCommaFree | pkg/runtime/pki_auth.go:35-38 | with names free of commas it always is |
| Pki.CommaCollision | pkg/runtime/pki_auth.go:35-38 | in every spec whose other names sort elsewhere, adding the one name c,d or the two names c and d gives different API server names with one hash |
| Pki.CommaLeavesLeafStale | pkg/runtime/pki_auth.go:44-93 | a leaf signed for the one name is then not signed again for the two: after a successful regeneration it is not issued for the names of the spec |
| Pki.GeneratedCommaStale | pkg/runtime/pki_auth.go:126-236 | so it goes from a generated Secret on: generated for the one name, the spec edited to the two, reconciled, and the leaf is not for the names of the spec |
| Pki.BareSpecClear | pkg/runtime/pki_auth.go:95-120 | a spec without names of its own is such a spec |
| Pki.JoinInjective | pkg/runtime/pki_auth.go:35-38 | joining by commas is injective on names without commas |
| Pki.AltNamesMean | pkg/runtime/pki_auth.go:95-120 | the API server names are strictly sorted and are exactly the names of the spec, the defaults and the host, without the empty one |
| Pki.AltNamesUnique | pkg/runtime/pki_auth.go:95-120 | they depend only on the set of names in the spec |
| Pki.TunnelNamesMean | pkg/runtime/pki_auth.go:29-34 | the tunnel certificate is for the tunnel host, and for nothing if there is none |
| Pki.RequestTells | pkg/runtime/pki_auth.go:56-83 | a signing request tells the leaf that it is for and its names |
| Pki.SecondFailureKeepsFirst | pkg/runtime/pki_auth.go:72-83 | where only the second signing fails, the first leaf has been replaced and is matched, and no update is reported |
| Pki.GeneratedSound | pkg/runtime/pki_auth.go:126-236 | the generated Secret holds leaves matched to its annotations |
| Pki.RunSound | pkg/runtime/pki_auth.go:44-93 | and stays so over any run |
| Pki.SecretObject.ResignLeaf | pkg/runtime/pki_auth.go:56-71 | one leaf is signed again, in certificate, key and annotation, exactly when its hash differs |
| Pki.SecretObject.RegeneratePKILeafCerts | pkg/runtime/pki_auth.go:44-93 | the statements update data and annotations as the regeneration function says, a failure of the second signing included |
| StringOrder.CanonicalMeans | pkg/runtime/pki_auth.go:118-119 | sorting and compacting gives the strictly sorted list of the same names |
| StringOrder.CanonicalUnique | pkg/runtime/pki_auth.go:118-119 | lists with the same names have the same canonical form |
| Proxy.RunsOnceAndTracked | pkg/provision/worker/proxy/manager.go:116-211 | provided no name is linked again while an earlier Link of it lives on after a removal, nor after Close: no downstream name runs twice at once, and every run is in the table or awaited by a remover or Close |
| Proxy.AwaitedToldToStop | pkg/provision/worker/proxy/manager.go:116-130 | whatever is awaited has been cancelled |
| Proxy.CloseStopsRuns | pkg/provision/worker/proxy/manager.go:196-211 | when Close has nothing left to wait for, anything still running is cancelled and awaited by a RemoveDownstream call |
| Proxy.ForwardsToRegistered | pkg/provision/worker/proxy/downstream.go:48-75 | in every run at all, a registered downstream forwards to nothing or to the very object registered under its upstream name |
| Proxy.UpdateReachesLinked | pkg/provision/worker/proxy/manager.go:46-60 | updating a registered upstream changes the endpoints of exactly the downstreams linked to its name |
| Proxy.RemovalCutsOffLinked | pkg/provision/worker/proxy/manager.go:71-86 | removing an upstream cuts off exactly the downstreams linked to its name |
| Proxy.UnlinkCutsOff | pkg/provision/worker/proxy/manager.go:183-193 | unlinking a downstream cuts off that one and no other |
| Proxy.LinkSwitches | pkg/provision/worker/proxy/manager.go:134-162 | linking a known downstream to a known upstream makes it dial the endpoints of that upstream, also when it runs already, and no other changes; with an unknown name nothing does |
| Proxy.LinkDialsAdded | pkg/provision/worker/proxy/manager.go:46-60 | a downstream linked to an upstream that was just added dials the endpoints it was added with |
| Proxy.RemovedUpstreamIsUnknown | pkg/provision/worker/proxy/manager.go:71-86 | nothing can be linked to a removed upstream |
| Proxy.DownstreamComesAndGoes | pkg/provision/worker/proxy/manager.go:89-130 | adding a downstream registers it cut off, unless it is there already, removing makes it unknown, and neither concerns another |
| Proxy.ApartAlways | pkg/provision/worker/proxy/manager.go:89-105 | in every run distinct names have distinct downstream objects, which the laws about Link and Unlink rest on |
| Proxy.LinkTrackedExactly | pkg/provision/worker/proxy/manager.go:134-171 | from every state in which runs are apart and tracked, a Link that starts leaves all runs tracked in every continuation if and only if no earlier Link of its name lives on outside the table |
| Proxy.LeftoverDropsHandle | pkg/provision/worker/proxy/manager.go:164-171 | a Link beside a leftover of its name loses its handle when the leftover returns, and runs on untracked |
| Proxy.RelinkRunsTwice | pkg/provision/worker/proxy/manager.go:164-171 | removing, awaiting the removal, adding and linking again is enough to make a name run twice |
| Proxy.CoreKept | pkg/provision/worker/proxy/manager.go:116-211 | every step keeps runs apart and tracked as long as no Link starts beside a leftover of its name, after Close too |
| Proxy.RunsKept | pkg/provision/worker/proxy/manager.go:116-211 | every disciplined step keeps the whole invariant about runs and handles |
| Proxy.LinksKept | pkg/provision/worker/proxy/manager.go:46-193 | every step keeps the invariant about links |
| Proxy.Manager.AddUpstream | pkg/provision/worker/proxy/manager.go:46-60 | an existing upstream object is updated in place, a new one registered |
| Proxy.Manager.UnlinkAll | pkg/provision/worker/proxy/manager.go:80-84 | the loop over downstreams, in any order, unlinks exactly those linked to the name |
| Proxy.Manager.RemoveUpstream | pkg/provision/worker/proxy/manager.go:71-86 | the upstream goes and its downstreams are unlinked, or nothing happens |
| Proxy.Manager.AddDownstream | pkg/provision/worker/proxy/manager.go:89-105 | an existing downstream is returned, a new one registered without an upstream |
| Proxy.Manager.RemoveDownstream | pkg/provision/worker/proxy/manager.go:116-130 | run cancelled, handle and downstream gone, and the handle to wait for returned |
| Proxy.Manager.Link | pkg/provision/worker/proxy/manager.go:134-162 | the four outcomes, with the upstream swapped even where the downstream already runs; the invariant about runs is kept where the discipline is |
| Proxy.Manager.LinkReturns | pkg/provision/worker/proxy/manager.go:164-171 | the handle under the name goes when a Link returns |
| Proxy.Manager.Unlink | pkg/provision/worker/proxy/manager.go:183-193 | the pointer is cleared, or the name reported missing |
| Proxy.Manager.ActiveHandles | pkg/provision/worker/proxy/manager.go:200-203 | the loop over the table, in any order, collects exactly its handles |
| Proxy.Manager.TakeHandles | pkg/provision/worker/proxy/manager.go:196-205 | Close takes every handle and leaves an empty table |

## Left out

- JSON mode of the set parser, the YAML helper and the value readers for files: they rest on foreign libraries.
- Sharing in the set parser's destination: maps and lists are values, so a map reachable by two paths of the destination is not modelled as one object.
- Error texts: an error is a refusal, without its message.
- Version accessors and the copies that replace one component: they would add only easy members; printing a nil version is not modelled.
- HelmChart RBAC objects beyond their existence, recreation of a chart under the same name, and garbage collection of its Jobs after deletion.
- That a release is always uninstalled on deletion: teardown is best effort and no such claim is made.
- HelmChartConvergence.Converges: is about current objects and reconciles in one piece; HelmChartLag.LaggingConverges is about lagging caches and interleaved calls.
- HelmChartConvergence.MachineConverges: has the caches catch up before each reconcile; HelmChartLag.LaggingConverges does not.
- HelmChartLag.LaggingConverges: starts when the chart cache shows the last generation, since before that a reconcile may still create a Job for an older one; failing calls are covered by the safety theorems only.
- HelmChartDeletion.DeletionEnds: has the caches catch up before each reconcile and no failing calls; HelmChartTeardown.TeardownKeepsRBACExactly is about lagging caches.
- HelmChartTeardown.TeardownKeepsRBACExactly: says nothing of runs in which the creation of a teardown Job fails, where the code gives the RBAC objects up on purpose.
- AgentConvergence.Converges: counts as going well that a dial reaches an instance that is not connected yet; which instance a load balancer picks is not modelled.
- HelmOptions.UpgradeSays: is about releases, charts and repositories whose names are not themselves flags.
- JoinToken.ReconcileDecidesExactly: is about reconciles without failing calls and conflicts; the others are covered by the accounting theorems.
- HelmChartConvergence.ClusterObject.Reconcile: leaves out the RBAC objects and the cache, which the step machine has.
- JoinToken.MintOrphansExactly: one mint with nothing interleaved; JoinToken.DeletionLeavesNoneExactly and JoinToken.StrandedForever are about all interleavings.
- WorkerJoinToken events and Secret labels, and the text of the kubeconfig.
- Job manifests apart from the generation label and the container command.
- Signing, certificate encoding and expiry of certificates: a leaf is its CA, its names and a serial number.
- The transport of the tunnel, the TCP proxying and dialing of endpoints: network effects. A tunnel is open or closed; `RunStops` stands for the end of a downstream's listener.
- Generators, templates, command-line code, process management and operating-system effects.
