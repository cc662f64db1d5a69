# Verification of ResearchSSH-Next

A Dafny model of the state-carrying core of the SSH client: the session driver and its teardown, the lazy
remote file tree, the terminal sanitiser and scrollback, the two file back ends, the controller's streams and
flags, and the marshalling between the Rust core and the Qt bridge. `dafny verify dfyconfig.toml` checks it.

- `Terminal.dfy` — the streaming control-sequence sanitiser. The reference is an automaton that reads one
  character at a time and never looks back; the class rescans a carried suffix with index loops, as the source does.
- `RemotePaths.dfy`, `RemoteFileTree.dfy` — heap nodes with parent pointers and a path index. A ghost value
  (`Forest`) says which nodes are alive and how they are linked; `Valid()` says the heap shows it and the index
  holds exactly one entry per node.
- `SessionProtocol.dfy` — one transition system of driver, clients, provider, host-key gate and teardown, with a
  step for every lock, callback start and callback end, await, poll and channel operation.
  `SessionTeardown.dfy`, `SessionBatches.dfy`, `SessionLifecycle.dfy`, `SessionReplies.dfy`, `SessionScripts.dfy`,
  `SessionFiles.dfy` and `SessionEnds.dfy` hold the invariants, `SessionRuns.dfy` what follows for every run, and
  `SessionProgress.dfy` how far driver and teardown can always get.
  `SessionStates.dfy` and `Wrappers.dfy` hold what several modules share.
- `SftpRemove.dfy` — recursive removal against a server tree with symbolic links, where any request may be refused.
- `MockFs.dfy` — rename, copy and removal by path prefix.
- `Authentication.dfy` — which keys and passwords a connection offers, in which order, whatever the server answers.
- `HostPatterns.dfy`, `ShellQuote.dfy`, `PackageBusy.dfy`, `MarkerCapture.dfy`, `Marshalling.dfy`.

Some conventions. The driver runs concurrently with everything else, so it is a transition system rather than a
class; the drain loop of one of its arms is also given as a method. Code that updates fields in place is a class
whose methods are tied to value functions, and the laws are lemmas about those functions. `QChar` is a number below
0x10000. Paths in `SftpRemove` are strings cut at their slashes. `MutexGuard` temporaries in the head of `if let`
live to the end of the statement in the 2021 edition of Rust, so a result slot stays locked throughout its callback.

Where a value function defines an operation, further lemmas say in bytes, fields and single events what it keeps
(`EcmaEscapeIsControl`, `ScrollbackIsTheEnd`, `RemovalIs`, `CommandsInWords` and others), so that the meaning of a
theorem does not rest on that function's own definition.

Where the code does less than one might expect, the exact condition is proved, with an input that fails it:

- The sanitiser drops a carried suffix of more than 4096 characters. A cut is harmless whatever follows exactly if the
  suffix fits (`CutIsHarmless`, `LongOscShows`).
- The CR/BS filter starts afresh with every chunk. `FilterCut` says which cuts it does not notice,
  `FilterIsChunkLocal` shows one of each other kind.
- A listing makes the child paths equal to the listed ones unless a listed path already hangs elsewhere or is
  taken for the root (`ListingIsExactWhen`, with `ForeignPathStaysPut` and `HomePathIsTakenForRoot` as inputs). In a
  tree built from listings of their own directories neither happens (`DirectoryListing`).
- Removing by a link's name spares its target only without a trailing slash (`SlashLeavesLink`, `SlashEntersTarget`),
  although the comment in `russh.rs:786-788` says that a removal never follows a link.
- A recursive removal that nothing is refused still fails if the path runs through what it removes; `Removable` is
  the condition, `PathThroughItself` an input.
- Renaming a mock directory to a target with a trailing slash, or copying it there, can put two entries under one
  name (`RenameRoundTrip`, `CopyThenRemove`, with `TrailingSlashMerges` and `TrailingSlashHides` as inputs).
- A resource snapshot is dropped exactly if the chunk that completes it takes the capture over 50000 characters
  (`CaptureIsChunkIndependent`, `LongChunkLosesSnapshot`).

## Model

| member | source | states |
|---|---|---|
| Terminal.TerminalViewModel.SanitiseTerminalChunk | app/cpp/TerminalViewModel.cpp:71-213 | output and carried suffix of the rescanning loops are those of the automaton started on carried suffix plus chunk |
| Terminal.TerminalViewModel.ScanControl | app/cpp/TerminalViewModel.cpp:87-207 | from an introducer the scan ends just after the first complete control sequence, or reports that none ends |
| Terminal.HeldResumes | app/cpp/TerminalViewModel.cpp:71-79 | what is held back is always an unfinished sequence from which scanning resumes in the same state |
| Terminal.RunStaysResumable | app/cpp/TerminalViewModel.cpp:71-79 | across every run of calls the suffix is empty or starts with ESC or U+009B, is unfinished, and has at most 4096 characters |
| Terminal.ChunkIndependence | app/cpp/TerminalViewModel.cpp:71-213 | however a stream is cut, if every carried suffix fits, outputs and final suffix equal those of one call on the whole |
| Terminal.CutBeforeText | app/cpp/TerminalViewModel.cpp:75-79 | a cut before text without introducers is harmless if and only if the suffix carried over it fits or nothing follows |
| Terminal.CutIsHarmless | app/cpp/TerminalViewModel.cpp:75-79 | a cut is harmless for every continuation if and only if the suffix carried over it has at most 4096 characters |
| Terminal.LongOscShows | app/cpp/TerminalViewModel.cpp:75-79 | an input where the dropped suffix shows: a 5000-character OSC cut before its end |
| Terminal.SanitiserOutput | app/cpp/TerminalViewModel.cpp:81-212 | output is a subsequence of the input without ESC or U+009B, and sanitising it again changes nothing |
| Terminal.ControlIsSwallowed | app/cpp/TerminalViewModel.cpp:87-207 | a complete CSI, OSC, DCS/SOS/PM/APC, intermediate-byte or two-character escape leaves no trace |
| Terminal.InterleavingKeepsText | app/cpp/TerminalViewModel.cpp:83-212 | any interleaving of plain text with complete control sequences yields exactly the text and carries nothing |
| Terminal.EcmaCsiIsControl | app/cpp/TerminalViewModel.cpp:96-113 | every control sequence in the form of ECMA-48 section 5.4 counts as one complete CSI |
| Terminal.EcmaEscapeIsControl | app/cpp/TerminalViewModel.cpp:167-184 | ESC, bytes 0x20 to 0x2F and a final byte 0x30 to 0x7E are one complete escape sequence |
| Terminal.EcmaStringIsControl | app/cpp/TerminalViewModel.cpp:115-165 | so are DCS, SOS, PM, APC and OSC strings with any body free of their terminator |
| Terminal.TwoCharactersAreControl | app/cpp/TerminalViewModel.cpp:186-187 | so is ESC with any other character |
| Terminal.UnfinishedIsHeld | app/cpp/TerminalViewModel.cpp:71-213 | and without its final byte or terminator each of them is held back whole and shows nothing |
| Terminal.CapIsExact | app/cpp/TerminalViewModel.cpp:75-79 | 4096 held characters are carried over, 4097 are dropped |
| Terminal.TerminalViewModel.AppendBytes | app/cpp/TerminalViewModel.cpp:47-69 | appends the CR/BS-filtered sanitised chunk |
| Terminal.FilteredIsPrintable | app/cpp/TerminalViewModel.cpp:54-67 | the filter lets only LF, TAB and printable characters through |
| Terminal.FilterMeaning | app/cpp/TerminalViewModel.cpp:54-67 | what each character adds to or takes from the filtered text: CR, LF and CR LF one LF, BS the last character of the line, text and TAB themselves, other controls nothing |
| Terminal.FilterCut | app/cpp/TerminalViewModel.cpp:52-67 | a cut before the filter is harmless if and only if it does not cut a CR LF and no BS of the second part reaches an unfinished line of the first |
| Terminal.FilterIsChunkLocal | app/cpp/TerminalViewModel.cpp:57-63 | inputs where it is not: CR LF cut in two, and a BS cut off from its line |
| Terminal.TerminalViewModel.AppendText | app/cpp/TerminalViewModel.cpp:219-227 | scrollback becomes the last 200000 characters of old text and chunk |
| Terminal.ScrollRunIsSuffix | app/cpp/TerminalViewModel.cpp:219-234 | after any appends and clears the text is the last 200000 characters appended since the last clear |
| Terminal.ScrollbackIsTheEnd | app/cpp/TerminalViewModel.cpp:219-234 | character by character: at most 200000 of them, the newest, in order |
| Terminal.SinceClearIs | app/cpp/TerminalViewModel.cpp:229-234 | what counts is the chunks after the last clear, concatenated |
| RemotePaths.ComputeParentPath | app/cpp/RemoteFileTreeModel.cpp:24-33 | the loop computes the parent path |
| RemotePaths.ParentOfJoin | rust-core/src/providers/russh.rs:546-548 | a joined entry path has the trimmed directory as parent |
| RemotePaths.ParentIs | app/cpp/RemoteFileTreeModel.cpp:24-33 | no slash, the slash alone, and slashes at the end |
| RemoteFileTree.RemoteFileTreeModel.constructor | app/cpp/RemoteFileTreeModel.cpp:7-12 | starts valid with the root alone, indexed under the empty path |
| RemoteFileTree.RemoteFileTreeModel.IndexForNode | app/cpp/RemoteFileTreeModel.cpp:58-65 | a live node's row is its position among its parent's children; only the root has none |
| RemoteFileTree.RemoteFileTreeModel.NodeForPathIs | app/cpp/RemoteFileTreeModel.cpp:35-47 | a path denotes the live node that has it, else the root if it is empty, a dot or the directory of the first row, else nothing |
| RemoteFileTree.RemoteFileTreeModel.RemovePathIndex | app/cpp/RemoteFileTreeModel.cpp:49-56 | removes exactly the paths of the node's subtree from the index, nothing else |
| RemoteFileTree.RemoteFileTreeModel.PruneChildren | app/cpp/RemoteFileTreeModel.cpp:187-196 | the removal loop leaves the tree without the subtrees of unlisted children, survivors in order, index exact |
| RemoteFileTree.RemoteFileTreeModel.UpsertEntry | app/cpp/RemoteFileTreeModel.cpp:198-223 | one entry updates the node its path resolves to, or appends one fresh child and indexes it |
| RemoteFileTree.RemoteFileTreeModel.InsertEntries | app/cpp/RemoteFileTreeModel.cpp:198-224 | the insertion loop keeps tree and index consistent, appends the planned leaves in order, and every node shows the last entry that landed on it |
| RemoteFileTree.RemoteFileTreeModel.ApplyListing | app/cpp/RemoteFileTreeModel.cpp:177-228 | unknown paths change nothing; otherwise consistency is kept, the tree is the pruned one plus the planned leaves, and no other node's loaded/loading flags change |
| RemoteFileTree.RemoteFileTreeModel.ClearTree | app/cpp/RemoteFileTreeModel.cpp:160-169 | back to the bare root, index included |
| RemoteFileTree.RemoteFileTreeModel.LoadRoot | app/cpp/RemoteFileTreeModel.cpp:139-144 | marks the root loading and requests a path that resolves to it |
| RemoteFileTree.RemoteFileTreeModel.FetchMore | app/cpp/RemoteFileTreeModel.cpp:131-137 | requests an unloaded directory once, by a path that resolves to it |
| RemoteFileTree.RemoteFileTreeModel.MarkLoadFailed | app/cpp/RemoteFileTreeModel.cpp:171-175 | clears the loading flag of the node the path resolves to and of no other |
| RemoteFileTree.PrunedIsTree | app/cpp/RemoteFileTreeModel.cpp:187-196 | cutting off unlisted subtrees and unindexing their paths leaves a consistent tree and an exact index |
| RemoteFileTree.GrownIsTree | app/cpp/RemoteFileTreeModel.cpp:211-223 | appending an unindexed leaf keeps tree and index consistent |
| RemoteFileTree.ListingIsExactWhen | app/cpp/RemoteFileTreeModel.cpp:177-228 | for any tree and listing: child paths become the listed set if and only if each listed path is a child's already, or no surviving node's and not taken for the root |
| RemoteFileTree.HasPlaceWhenAdded | app/cpp/RemoteFileTreeModel.cpp:35-47 | that test on tree and listing agrees with what each entry meets at its turn in the loop |
| RemoteFileTree.ForeignPathStaysPut | app/cpp/RemoteFileTreeModel.cpp:198-209 | a consistent tree and a listing whose path, though in the listed directory, stays under another node |
| RemoteFileTree.CrossedIsReachable | app/cpp/RemoteFileTreeModel.cpp:177-228 | one listing of the bare root makes that tree |
| RemoteFileTree.HomePathIsTakenForRoot | app/cpp/RemoteFileTreeModel.cpp:35-47 | a listing of the bare root whose second path is taken for the root |
| RemoteFileTree.DirectoryListing | app/cpp/RemoteFileTreeModel.cpp:177-228 | in a tree of directory listings: child paths equal the listed set, survivors keep their order in front, new nodes follow in listing order once each, and the tree stays of that kind |
| RemoteFileTree.ListingFrame | app/cpp/RemoteFileTreeModel.cpp:187-224 | a node disappears exactly if it is below an unlisted child, and every other node but the listed one keeps path, parent and children |
| RemoteFileTree.KeptInOrder | app/cpp/RemoteFileTreeModel.cpp:187-196 | children that stay keep their relative order |
| RemoteFileTree.NewPathsInOrder | app/cpp/RemoteFileTreeModel.cpp:198-224 | new paths come in the order in which they are first listed |
| RemoteFileTree.LastEntryIs | app/cpp/RemoteFileTreeModel.cpp:198-224 | of several entries under one path the last one counts |
| RemoteFileTree.MetaIs | app/cpp/RemoteFileTreeModel.cpp:198-223 | kind 1 shows as a directory; name, size and editability are the entry's |
| RemoteFileTree.JoinedIsInDirectory | rust-core/src/providers/russh.rs:700-717 | the entries a provider lists are in the listed directory |
| SessionProtocol.IdsAreUnique | rust-core/src/session.rs:246-248 | below 2^64 - 1 tickets, ids are non-zero and distinct |
| SessionProtocol.CollectProviderEvent | rust-core/src/session.rs:643-661 | what one provider event adds to the batch and to the transition |
| SessionProtocol.DrainEvents | rust-core/src/session.rs:514-529 | the drain loop hands over one non-empty batch: all reports in order, then the latest transition, which becomes the state |
| SessionTeardown.LocksKept | rust-core/src/session.rs:329-346 | every step of every actor keeps the discipline of the gate and slot locks |
| SessionRuns.TeardownSilence | rust-core/src/session.rs:329-346 | in every run, from the return of teardown on, no callback is running and none is made again, driver joined or not |
| SessionRuns.TeardownFinishes | rust-core/src/session.rs:329-346 | every run can be brought to that return by steps of teardown and returning callbacks alone, whatever the driver awaits |
| SessionProgress.TeardownWaitsFor | rust-core/src/session.rs:329-346 | each step of teardown waits for nothing but the driver's end or a timeout, a lock, or a running callback, and silences what it takes |
| SessionProgress.DriverCatchesUp | rust-core/src/session.rs:387-531 | from every reachable state the driver can read every command, answer every request and drain every event, or end, given only that operations end and callbacks return |
| SessionProgress.SessionCanEnd | rust-core/src/session.rs:329-404 | from every reachable state teardown can return and the driver end |
| SessionProgress.CancelCanWin | rust-core/src/session.rs:618-641 | an awaited operation can end any way, and a cancel of a client or of teardown that finds one in flight can win |
| SessionRuns.ShutdownStops | rust-core/src/session.rs:393-404 | Shutdown is the last command dequeued, and the driver stops for it, for want of a provider, or when the session is gone |
| SessionLifecycle.CommitKeepsLife | rust-core/src/session.rs:663-666 | between emissions the driver commits to at most one new state, allowed after the last |
| SessionLifecycle.LifeKept | rust-core/src/session.rs:387-531 | every step keeps reported and committed states within the life cycle |
| SessionRuns.LifecycleGrammar | rust-core/src/session.rs:383-531 | every emitted and every heard state trace obeys the life cycle; at the loop head the variable is the last emitted state and never Connecting or Disconnecting |
| SessionRuns.LifecycleInWords | rust-core/src/session.rs:383-531 | which state follows which, state by state |
| SessionBatches.Conserves | rust-core/src/session.rs:514-529 | every step keeps emitted and pending terminal bytes equal to those of the consumed provider events |
| SessionBatches.DrainShape | rust-core/src/session.rs:514-529 | a drained batch is non-empty and has no state change before its last event |
| SessionBatches.BatchTells | rust-core/src/session.rs:643-661 | a drained batch carries the bytes and error codes of its events in order, and ends in Disconnected or Failed as the last event that is not data says |
| SessionRuns.StreamConservation | rust-core/src/session.rs:514-529 | in every run bytes emitted equal bytes received, batches have at most one state change, last, and drained batches partition the provider's events |
| SessionRuns.EventsArrive | rust-core/src/session.rs:329-346 | until teardown silences them all emissions reach the callback |
| SessionReplies.RequestsAre | rust-core/src/session.rs:458-510 | the request positions are all the dequeued requests, in order, once each |
| SessionReplies.ServedKept | rust-core/src/session.rs:458-510 | every step keeps answers matched one to one with dequeued requests |
| SessionRuns.ExactlyOnce | rust-core/src/session.rs:458-510 | in every run each dequeued request but the one in service has exactly one answer, in queue order, with its id and a payload its situation allows |
| SessionRuns.FilesAreKnown | rust-core/src/session.rs:421-454 | in every run the driver had a file provider at a command exactly if an earlier connect brought one and no later connect succeeded and no later disconnect found a session; the same at the loop head |
| SessionRuns.AnswersInWords | rust-core/src/session.rs:458-510 | each answer: NotConnected, ProviderUnavailable for want of that provider, the provider's own value or error, or Cancelled if a cancel came in time |
| SessionReplies.FinishKeepsServed | rust-core/src/session.rs:534-615 | when a request's operation ends, its payload is the provider's own outcome, or a refusal if there is no file provider, and answers stay matched |
| SessionScripts.ScriptsKept | rust-core/src/session.rs:368-457 | every step keeps the driver's reports, made and due, equal to the scripts of the dequeued commands |
| SessionRuns.CommandsAreReported | rust-core/src/session.rs:368-457 | at the loop head the driver's own reports are, in queue order, exactly what each command calls for: states passed through, and errors of refused, failed and cancelled commands |
| SessionRuns.CommandsInWords | rust-core/src/session.rs:405-457 | the reports of each command, event by event; at the loop head every connect and send that was not refused has ended |
| SessionEnds.EndsKept | rust-core/src/session.rs:405-457 | every step keeps: an end is known for exactly the connects and sends carried out, but for the one under way |
| SessionEnds.HistoryRecords | rust-core/src/session.rs:387-531 | what the histories in these theorems record of each step |
| SessionReplies.NumberedKept | rust-core/src/session.rs:246-310 | every step keeps tickets distinct and returned ids tied to queued requests |
| SessionRuns.IdsIdentifyRequests | rust-core/src/session.rs:246-310 | answer ids are non-zero and distinct, and a call returned non-zero exactly if its request was queued |
| SessionRuns.InputsAreTaken | rust-core/src/session.rs:222-310 | the queue grows by exactly the commands sent while the driver lives, the channel by the provider's events, and a registration replaces the emitter |
| SessionProgress.InputsArePossible | rust-core/src/session.rs:222-310 | when commands, events, prompts and registrations are possible |
| SessionRuns.IdleCancelIsLost | rust-core/src/session.rs:222-224 | a cancel with nothing in flight makes no difference to any continuation of the run |
| SessionRuns.RegisteredAnswersArrive | rust-core/src/session.rs:477-509 | from registration until teardown takes the emitter, every answer of that kind reaches the callback |
| SftpRemove.WalkAppend | rust-core/src/providers/russh.rs:784-822 | looking up a joined path is looking up the directory and going on from there, links included |
| SftpRemove.WalkIs | rust-core/src/providers/russh.rs:784-822 | where names, dots, missing entries and links lead |
| SftpRemove.FewerFinds | rust-core/src/providers/russh.rs:784-822 | deleting entries never makes a path denote something else |
| SftpRemove.JoinedWalk | rust-core/src/providers/russh.rs:546-548 | a path joined to a directory's path is looked up from that directory |
| SftpRemove.ResolvingStaysPut | rust-core/src/providers/russh.rs:485-521 | resolving against the home directory does not change what a path denotes, whether canonicalize succeeded or not |
| SftpRemove.SftpFileProvider.ResolvePath | rust-core/src/providers/russh.rs:499-521 | the resolved path denotes what the given one does |
| SftpRemove.FoundIffVisitedStay | rust-core/src/providers/russh.rs:784-822 | after deletions a path is found if and only if all its lookup depends on is still there |
| SftpRemove.SftpFileProvider.Remove | rust-core/src/providers/russh.rs:784-822 | terminates; entries disappear only at or below the path; success empties that place (one entry unless recursive); a non-recursive call takes at most one entry; when nothing is refused it succeeds if and only if the path is removable |
| SftpRemove.PlainPathIsRemovable | rust-core/src/providers/russh.rs:784-822 | a path without links and dots, other than the root's, is removable |
| SftpRemove.PathThroughItself | rust-core/src/providers/russh.rs:802-808 | a path that runs through a link below its own end is not |
| SftpRemove.RemovalIsExact | rust-core/src/providers/russh.rs:784-822 | a completed removal takes exactly the entries at or below the place |
| SftpRemove.SlashLeavesLink | rust-core/src/providers/russh.rs:786-793 | a path whose last name is a link's denotes the link if and only if no slash follows, and else the directory the link leads to |
| SftpRemove.LinkTargetSpared | rust-core/src/providers/russh.rs:786-793 | removing by a link's name without a slash behind it takes the link alone |
| SftpRemove.SlashEntersTarget | rust-core/src/providers/russh.rs:786-793 | with a slash the target is what a removal is about |
| MockFs.SubtreeRewriting | rust-core/src/providers/mock.rs:194-217 | first-occurrence replacement is prefix substitution on the subtree, injective, and undone by the opposite one |
| MockFs.PrefixIs | rust-core/src/providers/mock.rs:177-181 | the prefix of a directory ends in exactly one slash |
| MockFs.MockFileProvider.Rename | rust-core/src/providers/mock.rs:173-219 | the collecting, removing and inserting loops compute the renamed file system, errors included |
| MockFs.RenameMovesSubtree | rust-core/src/providers/mock.rs:173-219 | to a vacant place: nothing outside changes, nothing stays, and the subtree arrives with its contents |
| MockFs.SingleFile | rust-core/src/providers/mock.rs:173-290 | renaming or copying one file puts its contents under the target and touches no other entry; an unknown source changes nothing |
| MockFs.RenameRoundTrip | rust-core/src/providers/mock.rs:173-219 | there and back restores both maps exactly, if and only if no second entry was rewritten to the target itself |
| MockFs.ClashNeedsSlash | rust-core/src/providers/mock.rs:182-183 | that takes a target with a trailing slash |
| MockFs.TrailingSlashMerges | rust-core/src/providers/mock.rs:194-201 | an input where a directory is lost |
| MockFs.TrailingSlashHides | rust-core/src/providers/mock.rs:203-217 | an input where a file lands on the target itself, so that neither renaming back nor removing the copy restores anything |
| MockFs.RenameKeepsFileCount | rust-core/src/providers/mock.rs:203-217 | no file is lost |
| MockFs.RenameKeepsDirCount | rust-core/src/providers/mock.rs:184-201 | no directory is lost unless two were merged |
| MockFs.MockFileProvider.Copy | rust-core/src/providers/mock.rs:250-290 | the loops compute the copied file system, errors included |
| MockFs.CopyDuplicates | rust-core/src/providers/mock.rs:250-290 | a copy leaves everything alone and duplicates the subtree |
| MockFs.CopyThenRemove | rust-core/src/providers/mock.rs:221-290 | removing the copy restores both maps, if and only if no file was copied onto the target itself |
| MockFs.RemovalIs | rust-core/src/providers/mock.rs:221-243 | entry by entry: a file alone goes, a full directory is refused and kept unless recursive, else all at or below the path goes, an unknown path changes nothing |
| MockFs.MockFileProvider.Remove | rust-core/src/providers/mock.rs:221-243 | file, bare directory, refused full directory, subtree or unknown path |
| MockFs.MockFileProvider.ReadFile | rust-core/src/providers/mock.rs:155-166 | the contents, or their first maxLen bytes, or not found |
| Authentication.TryPublickeyAuth | rust-core/src/providers/russh.rs:143-190 | candidates are tried in order until one is accepted or an explicit one does not load; the report tells which, how many, and the last failure |
| Authentication.Authenticate | rust-core/src/providers/russh.rs:227-310 | what is offered, and the outcome as a function of the offers; the password is offered exactly if readable, no key was accepted and no explicit key was unusable |
| Authentication.ConnectedMeansAccepted | rust-core/src/providers/russh.rs:253-310 | authenticated exactly if the server accepted something, which was then the last thing offered |
| Authentication.ExplicitKeyComesFirst | rust-core/src/providers/russh.rs:227-272 | an explicit key is the only one tried, and failing to load it rules out the password |
| Authentication.FoundKeysThenPassword | rust-core/src/providers/russh.rs:143-272 | without an explicit key every key found is tried until one is accepted, and a readable password exactly if none is |
| Authentication.FailuresAreTold | rust-core/src/providers/russh.rs:293-310 | which failure is reported when |
| HostPatterns.MatchesIffSplit | rust-core/src/providers/russh.rs:563-579 | the recursion accepts exactly if the text splits into one piece per pattern byte |
| HostPatterns.PlainPatternMatchesItself | rust-core/src/providers/russh.rs:563-579 | without wildcards a pattern matches itself alone, up to case |
| HostPatterns.WildcardsAre | rust-core/src/providers/russh.rs:563-587 | `*` matches anything, `?` one byte, `!` negates |
| HostPatterns.SameLetterIs | rust-core/src/providers/russh.rs:571-575 | case is that of the 26 ASCII letters |
| HostPatterns.Utf8Is | rust-core/src/providers/russh.rs:581-593 | words are matched in UTF-8, which decodes to the word's characters (section 3 of RFC 3629) |
| HostPatterns.WhiteIs | rust-core/src/providers/russh.rs:583 | white space is the Unicode property White_Space |
| HostPatterns.CaseInsensitive | rust-core/src/providers/russh.rs:571-575 | matching does not depend on ASCII case |
| HostPatterns.SplitWhitespace | rust-core/src/providers/russh.rs:583 | the words of a clause, cut at Unicode white space |
| HostPatterns.WordsAre | rust-core/src/providers/russh.rs:583 | a gap separates words, and gaps are all that does |
| HostPatterns.HostClauseMatches | rust-core/src/providers/russh.rs:581-593 | true exactly if a positive pattern of the clause matches and no negated one does |
| HostPatterns.ClauseIsPermutable | rust-core/src/providers/russh.rs:581-593 | the order of a clause does not matter |
| HostPatterns.NegationExcludes | rust-core/src/providers/russh.rs:584-587 | a negated pattern excludes exactly the hosts it matches |
| ShellQuote.QuotedReads | app/cpp/AppController.cpp:122-126 | wherever the shell reads plain text, a quoted value adds itself to the word and leaves no quote open |
| ShellQuote.QuotingIs | app/cpp/AppController.cpp:122-126 | what stands for a quote, and that everything else stands for itself between two quotes |
| ShellQuote.QuoteRoundTrip | app/cpp/AppController.cpp:122-126 | a quoted value lexes to exactly that one word |
| ShellQuote.ListRoundTrip | app/cpp/AppController.cpp:122-126 | quoted arguments joined by spaces lex to the list |
| ShellQuote.QuoteIsInjective | app/cpp/AppController.cpp:122-126 | different values quote differently |
| PackageBusy.BusyTellsTheTruth | app/cpp/AppController.cpp:691-863 | after any run of the handlers, each of which is tied to one step of it, the flag is set exactly if one package command is pending, and never more than one is |
| PackageBusy.BusyIsReleased | app/cpp/AppController.cpp:1726-1805 | only the pending command's own result clears the flag, or hands it to exactly one package-list command |
| PackageBusy.ActionsStart | app/cpp/AppController.cpp:702-930 | when an action starts a command, of which kind and under which id, and when it changes nothing |
| PackageBusy.ResultsAre | app/cpp/AppController.cpp:1728-1803 | what one result does, kind by kind |
| PackageBusy.EventsClear | app/cpp/AppController.cpp:1303-1330 | Disconnected, Failed and teardown forget everything, other states nothing |
| PackageBusy.AppController.SubmitExec | app/cpp/AppController.cpp:691-700 | registers a pending command exactly if the bridge gave an id, which file requests draw from the same counter |
| PackageBusy.AppController.IngestExecResult | app/cpp/AppController.cpp:1728-1803 | one result, unknown ids ignored, chaining included |
| PackageBusy.AppController.IngestExecResults | app/cpp/AppController.cpp:1726-1805 | a batch is its results in order |
| MarkerCapture.TailSuffices | app/cpp/AppController.cpp:2001-2007 | looking at the kept tail and the new chunk finds the first marker of the whole stream |
| MarkerCapture.CaptureIsChunkIndependent | app/cpp/AppController.cpp:1993-2037 | a marked snapshot is parsed if and only if the chunk boundary completing it is within 50000 characters of its start; then the parser got exactly the marked text and the terminal the rest, with fewer than a marker's characters shown twice |
| MarkerCapture.LongChunkLosesSnapshot | app/cpp/AppController.cpp:2017-2024 | a stream that is parsed when cut behind the end marker, and dropped when not |
| MarkerCapture.CuttingDoesNotMatter | app/cpp/AppController.cpp:1993-2037 | two cuttings of a stream that are parsed are parsed alike |
| MarkerCapture.NothingMarkedNothingParsed | app/cpp/AppController.cpp:1993-2037 | an incomplete stream is never parsed, and without begin marker the terminal gets all of it |
| MarkerCapture.AppController.CaptureResourceOutput | app/cpp/AppController.cpp:1993-2037 | one chunk: taken or left to the terminal |
| MarkerCapture.AppController.SettleCapture | app/cpp/AppController.cpp:2017-2035 | give up, hand over or go on |
| MarkerCapture.AppController.IngestData | app/cpp/AppController.cpp:964-967 | a batch of chunks extends the run |
| Marshalling.CStringRoundTrip | rust-core/src/ffi.rs:670-671 | a string comes back with NULs replaced, unchanged exactly if it has none |
| Marshalling.HeldStays | rust-core/src/ffi.rs:667-724 | growing the tables invalidates no stored index |
| Marshalling.FlattenFileResults | rust-core/src/ffi.rs:662-793 | every pointer of the built batch is valid and reads as its own record |
| Marshalling.DecodeFileResults | app/cpp/RustCoreBridge.cpp:186-224 | the decoding loop reads exactly the built records |
| Marshalling.FileRoundTrip | rust-core/src/ffi.rs:662-799 | file results arrive in order and complete, field by field: NULs replaced, kinds as 0 to 3, modes dropped |
| Marshalling.SeenIsFaithful | app/cpp/RustCoreBridge.h:38-55 | results that look alike after decoding differ at most in modes and NULs |
| Marshalling.FlattenExecResults | rust-core/src/ffi.rs:863-933 | the same for command results |
| Marshalling.DecodeExecResults | app/cpp/RustCoreBridge.cpp:154-184 | the decoding loop reads exactly the built records |
| Marshalling.ExecRoundTrip | rust-core/src/ffi.rs:863-939 | command results arrive in order and complete, field by field: stdout as stdout, stderr as stderr; a failure with code, message and exit status -1 |
| Marshalling.FlattenEvents | rust-core/src/ffi.rs:110-186 | the same for session events |
| Marshalling.DecodeEvents | app/cpp/RustCoreBridge.cpp:226-255 | the decoding loop reads exactly the built records |
| Marshalling.EventRoundTrip | rust-core/src/ffi.rs:110-197 | session events arrive in order and complete, field by field |

## Left out

- known_hosts, key discovery, the cryptography of authentication, and SSH configuration parsing beyond host clauses; error texts of authentication are kinds with the key they concern.
- The provider's side of the wire: handshake, PTY, and what an operation answers are nondeterministic actors.
- Session commands' payloads: paths, data and command texts pass through the driver unread; error messages are reduced to their codes in the session model.
- Fairness: that a provider operation ever ends, and the lengths of the two- and three-second timeouts, are not modelled; either outcome may happen at any time.
- A callback registered while or after teardown runs: the handle is exclusively the owner's by then.
- Panics and poisoned mutexes, and request ids after 2^64 - 1 of them.
- `childExists`, `data`, `index` and the other read-only accessors of the item model, and its change signals.
- Freeing of removed tree nodes: they drop out of the model's footprint and index but are not invalidated.
- `appendLog`, `appendNotice` text and UTF-8 decoding before the sanitiser: input, output and library code.
- SftpRemove.SftpFileProvider.Remove: other clients changing the tree during the call are not modelled.
- SFTP listing, stat, read, write, rename and copy: single requests to the server.
- `MockFs::children` and the seeded contents: easy members.
- PackageBusy.AppController.MutatePackage: stands for the install, update and removal handlers, which differ in texts; an unsupported manager is an empty command.
- MarkerCapture.CaptureIsChunkIndependent: ASCII streams from the request of a snapshot on; a command result or disconnect that ends the request early is not part of a run.
- Tracking of pending file requests (`ingestFileResults`, `trackFsRequest`), the editor, transfers, settings, update checks and everything in QML.
