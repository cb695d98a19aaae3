# Verified models of the MySQL client programs and the dbug runtime

A Dafny model of the parts of this repository that keep state over long runs, with proofs of what
they promise over every run, every input and every interleaving. `dafny verify dfyconfig.toml` checks
the whole project.

**dbug runtime** (`dbug/dbug.c`). `DbugList` and `DbugControl` give the settings levels, their pattern
lists and control strings as values. `DbugTrace` specifies the call frames and their TRACE_ON bits by a
full rescan and `DbugRules` says which bit that is, by depth limit, process and first matching pattern;
`DbugRuntime` is the code state with the five shortcuts of FixTraceFlags, and refines it over whole runs.
`DbugInherit` says what a level takes over from the one beneath and what each command of a control string
changes. `DbugHeap`, `DbugStack` and `DbugSettings` put the lists on an explicit heap, with nodes
allocated and freed one by one, lists shared between neighbouring levels and edited in place; they refine
the value model, so nothing is freed twice, no live level reaches a freed node, no node is lost, and a pop
gives back what was there at the push. `DbugExplain`, `DbugRoundTrip` and `DbugReachable` prove the round
trip of `_db_explain_` and DbugParse for every level a run can produce, with the exact condition for lists.

**Statement reader** (`client/readline.cc`, `client/mysql.cc`). `LineReader` is the growing, shifting
buffer, with reads that return any number of bytes. `AddLine` edits a line in place; `StatementCut` states
what that means for a whole script, by a plain scanner that `CutRules` describes in terms of the text alone.
`LineComments` and `CommentSpaces` state what becomes of comments, `LineCommands` what one-letter commands
are given and leave. `BatchClient` composes reader and scanner into the batch loop, from the bytes of a
script to the statements executed, and `ScriptText` says what that is for a script's text.

**Completion** (`client/completion_hash.cc`, `client/mysql.cc`). `Completion` is the chained hash of
prefixes for an arbitrary hash function, `CompletionWalk` the generator that walks it.

**Threads** (`client/mysqlslap.c`, `client/mysqlimport.c`). `SlapScheduler` and `ImportPool` are step by
step interleavings over mutexes and condition variables, with spurious wake-ups, timeouts and failed thread
creation; they prove safety, absence of deadlock without relying on timeouts, and a bound on every run.
`SlapTask` holds the statement loops.

**Binary log reader** (`client/mysqlbinlog.cc`). `LoadProcessor` replays LOAD DATA through temporary
files on a modelled disk; `EventWindow` is the choice of events over several logs.

**Dump printers** (`client/mysqldump.c`, `client/mysqlimport.c`). `ExtendedInsert` packs rows,
`SqlQuoting` and `XmlPrinting` quote, each proved against the rule by which the output is read.

Places where the code does not do what its comments or a reader would expect are stated as such, with an
input that shows it and the exact condition: `DbugTrace.QuietChangeCanLeaveStaleBits`,
`DbugTrace.CopyCanLeaveStaleBits`, `DbugExplain.CopiedListDoesNotRoundTrip`, `Completion.AddedButNotReported`,
`LineComments.NestedVersionComment`, `LineComments.SlashBeforeEnd`, `CommentSpaces.SpaceStaysDue`,
`LoadProcessor.BackslashIsLost`.

## Model

| member | source | states |
|---|---|---|
| DbugRuntime.CodeState.FixTraceFlags | dbug/dbug.c:701-771 | with its early returns, the call leaves in every frame exactly the TRACE_ON bit of a full rescan from the bottom frame (which bit that is, RescanForced and RescanInherits say), and changes neither the level nor the current function |
| DbugRuntime.CodeState.FixHelper | dbug/dbug.c:675-697 | the recursive helper recomputes the bits of all frames in order, each from the one below it |
| DbugRuntime.CodeState.Enter | dbug/dbug.c:1094-1138 | entering a function pushes a frame with the bit its rule and the frame below give it, as EnterForced and EnterInherits say |
| DbugRuntime.CodeState.Return | dbug/dbug.c:1160-1196 | returning restores the caller's name and drops one frame |
| DbugRuntime.CodeState.Set | dbug/dbug.c:792-802 | setting replaces the top settings (or pushes above the initial ones); if the parser reports that the function list may have changed, every bit is then that of a rescan, otherwise no bit changes |
| DbugRuntime.CodeState.Push | dbug/dbug.c:822-831 | pushing parses into a new level, with the same rule for the bits |
| DbugRuntime.CodeState.Pop | dbug/dbug.c:886-902 | popping never removes the initial level; when a level is removed, every bit is then that of a rescan |
| DbugRuntime.CodeState.Execute | dbug/dbug.c:675-902 | any run of enter, return, set, push and pop with the shortcuts ends in the state of the specification's run, which makes a full rescan after every pop and every reported change of the function list |
| DbugRuntime.SearchList | dbug/dbug.c:1495-1509 | the search loop gives the order-sensitive verdict of the list, with the SUBDIR bit for names it does not match |
| DbugRuntime.ListFlags | dbug/dbug.c:1518-1524 | the loop finds whether any element has SUBDIR and whether any has INCLUDE |
| DbugRules.RescanForced | dbug/dbug.c:1667-1683 | if the frame's level is within the depth limit and the first pattern that matches the process includes it (or none matches and none includes), the first pattern that matches the function decides the bit, if it is a SUBDIR pattern with one flag |
| DbugRules.RescanInherits | dbug/dbug.c:675-697 | beyond the depth limit, for a process that is shut out, and without such a pattern, the frame has the bit of its caller, or at the bottom the list's default, which is on exactly when no element includes |
| DbugRules.EnterForced | dbug/dbug.c:1094-1138 | the same rule for the frame that entering a function pushes, with the level it gets |
| DbugRules.EnterInherits | dbug/dbug.c:1094-1138 | otherwise the new frame has its caller's bit |
| DbugTrace.RunKeepsInv | dbug/dbug.c:675-771 | over every run, a function list without a SUBDIR element forces every frame to the list's default, and the level is the number of frames |
| DbugTrace.ChangeMakesConsistent | dbug/dbug.c:701-771 | after every set, push or pop that calls FixTraceFlags, each frame's bit is the one a rescan would give |
| DbugTrace.EnterKeepsConsistent | dbug/dbug.c:1094-1138 | entering a function keeps all bits equal to those of a rescan |
| DbugTrace.ReturnKeepsConsistent | dbug/dbug.c:1160-1196 | returning keeps all bits equal to those of a rescan |
| DbugTrace.QuietChangeIsConsistentIff | dbug/dbug.c:792-831 | after an operation that makes no rescan, the bits are still those of a rescan if and only if no frame whose rule in effect (depth and process test, first match in the old and the new list) has changed gets another bit from it |
| DbugTrace.QuietAboveInitial | dbug/dbug.c:498-507 | above the initial level the list is the same one, so only frames with a SUBDIR rule whose depth or process test turns out differently count |
| DbugTrace.QuietList | dbug/dbug.c:485-507 | without a rescan the function list is the same, or reversed when a level is put above the initial one |
| DbugTrace.CopyCanLeaveStaleBits | dbug/dbug.c:495-495 | after `f,m*/:-f,*n/` in the initial settings and entering `main`, pushing `+F` reverses two rules that both match and leaves a bit that a rescan would clear |
| DbugTrace.QuietChangeCanLeaveStaleBits | dbug/dbug.c:792-802 | the run entering `main` under `f,main/` and then setting `+p,x` leaves a bit that a rescan would clear |
| DbugSettings.SettingsStack.Push | dbug/dbug.c:822-831 | on the heap with lists shared by address, a push keeps the invariant (lists disjoint or deliberately shared, no dangling node, no lost node) and has the value model's result, which RelativePush and AbsolutePush describe |
| DbugSettings.SettingsStack.Set | dbug/dbug.c:792-802 | the same for set, which edits the top level's lists in place |
| DbugSettings.SettingsStack.Pop | dbug/dbug.c:886-902 | the same for pop, which frees exactly the lists the level does not share |
| DbugSettings.SettingsStack.SetInit | dbug/dbug.c:860-867 | setting the initial settings changes no other level |
| DbugSettings.SettingsStack.DbugParse | dbug/dbug.c:451-668 | parsing at any level changes the lists and scalars of that level only, as the value model says; the members of DbugInherit say what each field changes |
| DbugSettings.SettingsStack.FreeState | dbug/dbug.c:1573-1596 | exactly the unshared lists of the level are freed |
| DbugSettings.SettingsStack.UnshareList | dbug/dbug.c:528-529 | a shared list is copied before it is edited and the level beneath keeps its own |
| DbugSettings.Execute | dbug/dbug.c:451-902 | every run of set, push, pop and set-init on the heap refines the run on values and keeps the heap invariant throughout |
| DbugSettings.RunKeepsBeneath | dbug/dbug.c:231-231 | however lists are shared and edited above a level, the levels beneath keep their contents |
| DbugSettings.PushRunPop | dbug/dbug.c:822-902 | a push, any run above it and the matching pop give back exactly the settings of before |
| DbugInherit.RelativePush | dbug/dbug.c:477-508 | after a relative push the levels beneath are as they were, and the new level has from the one beneath every switch, number, output and list that no field of the control string mentions; above the initial level the output is stderr and lists are copies in reverse order |
| DbugInherit.RelativeSet | dbug/dbug.c:792-802 | a relative set changes in the top level only what a field mentions, and nothing in the levels beneath |
| DbugInherit.SetAboveInitial | dbug/dbug.c:792-802 | on the initial level alone, set is push |
| DbugInherit.AbsolutePush | dbug/dbug.c:463-476 | an absolute control string starts from everything off, and what no field mentions stays off |
| DbugInherit.AbsoluteSet | dbug/dbug.c:463-476 | the same for set |
| DbugInherit.SwitchTurns | dbug/dbug.c:558-660 | each of the seven switch letters turns its own switch on or off and nothing else |
| DbugInherit.DepthChanges | dbug/dbug.c:635-654 | `+t,n` adds to the depth limit and `-t,n` subtracts from it, in 32 bits; tracing is on exactly when the result is not zero |
| DbugInherit.DepthDefault | dbug/dbug.c:635-654 | without a number `+t` sets the limit to 200 and `-t` to 0 |
| DbugInherit.DelayChanges | dbug/dbug.c:539-541 | `D` sets the delay, `r` the level of the caller |
| DbugInherit.PatternAppended | dbug/dbug.c:1378-1428 | a pattern that is a prefix of none in the list is appended with its flag |
| DbugInherit.PatternHits | dbug/dbug.c:1392-1425 | the first element it is a prefix of gains the flag and the SUBDIR mark, or is removed when it is excluded without having been |
| DbugInherit.FunctionField | dbug/dbug.c:542-557 | an `f` field edits the function list, in reverse order first if it was shared |
| DbugHeap.Allocator.ListCopy | dbug/dbug.c:1453-1472 | copying allocates new nodes only and gives the contents in reverse order |
| DbugHeap.Allocator.ListAddDelInPlace | dbug/dbug.c:1378-1428 | the in-place edit of a linked list, relinking and freeing nodes, has the value function's contents and touches no other list |
| DbugHeap.Allocator.AddTokenInPlace | dbug/dbug.c:1392-1425 | one token updates or removes the first element it is a prefix match for, or appends a node |
| DbugHeap.Allocator.FreeList | dbug/dbug.c:1774-1784 | exactly the nodes of the list are freed, each once |
| DbugStack.MovedGood | dbug/dbug.c:231-231 | replacing one list of one level, when its old nodes are its own, keeps every other list and the heap invariant |
| DbugExplain.ListRoundTrip | dbug/dbug.c:916-985 | a printed list parses back to the same elements if and only if each has exactly one flag and, in print order, no pattern is a prefix of an earlier one; then the result is the list, includes first |
| DbugExplain.CopiedListDoesNotRoundTrip | dbug/dbug.c:1453-1472 | the list `ab,a`, which copying the prefix-ordered `a,ab` produces, is printed and parsed to a different list |
| DbugExplain.ReorderIsPermutation | dbug/dbug.c:971-985 | print order is a permutation of the list |
| DbugExplain.FieldsOfJoin | dbug/dbug.c:2011-2017 | fields joined by colons are read back one by one, file names with colons included where the tokenizer keeps them |
| DbugRoundTrip.ParseExplained | dbug/dbug.c:996-1030 | parsing the printed string over any previous stack rebuilds delay, depth, switches, output and lists |
| DbugRoundTrip.RoundTrip | dbug/dbug.c:916-1030 | for every explainable level without a sub-level whose numbers are ints, the scalars come back exactly (flush and append are not printed for stderr) and each list survives exactly under its condition |
| DbugReachable.StackStaysExplainable | dbug/dbug.c:451-668 | every level that push, set or pop can produce satisfies the hypothesis of the round trip |
| LineReader.LineBuffer.FillBuffer | client/readline.cc:148-216 | a fill keeps the unread text, appends what was read, grows the buffer at most once and not beyond the limit, and stays within its bytes |
| LineReader.LineBuffer.MakeRoom | client/readline.cc:148-186 | there is no room exactly when the buffer is full and may not grow |
| LineReader.LineBuffer.InternReadLine | client/readline.cc:218-256 | the next piece is everything up to the next newline or NUL, or a part of it exactly when the full buffer may not grow |
| LineReader.LineBuffer.BatchReadline | client/readline.cc:57-70 | the next line without its newline and the carriage return before a real newline; at the end of the input nothing, for ever |
| LineReader.ReadPieces | client/readline.cc:148-256 | for every input, read pattern and size limit the raw pieces concatenate to exactly the input; after an error, to a prefix |
| LineReader.ReadLines | client/readline.cc:57-70 | for NUL-free input whose lines fit the limit, successive calls return exactly the lines, then nothing |
| LineReader.ReadStrings | client/readline.cc:83-140 | strings given on the command line come back as their lines |
| ScriptText.LinesOf | client/readline.cc:57-70 | the lines of a text made of lines with newlines or carriage return and newline are those lines; a last line needs no end |
| AddLine.Client.AddLine | client/mysql.cc:2071-2343 | editing the line in place, never writing ahead of what was read, has the effect of the line scanner on buffer, quote, comment state, delimiter and statements handed over, one-letter commands and their parameters included, for every effect commands and statements may have |
| AddLine.Client.Round | client/mysql.cc:2090-2314 | each round of the loop, whatever branch it takes, does one step of the line scanner |
| AddLine.Client.RunCommand | client/mysql.cc:2131-2165 | a one-letter command gets the statement so far and the rest of the line, its effect is taken over, and its parameters are skipped |
| AddLine.CommandResumes | client/mysql.cc:2153-2164 | after a command with parameters reading goes on right behind the first delimiter after it, or the line is over |
| LineCommands.CommandInLine | client/mysql.cc:2116-2165 | after quiet text a command is given its letter, the statement so far with leading space removed, the line from its backslash on and the delimiter; the buffer and delimiter it leaves are in force for the rest of the line, or the client ends |
| LineCommands.CommandEndsLine | client/mysql.cc:2116-2165 | a line that ends in a command carries exactly what the command left to the next line, with a newline if that is a statement |
| AddLine.Client.EndOfLine | client/mysql.cc:2316-2341 | the newline joins the statement unless the line was cut, is a DELIMITER command, lies in a comment or there is no statement |
| StatementCut.StatementsAreThePieces | client/mysql.cc:2071-2343 | for scripts without client commands and comment openers outside quotes, whose statements neither fail nor change the delimiter, the statements handed over are the pieces a plain scanner cuts from the newline-joined text at delimiters outside quotes, leading space trimmed, escaped characters kept together and without effect on quotes, with the quote state carried across lines |
| StatementCut.LineAgrees | client/mysql.cc:2071-2343 | one line keeps the client and the plain scanner in agreement |
| StatementCut.LineEnds | client/mysql.cc:2316-2341 | the same for any quiet line: its newline joins the statement unless the reader cut the line or what it adds starts with the DELIMITER word outside strings |
| CutRules.TextKept | client/mysql.cc:2071-2343 | the pieces, each with its delimiter, and what is left are the text, unchanged and in order, if no line ends in a backslash |
| CutRules.CutAtDelimiter | client/mysql.cc:2177-2218 | outside strings the first delimiter ends the piece and is not part of it |
| CutRules.BareKept | client/mysql.cc:2071-2343 | outside strings text in which no delimiter starts is kept |
| CutRules.QuotedKept | client/mysql.cc:2302-2312 | a string in any of the three quotes is kept whole, delimiters and other quotes included |
| CutRules.PairKept | client/mysql.cc:2116-2130 | a backslash and the character after it are kept together and have no other effect |
| StatementCut.CutInTwo | client/mysql.cc:2177-2218 | no delimiter reaches over a newline, so cutting line by line is cutting the whole text |
| LineComments.EndClosesIff | client/mysql.cc:2259-2301 | inside a comment the first end mark closes it if and only if no version comment is open around it, the text before the mark mentions none and does not end in a slash |
| LineComments.CommentClosesIff | client/mysql.cc:2259-2301 | the same for a whole comment on a line |
| LineComments.CommentVanishes | client/mysql.cc:2259-2294 | a closed block comment within a line, nested opening marks included, is read as if it were not there, except that one space is due before the next character (CommentIsASpace says what becomes of it) |
| CommentSpaces.CommentIsASpace | client/mysql.cc:2259-2312 | a line with a closed comment after some text of a statement is read as the line with a space in its place, or with nothing if a space follows |
| CommentSpaces.StatementWithComment | client/mysql.cc:2259-2312 | the statement handed over is the text before the comment with leading space removed, one space unless the text after starts with one, and that text |
| CommentSpaces.CommentBetweenWords | client/mysql.cc:2259-2312 | for any two words and any closed comment, the line hands over the two words with one space between them |
| CommentSpaces.CommentOverLines | client/mysql.cc:2259-2312 | the same for a comment over any number of lines; its newlines leave nothing |
| CommentSpaces.CommentEndsLine | client/mysql.cc:2276-2294 | a comment at the end of a line leaves only the newline |
| CommentSpaces.CommentBeforeDelimiter | client/mysql.cc:2177-2294 | a comment before a delimiter leaves nothing in the statement that ends there |
| CommentSpaces.SpaceStaysDue | client/mysql.cc:2304-2311 | but the space stays due: for any words a and b and any closed comment, the line with a, the comment, a delimiter, b and a delimiter hands over a and then b with a space before it |
| CommentSpaces.LineCommentIsGone | client/mysql.cc:2219-2258 | a line with a comment to its end is the text before it and a newline |
| LineComments.LineCommentVanishes | client/mysql.cc:2219-2258 | a comment to the end of the line adds nothing to the statement |
| LineComments.LineInComment | client/mysql.cc:2071-2343 | a line without an end mark inside a comment, whatever it mentions, changes nothing that is carried to the next line |
| LineComments.CommentEnds | client/mysql.cc:2276-2294 | the line that ends a comment goes on as the rest of it alone would |
| LineComments.NestedVersionComment | client/mysql.cc:2276-2301 | after `/* /*! */` the client is still inside the comment, because the mentioned version comment takes the end mark |
| LineComments.SlashBeforeEnd | client/mysql.cc:2259-2274 | after `/*a/*/` the client is still inside the comment; after `/*a/*b*/` it is not |
| BatchClient.ReadAndExecute | client/mysql.cc:1863-2005 | from the bytes of a script, for every way the reads split it, the client commands and the statements executed are those of the plain scanner over its lines, byte order mark skipped, with the delimiter a client command sets and the last statement sent without one if it is not blank; reading fails only if a read does |
| ScriptText.BomIsSkipped | client/mysql.cc:1881-1892 | a byte order mark before a script changes nothing, and nothing is taken from a script without one |
| ScriptText.NextLine | client/mysql.cc:1960-1981 | a line is a client command exactly if it names one, no string is open and named commands are on or only space precedes it in its statement; it then leaves the statement alone and sets the delimiter, and every other line is text |
| ScriptText.LastNeedsNoDelimiter | client/mysql.cc:1982-1994 | a script whose text ends in a statement without a delimiter sends it, as it stands, after all the others |
| ScriptText.LastSent | client/mysql.cc:1982-1994 | what is left at the end is sent without the blanks around it, and nothing if there is nothing else |
| BatchClient.ScriptIsText | client/mysql.cc:1863-2005 | a script without client commands is cut as one text |
| BatchClient.RemoveControl | client/mysql.cc:4778-4785 | the unprintable end of the last statement is removed |
| Completion.IndexMeaning | client/completion_hash.cc:60-111 | a key is present exactly when it is a non-empty prefix of an added word; its entries are exactly those words, newest first, and it was opened for the oldest |
| Completion.HashTable.Update | client/completion_hash.cc:60-111 | for every hash function an update changes the entries of its key only, in whichever chain |
| Completion.HashTable.AddWord | client/completion_hash.cc:219-225 | adding a word leaves the index of the word list with that word at its end |
| Completion.HashTable.FindAllMatches | client/completion_hash.cc:158-171 | a bucket is found exactly when the prefix is not empty and some added word has it; it lists those words, newest first, and counts them |
| Completion.HashTable.FindLongestMatch | client/completion_hash.cc:173-202 | following one word and comparing counts gives exactly the longest prefix common to all added words that extend the given one |
| Completion.HashTable.Exists | client/completion_hash.cc:136-156 | a word is reported exactly when the first added word with it as prefix is the word itself |
| Completion.OldestIsFirst | client/completion_hash.cc:93-111 | the oldest match is the first added word with the prefix |
| Completion.AddedButNotReported | client/completion_hash.cc:149-149 | after adding `ab` and `a`, `a` is an added word that is not reported |
| CompletionWalk.Complete | client/mysql.cc:2500-2576 | a prefix lists the added words with it, newest first; empty text lists every non-empty word exactly as often as it was added, nothing on an empty table |
| CompletionWalk.Generator.Generate | client/mysql.cc:2500-2576 | each call returns the next word of the listing and keeps the rest for later calls; at the end it returns nothing |
| CompletionWalk.WalkIsTheWords | client/mysql.cc:2530-2573 | though a word lies in one bucket per prefix, the walk emits it only from its own bucket |
| SlapScheduler.RunIsSafe | client/mysqlslap.c:1729-1817 | in every state of every interleaving: no worker is past the barrier while the wakeup flag is set, the counter is the number of workers counted in and not out and never negative, nobody sleeps at the barrier after the broadcast, and after the return every worker is at its end |
| SlapScheduler.StepKeepsInv | client/mysqlslap.c:1947-1959 | every step of every thread, and every spurious wake-up, keeps the invariant |
| SlapScheduler.NoDeadlock | client/mysqlslap.c:1777-1785 | until the scheduler returns some thread can move without a timeout: no signal is lost |
| SlapScheduler.RunIsBounded | client/mysqlslap.c:1729-1817 | the length of a run is bounded by the workers' work and the number of wake-ups without a signal |
| SlapScheduler.RunEndsReturned | client/mysqlslap.c:1729-1817 | a run that no thread can continue has the scheduler returned and every worker done |
| SlapTask.RunTask | client/mysqlslap.c:1850-1949 | with a limit exactly that many queries, the text of query j being statement j modulo the length of the list; without one, the list once; without a rate no commit, with one a commit right after every query whose number is a multiple of it, one at the end, and no other |
| SlapTask.RemIs | client/mysqlslap.c:1850-1949 | the turn of a query is the remainder of its number |
| SlapTask.LogCounts | client/mysqlslap.c:1932-1940 | the log holds the asked number of queries and the uncommitted ones are always fewer than the rate |
| SlapTask.CreateSchema | client/mysqlslap.c:1641-1679 | exactly the asked number of statements is run |
| SlapTask.CreatedOnce | client/mysqlslap.c:1674-1679 | the statements are run in order; the creating one is first and never again, the others take turns in order |
| ImportPool.RunIsSafe | client/mysqlimport.c:611-645 | in every interleaving the counter is the live workers plus the reserved slot and at most the limit, and the files tried are the first ones, in order, each once, failed creations included |
| ImportPool.LeftMeansDone | client/mysqlimport.c:647-659 | when the wait loop is left every file was tried and every created worker has finished loading |
| ImportPool.StepKeepsInv | client/mysqlimport.c:552-590 | every step of every thread keeps the invariant |
| ImportPool.NoDeadlock | client/mysqlimport.c:622-658 | until the main thread leaves, some thread can move without a timeout |
| ImportPool.RunIsBounded | client/mysqlimport.c:611-662 | a run is bounded by the loading work and the number of timeouts |
| LoadProcessor.ProcessAll | client/mysqlbinlog.cc:801-959 | over every sequence of load events on any ids, every file named in a printed statement holds at the end exactly its load's blocks, and files that were there before are untouched; printed names are the files' names if and only if neither the directory nor a printed load's name has a backslash; the program gives up only at an event that opens a load when all its thousand names are taken |
| LoadProcessor.OpenedIsBlocks | client/mysqlbinlog.cc:420-486 | an open load is its first block and the blocks appended to its id since its latest opening, in order, whatever other ids do |
| LoadProcessor.Executes | client/mysqlbinlog.cc:860-959 | the execution of an open load prints one statement, for its first block and all appended ones, or none if its database is filtered out, and closes the load in both cases |
| LoadProcessor.PrintsNothing | client/mysqlbinlog.cc:801-959 | no other event prints a statement or closes a load, an execution of the other kind included |
| LoadProcessor.Processor.ProcessFirst | client/mysqlbinlog.cc:420-486 | an opening event gets a file nobody uses; it fails if and only if all thousand names are taken, and then changes nothing |
| LoadProcessor.Processor.CreateUniqueFile | client/mysqlbinlog.cc:179-191 | the created file did not exist; failure means that all thousand names do |
| LoadProcessor.Processor.ProcessAppend | client/mysqlbinlog.cc:548-586 | a block goes to the file open under its id; without one nothing changes |
| LoadProcessor.Processor.ProcessExecute | client/mysqlbinlog.cc:860-959 | the executed load is forgotten and its file is never written again |
| LoadProcessor.ForwardSame | client/mysqlbinlog.cc:606-614 | a path is printed unchanged if and only if it has no backslash |
| LoadProcessor.BackslashIsLost | client/mysqlbinlog.cc:606-614 | a load into the directory `a\` is printed with a name that is not its file's |
| EventWindow.Reader.DumpLogs | client/mysqlbinlog.cc:2210-2220 | the events passed, in order, are among the events before the one that stops the program exactly the format descriptions and, from the first event with the number and time asked for, those of the server or rotations; all of them are before the stop time and, in the last log, before the stop position; the program stops exactly at the first such event that is not |
| EventWindow.RunMeans | client/mysqlbinlog.cc:739-770 | the same of the window's definition, over the concatenated events |
| EventWindow.Reader.ProcessEvent | client/mysqlbinlog.cc:739-770 | one event opens the window, is filtered, stops the program or is passed, with the 64-bit record counter |
| EventWindow.WindowIsContiguous | client/mysqlbinlog.cc:739-770 | without the server filter the passed events other than format descriptions are all the events from the first in the window up to the stop |
| ExtendedInsert.DumpRows | client/mysqldump.c:3536-3776 | every row is written once and in order, and a statement is closed only when the next row would take the estimate to the limit |
| ExtendedInsert.FittingIsShort | client/mysqldump.c:3742-3763 | in bytes of the text: a statement of two or more rows, with one byte a row and three more, is below the limit; a statement is closed exactly when with the next row it would not be |
| ExtendedInsert.TextOfRows | client/mysqldump.c:3742-3776 | the rows of a statement follow its head, separated by commas and ended by a semicolon and a newline |
| ExtendedInsert.GreedyIsBest | client/mysqldump.c:3742-3763 | no other packing of the rows within the limit has fewer statements |
| SqlQuoting.EscapedIsOneLiteral | client/mysqldump.c:3274-3302 | for every option value the escaped value in quotes is one literal that closes at the last quote and means what the user wrote, a lone last backslash standing for itself |
| SqlQuoting.DumpFieldEscape | client/mysqldump.c:3274-3302 | the dump program appends the escaped value in quotes |
| SqlQuoting.ImportFieldEscape | client/mysqlimport.c:526-547 | the import program writes the same body in place, into at most two bytes per character, and nothing else |
| SqlQuoting.EscapedLength | client/mysqlimport.c:526-547 | the body has at most twice the length of the value |
| SqlQuoting.QuotedNameReads | client/mysqldump.c:1582-1599 | a quoted name is read back as the name, whatever it contains |
| SqlQuoting.QuoteName | client/mysqldump.c:1582-1599 | the loop doubles the quote character and nothing else |
| SqlQuoting.LikeMatchesTheName | client/mysqldump.c:1624-1643 | read as a literal and then as a pattern, the quoted name matches that name and no other string |
| SqlQuoting.QuoteForLike | client/mysqldump.c:1624-1643 | the loop writes the pattern text in quotes |
| XmlPrinting.CdataReadsBack | client/mysqldump.c:1806-1829 | read by section 2.7 of XML 1.0, what is printed gives back the text between two newlines, whatever brackets it contains |
| XmlPrinting.PrintXmlCdata | client/mysqldump.c:1806-1829 | the loop splits each end mark of the text over two sections |
| XmlPrinting.CommentIsWellFormed | client/mysqldump.c:1917-1940 | between the marks there is no double hyphen (section 2.5 of XML 1.0), and every run of hyphens is one hyphen |
| XmlPrinting.PrintXmlComment | client/mysqldump.c:1917-1940 | the loop drops each hyphen that precedes another |

## Left out

- The debug output itself, profiling, output file errors, `_db_setjmp_` and `_db_longjmp_`, thread start-up in dbug: file and thread I/O around the modelled state.
- DbugRoundTrip.RoundTrip: printing into a buffer that is too short is not modelled, nor is the profiling list, which no control string can fill here.
- DbugRuntime.CodeState.Execute: set-init is not one of its operations, because it does not recompute the bits; the settings side of it is in `DbugSettings`.
- LineReader.ReadLines: a NUL in the input ends a line and the byte after it is overwritten, so lines are promised for NUL-free input only; `ReadPieces` has no such condition.
- AddLine.Client.AddLine: multi-byte character sets, preserved comments and command history; what commands and statements do is given as a function, and the line has no NUL in it.
- StatementCut.StatementsAreThePieces: lines with comments are the subject of `LineComments` and `CommentSpaces`, lines with commands of `LineCommands`; a statement that fails is covered by `AddLine.Client.AddLine` only.
- BatchClient.ReadAndExecute: interactive mode; client commands that change the statement so far or end the client; space and printable characters are those of ASCII.
- Completion.HashTable.AddWord: failing allocation, the 32-bit wrap of a bucket's count, and the particular hash function, which is arbitrary here.
- CompletionWalk.Generator.Generate: words are only added; cursors that point into a table emptied for a rebuild are not modelled.
- SlapScheduler.RunIsSafe: a failing thread creation ends the program and is not a step; timing and statistics.
- SlapTask.RunTask: connections, reconnecting at the detach rate and the key appended to prefixed statements; with a limit the list must not be empty, as the source would loop for ever.
- LoadProcessor.ProcessAll: errors of the file system other than an existing name, and the formats before version 3 of the log.
- EventWindow.Reader.DumpLogs: the database filter, the printing of events and its errors, and how a log is opened and positioned.
- ExtendedInsert.DumpRows: how a row's text is built, and the other output modes.
- SqlQuoting.QuoteName: whether a name needs quotes is given.
- Connection set-up, options, prompts, pagers, the remaining client programs and the server: no modelled state.
