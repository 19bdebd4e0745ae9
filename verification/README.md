# uxmpp, verified

A Dafny model of the parts of the uxmpp client library whose correctness rests on state, on
interleaving or on exact arithmetic, with proofs of what they promise. `dafny verify dfyconfig.toml`
checks everything.

Objects whose methods change fields are classes here, with the same fields, loops and branches. Each
method is proved equal to a function on a plain value (`Abs()`, `Value()`), and the theorems are proved
about those functions, over all inputs and all runs. Clocks, sockets, the resolver, the XML parser's
chunking, and what other threads, callbacks and listeners do are arbitrary values or arbitrary steps.

| files | what they model |
|---|---|
| `Base64Tables`, `Base64` | base64 (section 4 of RFC 4648): tables, in-place loops, the four-state decoder |
| `Xml` | object trees, escaping and printing, for every iteration order of each hash map in them |
| `XmlSyntax` | events, a tokenizer for the printed subset of XML, and the trees behind both |
| `XmlMeaning` | what a tree of tags means, with namespaces passed down as an environment |
| `XmlMachine`, `XmlInputStream` | the handlers with their element stack: as a machine, and as an object |
| `XmlRoundTrip` | printing and then parsing |
| `PollProtocol`, `PollInvariants`, `PollSteps`, `PollHistory` | the connection manager as a concurrent protocol, its invariants and theorems |
| `PollService` | that every pass handles every entry, and that what is ready is performed and completed |
| `PollReuse` | a descriptor reused while it is listed for a connection that is gone: when a wakeup is lost |
| `ConnectionManager` | the same on arrays, maps and queues; every piece between lock and unlock is one protocol step |
| `XmlStream` | the receive queue and its thread, across runs of the stream |
| `Session`, `SessionSafety`, `SessionEvents`, `SessionObject` | the session state machine with re-entrant listeners: functions, theorems about runs, what each received object does, object |
| `Jid`, `Roster`, `Stanza`, `StanzaObject`, `Correction` | identifiers, roster pushes, in-place stanza edits, message correction |
| `Strings`, `Sequences` | searching in strings, sequences in general |

## Results

* **Printing and parsing.** For every object with writable names, the printed text is accepted if and
  only if no tag repeats an attribute name (an attribute `xmlns` beside an own namespace, or `xmlns:a`
  beside an alias `a`, is printed twice). It then tokenizes to the events of the object's tree, and
  feeding them to a stream adds exactly one child to the open element. That child equals the object if
  and only if `Faithful` holds. Its namespace clause is the exact condition:
  a prefix that is declared as something else, or equal to the element's own `xmlns`, or an own `xmlns`
  that is a declared prefix, does not come back.
  The start part, the children and content, and the end part, printed one after the other, are what the
  whole is printed as.
* **Namespaces.** Looking names up by walking the element stack is lexical scoping (section 6 of
  Namespaces in XML 1.0) with two differences of the code: an element does not see the prefixes it
  declares itself, and a namespace taken from `xmlns` is looked up once more as a prefix. Empty entries
  that look-ups leave in the maps are invisible, and attribute order is irrelevant. A declared prefix
  becomes exactly what the nearest declaration says, another namespace stays, and none becomes the
  default one (`NormalizeRules`, `MeaningRules`, `ScopeIsNearest`).
* **No lost wakeup.** In every reachable state, if something is queued for a registered connection,
  then the commands still in the pipe, applied in order to the present poll list, leave its descriptor
  listed for that connection and polled in that direction. The steps assume that pipe writes succeed,
  that operations are queued on open descriptors and carry a callback, that a connection is closed
  after a cancel and not unregistered inside its own callback, and that no connection gets to have a
  descriptor open that the list still holds for one that is gone. Descriptors may be reused otherwise,
  also with commands about them pending. In return, cancelled and idle descriptors do leave the list.
* **Descriptors reused too early.** The last of these assumptions is needed. Without it the worker may
  come to handle the dead entry, and the removal it then requests
  (src/uxmpp/io/ConnectionManager.cpp:433-444) lands behind the new connection's command. In every
  reachable state, whether a connection opens such a descriptor and queues an operation
  (`ReuseLosesWakeup`), or has it open already when the other one is unregistered
  (`UnregisterLosesWakeup`), the worker can lose the wakeup exactly if the entry is `Exposed`: it is
  ready and still ahead in this pass, or some round before the pending removal is dispatched can find it
  ready, because it is polled by then or has a more-flag in the first. If the pipe has nothing else
  about the new connection, that takes another command ahead of the removal (`PlainExposed`).
  `LosingReachable` and `KeepingReachable` give a reachable state of either kind, both by destroying a
  connection and opening its descriptor anew, `OpenedReachable` one for the other order.
* **The worker serves what is ready.** Whatever clients do meanwhile, before a pass is over every entry
  has been handled in each direction, on what poll reported of it and on its more-flag. If something is
  queued for its connection, a result leads to the callback of exactly the front operation, and the
  return of the callback completes it, unless it was cancelled. More is expected exactly if the whole
  size was done. What is gone or idle is given up, and nothing else is touched.
* **The worker and the operations.** At every poll the timeout is zero exactly if a more-flag is set;
  the poll list has no duplicates and matches the descriptor map; every accepted operation is still
  queued, completed or dropped; callbacks come in queue order and never twice, also when a callback
  cancels and queues anew.
* **Receive queue.** What was accepted while running is what was handed out followed by what is queued,
  over all runs of the stream. While n objects are queued the thread is not stuck, and it has handed out
  all of them, in order, once it took 1 + 2n steps, if no stop comes first. A stop that comes while the thread empties the queue does not cut it
  short, and the thread then ends after finitely many of its own steps.
* **Session.** Whatever the listeners call, states follow the matrix (so bound comes only straight
  after negotiating, closing is followed only by closed), `stop` and `change_state` terminate, bound
  implies the jid that was received, and at most one end tag is written per run unless somebody asks for
  a fast stop, which may write a second one and then ends the stream. Two things go wrong. A stop before
  the stream is connected is lost (`LostStop`): over all runs, a running stream of a closing session has
  not said its end tag exactly if the session was closing before the stream was connected. And
  while our end tag waits for the peer's, the timer that would end the stream is armed exactly if the
  stream was not reset since, because a reset clears all timers (src/uxmpp/XmlStream.cpp:340-345), also
  when it answers a late object (`ResetStopsTimer`).
  What a received object does is told by its namespace, tag, part, attributes and children: when it sets
  the error, stores features, starts negotiation, binds and with which jid, closes, ends the stream, and
  what it is answered with, each if and only if. A run as a whole is the run of the state machine that
  tries the addresses in order, up to the first whose stream runs, and takes every input.
* **Base64.** Encoding is the RFC's regrouping, of length 4*ceil(n/3), and injective. Decoding returns
  the input followed by one zero octet whenever n is not divisible by 3, writes exactly
  n - floor(n/4) octets for n letters, and ignores white space.
* **Tables.** `Jid(to_string(j)) == j` exactly for the identifiers of `Printable`; a roster push is a
  map update exactly if no duplicate is removed, and a removal of an unknown JID appends the item; the
  stanza setters are read back and leave all other nodes alone; a body is read in the language that is
  asked for, which a node may have from its stanza; each correctable message is the last one
  sent to its JID and the replace ids form an unbroken chain. A reset of a bare JID goes by the printed
  prefix: of one that was parsed it forgets exactly the JIDs with its local part whose domain starts
  with its domain, so with `a@x.y` also `a@x.yz` (`ForgetsAnother`), or, if it has no domain, all whose
  local part starts with its local part.

Where the code and its documentation differ, the code is followed: a JID part of more than 1023
characters keeps what comes after its first 1023 characters (src/uxmpp/Jid.cpp:112-162), and decoding
leaves the final zero octet in place (src/uxmpp/utils.cpp:144-147).

## Model

| member | source | states |
|---|---|---|
| Base64.SextetsSameNumber | src/uxmpp/utils.cpp:68-73 | three octets and the four sextets made of them are the same 24-bit number |
| Base64.OctetsSameNumber | src/uxmpp/utils.cpp:120-143 | four sextets and the three octets made of them are the same 24-bit number |
| Base64.EncodeLength | src/uxmpp/utils.cpp:64 | encoded length is 4*ceil(n/3) |
| Base64.DecodeEncode | src/uxmpp/utils.cpp:58-148 | decoding an encoding gives the input, plus one zero octet from the final flush when the length is not divisible by 3 |
| Base64.EncodeInjective | src/uxmpp/utils.cpp:58-89 | different inputs have different encodings |
| Base64.DecodeBound | src/uxmpp/utils.cpp:153-162 | n letters give exactly n - floor(n/4) octets, never more than the 3*ceil(len/4) allocated |
| Base64.DecodeIgnoresSpace | src/uxmpp/utils.cpp:107-111 | white space inserted anywhere does not change the result |
| Base64.StopsAt | src/uxmpp/utils.cpp:107-116 | decoding stops at the first character that is neither white space nor one of the 64 letters |
| Base64.RegroupSnoc | src/uxmpp/utils.cpp:120-143 | the four-state switch extends the regrouping of the sextets read so far by one sextet |
| Base64.OrAdds | src/uxmpp/utils.cpp:69-84 | the bitwise or of non-overlapping bits is their sum |
| Base64.ToBase64 | src/uxmpp/utils.cpp:58-89 | the in-place loop with bit packing computes the RFC encoding; null gives the empty string |
| Base64.PutGroup | src/uxmpp/utils.cpp:67-75 | one round of the loop writes the four letters of the next three octets |
| Base64.PutRest | src/uxmpp/utils.cpp:76-86 | the last one or two octets become two or three letters, the rest stays padding |
| Base64.Switch | src/uxmpp/utils.cpp:120-143 | one sextet is absorbed into the written octets and the one held back; nothing else in the buffer changes |
| Base64.Flush | src/uxmpp/utils.cpp:144-147 | an octet held back is written at the end |
| Base64.CodeOf | src/uxmpp/utils.cpp:112-114 | the reverse table gives each character's value, or 65; the index is always in range |
| Base64.FromBase64Into | src/uxmpp/utils.cpp:101-148 | exactly the decoded octets are written into the caller's buffer and nothing beyond them |
| Base64.FromBase64 | src/uxmpp/utils.cpp:153-162 | the allocated buffer is always large enough and the result is the decoding |
| Base64Tables.LookUp | src/uxmpp/utils.cpp:41-46 | the alphabet table is table 1 of RFC 4648 |
| Base64Tables.ReverseLookUp | src/uxmpp/utils.cpp:47-53 | the reverse table inverts it and is 65 elsewhere |
| Xml.XmlEscape | src/uxmpp/XmlObject.cpp:35-66 | the escaping loop replaces the five special characters everywhere |
| Xml.ToString | src/uxmpp/XmlObject.cpp:92-187 | the printer's branches and loops compute the recursive printed form, for each part, shorthand and map order |
| Xml.PrintStart | src/uxmpp/XmlObject.cpp:132-146 | start tag: aliases, own xmlns, attributes |
| Xml.PrintChildren | src/uxmpp/XmlObject.cpp:160-178 | children in order, the unnamed ones leaving nothing |
| Xml.FullNameIs | src/uxmpp/XmlObject.cpp:415-427 | a full name is a tag in a namespace, or in the object's own xmlns |
| Xml.PartsMakeWhole | src/uxmpp/XmlObject.cpp:92-187 | start part, children, content and end part, printed in sequence, are the whole |
| XmlSyntax.StartThenEnd | src/uxmpp/XmlObject.cpp:132-153 | start and end part tokenize to the start tag with all declarations and attributes, and its end tag |
| XmlSyntax.BodyIsContent | src/uxmpp/XmlObject.cpp:105-110 | the body part unescapes to the content |
| XmlSyntax.UnescapeEscape | src/uxmpp/XmlObject.cpp:35-66 | unescaping an escaped string gives it back |
| XmlSyntax.TokenizePrinted | src/uxmpp/XmlObject.cpp:92-187 | the printed text of any writable object tokenizes to the events of its tree if no tag repeats an attribute name, and is rejected otherwise |
| XmlMeaning.TextSplit | src/uxmpp/XmlInputStream.cpp:398-409 | how text is split does not change what an element means |
| XmlMeaning.OpenDescribes | src/uxmpp/XmlInputStream.cpp:121-186 | what the attribute loop builds, said by the value of each name alone |
| XmlMeaning.OrderIrrelevant | src/uxmpp/XmlInputStream.cpp:121-186 | the same attributes in another order open the same element |
| XmlMachine.WalkIsScope | src/uxmpp/XmlInputStream.cpp:197-239 | walking the stack for a default or a prefix finds what lexical scoping gives |
| XmlMachine.NormalizeIsResolve | src/uxmpp/XmlInputStream.cpp:191-243 | normalisation by stack walk is resolution in the passed-down environment |
| XmlMachine.ScopeIsNearest | src/uxmpp/XmlInputStream.cpp:197-227 | the nearest element on the stack that declares a prefix or a default namespace counts, at last the top-level one |
| XmlMachine.NormalizeRules | src/uxmpp/XmlInputStream.cpp:191-243 | a declared prefix becomes its namespace, another one stays, none becomes the default; when it counts as default; nothing else changes |
| XmlMachine.MeaningRules | src/uxmpp/XmlInputStream.cpp:348-393 | the same for the object of a whole element, by its written prefix, its tag and its own xmlns |
| XmlMachine.InnerScope | src/uxmpp/XmlInputStream.cpp:146-178 | what an element declares counts for its children, what it does not comes from outside |
| XmlMachine.RunElement | src/uxmpp/XmlInputStream.cpp:285-409 | the events of any well-nested element push, fill and pop exactly its recursive meaning |
| XmlMachine.RunChild | src/uxmpp/XmlInputStream.cpp:285-409 | inside an open element it becomes the last child and nothing else changes |
| XmlMachine.RunFirstLevel | src/uxmpp/XmlInputStream.cpp:306-343 | directly inside the top element it is delivered, unless its namespace is internal |
| XmlMachine.FirstLevelDelivered | src/uxmpp/XmlInputStream.cpp:306-343 | told by the two internal namespaces: which first-level object is delivered |
| XmlMachine.RunOpenDocument | src/uxmpp/XmlInputStream.cpp:285-492 | an accepted, still open top element delivers its start object and the completed first-level objects, in order |
| XmlMachine.RunDocument | src/uxmpp/XmlInputStream.cpp:285-492 | a whole document delivers exactly its start, first-level objects and end, also when nested in rejected elements, and the stream waits for the next one |
| XmlMachine.ErrorSilences | src/uxmpp/XmlInputStream.cpp:542-633 | after a parse error and until a reset only inserted objects are delivered |
| XmlMachine.ResetRestores | src/uxmpp/XmlInputStream.cpp:497-516 | after a reset, in whatever state, the next document is delivered as by a new stream |
| XmlMachine.ChunksJoin | src/uxmpp/XmlInputStream.cpp:580-611 | where the input is cut into chunks does not matter |
| XmlMachine.NothingInternal | src/uxmpp/XmlInputStream.cpp:306-343 | for any events in any order, deliveries only grow and no parsed object with an internal namespace is delivered |
| XmlInput.TouchIsInvisible | src/uxmpp/XmlInputStream.cpp:220-227 | an empty entry inserted by a look-up changes no look-up |
| XmlInput.CleanWalk | src/uxmpp/XmlInputStream.cpp:191-243 | resolution is the same with and without such entries |
| XmlInput.XmlInputStream.constructor | src/uxmpp/XmlInputStream.cpp:248-254 | the fresh state |
| XmlInput.XmlInputStream.ParseXmlAttributes | src/uxmpp/XmlInputStream.cpp:121-186 | the attribute loop with its empty-value and empty-prefix exits |
| XmlInput.XmlInputStream.FindAlias | src/uxmpp/XmlInputStream.cpp:220-227 | the alias search finds the nearest non-empty one and its insertions change no resolution |
| XmlInput.XmlInputStream.NormalizeNamespace | src/uxmpp/XmlInputStream.cpp:191-243 | the resolved object; the stream's meaning is unchanged |
| XmlInput.XmlInputStream.StartStreamElement | src/uxmpp/XmlInputStream.cpp:414-492 | the top-level start handler is the machine's step |
| XmlInput.XmlInputStream.StartXmlNode | src/uxmpp/XmlInputStream.cpp:348-393 | the start handler is the machine's step |
| XmlInput.XmlInputStream.XmlCharacterData | src/uxmpp/XmlInputStream.cpp:398-409 | the text handler is the machine's step |
| XmlInput.XmlInputStream.EndXmlNode | src/uxmpp/XmlInputStream.cpp:285-343 | the end handler is the machine's step |
| XmlInput.XmlInputStream.Parse | src/uxmpp/XmlInputStream.cpp:542-611 | a chunk, with or without a parse error, is one machine input |
| XmlInput.XmlInputStream.InsertObject | src/uxmpp/XmlInputStream.cpp:617-633 | a valid inserted object is delivered |
| XmlInput.XmlInputStream.ResetStream | src/uxmpp/XmlInputStream.cpp:497-516 | reset gives the fresh state |
| XmlRoundTrip.MeaningOfPrinted | src/uxmpp/XmlObject.cpp:92-187 | the tree of a printed object means the object if and only if it is faithful in the scope |
| XmlRoundTrip.PrintThenParse | src/uxmpp/XmlInputStream.cpp:104-409 | print, tokenize, parse: accepted if and only if no tag repeats an attribute name; then one child more, equal to the object if and only if it is faithful in the scope of the open elements |
| XmlRoundTrip.PrintThenReceive | src/uxmpp/XmlInputStream.cpp:306-343 | at the first level a faithful object is what the handler gets |
| XmlRoundTrip.PrunedSameTree | src/uxmpp/XmlObject.cpp:100-103 | children without a tag leave no trace |
| PollInvariants.RemoveEntryKeeps | src/uxmpp/io/ConnectionManager.cpp:671-688 | removal by swap with the last keeps every other descriptor's events, revents and more-flags |
| PollInvariants.ApplyKeepsList | src/uxmpp/io/ConnectionManager.cpp:510-688 | every command keeps the list free of duplicates and the map's keys equal to the listed descriptors |
| PollInvariants.ApplyEffect | src/uxmpp/io/ConnectionManager.cpp:510-688 | what a command does to the list, seen at one descriptor and direction |
| PollSteps.StepKeepsWakes | src/uxmpp/io/ConnectionManager.cpp:187-688 | every step of client or worker keeps list, connections and pending wakeups in order |
| PollSteps.StepKeepsTrack | src/uxmpp/io/ConnectionManager.cpp:187-688 | after every step a listed descriptor is open at the connection it is listed for, or its removal is pending |
| PollHistory.DrainKeeps | src/uxmpp/io/ConnectionManager.cpp:510-688 | applying all pending commands leaves list and map in step and every listed descriptor at its connection |
| PollSteps.StepKeepsScan | src/uxmpp/io/ConnectionManager.cpp:365-409 | every step keeps the running timeout equal to the more-flags seen in this pass |
| PollHistory.StepKeepsHist | src/uxmpp/io/ConnectionManager.cpp:453-486 | every step, also between a callback's start and return, loses, repeats or overtakes no operation |
| PollHistory.NoLostWakeup | src/uxmpp/io/ConnectionManager.cpp:229-340 | in every reachable state a non-empty queue's descriptor is listed for its connection and polled once the pending commands are applied |
| PollHistory.CancelTakesOff | src/uxmpp/io/ConnectionManager.cpp:187-201 | after a cancel or an unregistration the pending commands take the descriptor off the list |
| PollHistory.IdleIsSwitchedOff | src/uxmpp/io/ConnectionManager.cpp:488-502 | handling a direction with nothing queued ends its polling once the pending commands are applied |
| PollHistory.LastIsSwitchedOff | src/uxmpp/io/ConnectionManager.cpp:480-502 | so does a callback that returns with nothing left |
| PollService.EveryEntryHandled | src/uxmpp/io/ConnectionManager.cpp:388-407 | before a pass is over every entry has been handled in each direction, and treated as ready exactly if it was reported or had a more-flag |
| PollService.PollTells | src/uxmpp/io/ConnectionManager.cpp:369-392 | after poll an entry has data or room exactly if it is polled for that and ready, or has a more-flag; the pipe is looked at first |
| PollService.ReadyIsPerformed | src/uxmpp/io/ConnectionManager.cpp:453-479 | in every reachable state, either direction: ready with something queued, a result leads to the callback of the front operation and changes nothing else |
| PollService.MoreIsExpected | src/uxmpp/io/ConnectionManager.cpp:464-471 | more is expected exactly if the size is not zero and all of it was done |
| PollService.PerformedIsCompleted | src/uxmpp/io/ConnectionManager.cpp:475-486 | whatever is called meanwhile but a cancel: the callback's return completes exactly that operation, stores the more-flag and makes the next poll return at once if there is more |
| PollService.NothingPerformed | src/uxmpp/io/ConnectionManager.cpp:425-465 | not ready, or told to wait: no queue, callback or history changes |
| PollService.GoneIsRemoved | src/uxmpp/io/ConnectionManager.cpp:433-443 | an entry whose connection is gone is polled for nothing and will be off the list |
| PollReuse.ReuseLosesWakeup | src/uxmpp/io/ConnectionManager.cpp:365-444 | in every reachable state: a connection that opens a descriptor listed for one that is gone, and queues an operation, can lose its wakeup exactly if the worker can come to handle the dead entry before the pending removal is dispatched |
| PollReuse.UnregisterLosesWakeup | src/uxmpp/io/ConnectionManager.cpp:187-201 | the same if the descriptor of a closed connection is open at another one already when the first is unregistered |
| PollReuse.PlainExposed | src/uxmpp/io/ConnectionManager.cpp:365-386 | when poll is called and the pipe has nothing about the new connection: exactly if another command stands ahead of the removal and the entry is polled or has a more-flag |
| PollReuse.LosingReachable | src/uxmpp/io/Connection.cpp:50-92 | a reachable state, by the destructor's calls, from which the wakeup can be lost |
| PollReuse.KeepingReachable | src/uxmpp/io/Connection.cpp:50-92 | one from which no steps of the worker lose it |
| PollReuse.OpenedReachable | src/uxmpp/io/ConnectionManager.cpp:187-201 | a reachable state of the other kind, from which unregistering the first connection can lose the wakeup |
| PollSteps.StepKeepsPc | src/uxmpp/io/ConnectionManager.cpp:390-401 | over every step, what the worker took from an entry still holds while it handles it, and a callback's connection is the one the entry is listed for |
| PollHistory.NeverBlocksOnMore | src/uxmpp/io/ConnectionManager.cpp:365-409 | at every poll the timeout is zero exactly if some entry has a more-flag |
| PollHistory.ListMatchesMap | src/uxmpp/io/ConnectionManager.cpp:553-688 | in every reachable state no descriptor is listed twice and the map's keys are the listed ones |
| PollHistory.OperationsConserved | src/uxmpp/io/ConnectionManager.cpp:319-328 | accepted operations are those with a fate followed by those queued; callbacks are called in order, once, and exactly for completed operations and the one in flight |
| PollHistory.WorkerCanStep | src/uxmpp/io/ConnectionManager.cpp:425-430 | while scanning, the entry and its map entry exist, and after a callback its connection still does |
| ConnectionManagers.ConnectionManager.FindFd | src/uxmpp/io/ConnectionManager.cpp:590-592 | the search loop finds the descriptor's first index |
| ConnectionManagers.ConnectionManager.AddPollFd | src/uxmpp/io/ConnectionManager.cpp:588-622 | add_poll_fd on the arrays is the list update |
| ConnectionManagers.ConnectionManager.DelPollDir | src/uxmpp/io/ConnectionManager.cpp:651-664 | del_poll_fd for one direction is the list update |
| ConnectionManagers.ConnectionManager.DelPollFd | src/uxmpp/io/ConnectionManager.cpp:671-688 | del_poll_fd for a descriptor is the swap removal, also from the map |
| ConnectionManagers.ConnectionManager.QueueOperation | src/uxmpp/io/ConnectionManager.cpp:229-308 | read and write are the protocol's enqueue step |
| ConnectionManagers.ConnectionManager.CancelOperations | src/uxmpp/io/ConnectionManager.cpp:313-340 | cancel is the protocol's step |
| ConnectionManagers.ConnectionManager.UnregisterConnection | src/uxmpp/io/ConnectionManager.cpp:187-201 | unregister_connection is the protocol's step |
| ConnectionManagers.ConnectionManager.Poll | src/uxmpp/io/ConnectionManager.cpp:369-386 | poll's results are stored and the pipe is looked at first |
| ConnectionManagers.ConnectionManager.DispatchCommand | src/uxmpp/io/ConnectionManager.cpp:510-547 | one command is taken from the pipe and applied |
| ConnectionManagers.ConnectionManager.BeginPollIo | src/uxmpp/io/ConnectionManager.cpp:425-479 | handle_poll_io up to the callback is one protocol step |
| ConnectionManagers.ConnectionManager.EndPollIo | src/uxmpp/io/ConnectionManager.cpp:480-503 | handle_poll_io after the callback is one protocol step |
| ConnectionManagers.ConnectionManager.AdvanceScan | src/uxmpp/io/ConnectionManager.cpp:388-409 | the head of the scan loop and the end of a pass |
| ConnectionManagers.ConnectionManager.HandlePollIo | src/uxmpp/io/ConnectionManager.cpp:392-407 | one direction of one entry: the next result of do_read or do_write is the protocol's step, then the callback with any interference; the scan moves on |
| ConnectionManagers.ConnectionManager.ScanEntries | src/uxmpp/io/ConnectionManager.cpp:388-408 | the pass, step by step of the protocol, ends at the next poll or at the end of the worker |
| ConnectionManagers.ConnectionManager.RunWorker | src/uxmpp/io/ConnectionManager.cpp:345-419 | the worker uses every result of poll that is no failure in a round with a whole pass, until it ends, and with any interference is where the steps taken lead |
| XmlStreams.Conserved | src/uxmpp/XmlStream.cpp:56-68 | accepted objects are those handed out followed by those queued, over all runs of the stream |
| XmlStreams.HandedToCurrent | src/uxmpp/XmlStream.cpp:439-454 | number k handed out is number k accepted, and goes to the callback set at that time |
| XmlStreams.QueuedIsHanded | src/uxmpp/XmlStream.cpp:420-460 | over any continuation from the wait of a running stream with n objects queued: not stuck while they are left, and all handed out in order after 1 + 2n steps if no stop comes first |
| XmlStreams.StopWhileDraining | src/uxmpp/XmlStream.cpp:439-460 | a stop during the inner loop lets it hand out everything accepted |
| XmlStreams.StopEndsThread | src/uxmpp/XmlStream.cpp:420-465 | over any continuation of a stopped run: the thread is never stuck, and has ended once it took the steps that were left, whatever others did |
| XmlStreams.XmlStream.OnXmlObject | src/uxmpp/XmlStream.cpp:56-68 | the receive handler queues only while running |
| XmlStreams.XmlStream.StopStream | src/uxmpp/XmlStream.cpp:280-297 | stop is one step |
| XmlStreams.XmlStream.StartRun | src/uxmpp/XmlStream.cpp:102-121 | a run is refused while running or from the thread itself |
| XmlStreams.XmlStream.HandFront | src/uxmpp/XmlStream.cpp:439-454 | exactly one more object is handed out, to the callback set, and is popped after any interference |
| XmlStreams.XmlStream.RxQueueThread | src/uxmpp/XmlStream.cpp:420-465 | each round of the loops waits, with nothing queued, or hands one object out; what was queued goes first, unless a stop comes before; it ends only when stopped |
| SessionSafety.StatesFollowMatrix | src/uxmpp/Session.cpp:43-51 | over every run successive states follow the matrix; bound only straight after negotiating, after closing only closed |
| SessionSafety.MatrixIs | src/uxmpp/Session.cpp:43-51 | the twelve changes of state |
| SessionSafety.StartsAfresh | src/uxmpp/Session.cpp:89-115 | after any run the next one starts without anything of it, and its stream with the start tag |
| SessionSafety.EndsClean | src/uxmpp/Session.cpp:181-191 | the end of a run leaves a closed session without jid and ids |
| SessionSafety.WholeIsRun | src/uxmpp/Session.cpp:89-194 | run is a run of the state machine: begin, the addresses up to the first whose stream runs, every input until the stream stops, finish |
| SessionEvents.ErrorsNoted | src/uxmpp/Session.cpp:515-612 | for any listeners: which objects set the error, and to what |
| SessionEvents.Negotiates | src/uxmpp/Session.cpp:624-634 | for any listeners: negotiating is entered exactly on a stream start while connecting or negotiating; only it sets id and origin |
| SessionEvents.Binds | src/uxmpp/Session.cpp:637-689 | for any listeners: bound is entered exactly on an IQ while negotiating with a jid there; the jid is that of the first bind and nothing else sets it |
| SessionEvents.FeaturesStored | src/uxmpp/Session.cpp:584-598 | for any listeners: features are those of a features object, or as before, or cleared by a reset |
| SessionEvents.FeaturesAre | src/uxmpp/Session.cpp:584-598 | exactly so if nobody resets |
| SessionEvents.ClosesOn | src/uxmpp/Session.cpp:515-618 | if no listener stops it: closing exactly on errors, the close timer and the stream's end; the stream is over exactly on its end and the stop timer |
| SessionEvents.AlwaysCloses | src/uxmpp/Session.cpp:515-618 | for any listeners those objects do close the session and end the stream |
| SessionEvents.Answers | src/uxmpp/Session.cpp:279-339 | what is written for an object the session is not done with: an error to a get or set, and the request to bind; nothing if handled |
| SessionEvents.ConsumedMeans | src/uxmpp/Session.cpp:515-692 | which objects the session is done with itself |
| SessionEvents.CallsInOrder | src/uxmpp/Session.cpp:269-271 | the calls of listeners are all made, in order |
| SessionSafety.EndTagOnce | src/uxmpp/Session.cpp:199-224 | at most one end tag per run, or two with a fast stop, after which the stream is over; none before closing |
| SessionSafety.EndTagWritten | src/uxmpp/Session.cpp:562-581 | whichever side closes first, a running stream gets its end tag exactly if it was not already closing without one; then only a fast stop writes it; the peer's end tag and a fast stop end the stream |
| SessionSafety.NeverSaid | src/uxmpp/Session.cpp:199-224 | over every run: while the stream of a closing session runs, its end tag was not said exactly if the session was closing before the stream was connected |
| SessionSafety.WaitingIsTimed | src/uxmpp/Session.cpp:216-223 | over every run: while our end tag waits for an answer the timer is armed exactly if the stream was not reset since; when it fires the stream is over; a closed session has none |
| SessionSafety.ResetStopsTimer | src/uxmpp/Session.cpp:495-502 | a run that waits without a timer: stopped while negotiating, then reset by a module that got a late object |
| SessionSafety.OnceWithoutFastStops | src/uxmpp/Session.cpp:562-581 | without fast stops by anyone at most one end tag, whichever side closes first |
| SessionSafety.BoundHasJid | src/uxmpp/Session.cpp:637-689 | bound implies a non-empty jid, and before and outside it there is none |
| SessionSafety.BoundByJid | src/uxmpp/Session.cpp:637-689 | the session becomes bound only by an IQ with a jid received while negotiating, and that is its jid |
| SessionSafety.StopWhileConnecting | src/uxmpp/Session.cpp:199-224 | a stop before the stream is connected leaves a running stream that no ordinary stop ends |
| SessionSafety.LostStop | src/uxmpp/Session.cpp:199-224 | a run in which that happens |
| SessionSafety.StopKeeps | src/uxmpp/Session.cpp:199-224 | stop, with any listeners, keeps the end-tag count, the trace and the jid in order |
| SessionSafety.ChangeKeeps | src/uxmpp/Session.cpp:229-274 | change_state, with any listeners, does too, and entering closing leaves the end tag to its caller |
| Sessions.Stop | src/uxmpp/Session.cpp:199-224 | stop and change_state terminate, and move the state at most to closing |
| Sessions.ChangeState | src/uxmpp/Session.cpp:229-274 | succeeds exactly if the matrix allows it, and otherwise changes nothing |
| SessionObject.Session.StopSession | src/uxmpp/Session.cpp:199-224 | the method on the fields is the function |
| SessionObject.Session.SetState | src/uxmpp/Session.cpp:229-274 | the method on the fields is the function |
| SessionObject.Session.CallListeners | src/uxmpp/Session.cpp:269-271 | whatever the listeners call back is performed in order |
| SessionObject.Session.ProcessXmlObject | src/uxmpp/Session.cpp:515-692 | the tests in their order and their effects |
| SessionObject.Session.OnRxXmlObj | src/uxmpp/Session.cpp:279-339 | modules first, then error replies and the request to bind |
| SessionObject.Session.StreamLoop | src/uxmpp/Session.cpp:166-170 | every input is taken in order until the stream is stopped |
| SessionObject.Session.TryAddresses | src/uxmpp/Session.cpp:152-178 | the addresses are tried in order until one connects and its stream runs; the error that is left |
| SessionObject.Session.RunSession | src/uxmpp/Session.cpp:89-194 | run, on the fields, is the function that WholeIsRun is about; it ends closed with the invariants |
| Jids.PartsKept | src/uxmpp/Jid.cpp:112-187 | parts up to 1023 characters are kept and longer ones lose their first 1023; the bare JID keeps local part and domain |
| Jids.ParseAt | src/uxmpp/Jid.cpp:33-81 | what the parser finds around the first '@' |
| Jids.TailRoundTrip | src/uxmpp/Jid.cpp:48-80 | domain and resource survive exactly if the domain has no '/' and is not a lone character |
| Jids.ParseInvertsPrint | src/uxmpp/Jid.cpp:191-209 | parsing inverts printing if and only if the identifier is printable |
| Rosters.RosterModule.HandleRosterPush | src/uxmpp/mod/RosterModule.cpp:154-184 | the loop with erase, replace and break is the list function |
| Rosters.PushAt | src/uxmpp/mod/RosterModule.cpp:160-179 | only the first item with the JID is erased or replaced in place; with none the item is appended, also a removal |
| Rosters.PushMeans | src/uxmpp/mod/RosterModule.cpp:154-184 | the same told by the attributes jid and subscription |
| Rosters.PushKeepsDistinct | src/uxmpp/mod/RosterModule.cpp:154-184 | distinct JIDs stay distinct |
| Rosters.PushRefines | src/uxmpp/mod/RosterModule.cpp:154-184 | the push is the map update exactly if it does not remove one of several items of that JID |
| Rosters.PushesRefine | src/uxmpp/mod/RosterModule.cpp:154-184 | from distinct JIDs any sequence of pushes does to the list what it does to the map |
| Rosters.PushesKeepOthers | src/uxmpp/mod/RosterModule.cpp:154-184 | items of JIDs that no push names keep content and order |
| Stanzas.SetThenGetBody | src/uxmpp/MessageStanza.cpp:253-310 | after set_body exactly one body (or none for an empty text), read back in the same language; other nodes keep content and order |
| Stanzas.BodyInLanguage | src/uxmpp/MessageStanza.cpp:253-270 | the text is that of the first body whose language, its own or its stanza's, is the one asked for |
| Stanzas.SetBodyLeaves | src/uxmpp/MessageStanza.cpp:275-310 | node by node: one body with text and language, every other node as before |
| Stanzas.SetBodyTwice | src/uxmpp/MessageStanza.cpp:275-310 | of two set_body with non-empty texts the last one wins, on every node list |
| Stanzas.SetThenGetShow | src/uxmpp/PresenceStanza.cpp:135-190 | the same for the show node and the idle time |
| Stanzas.GetShowIs | src/uxmpp/PresenceStanza.cpp:135-139 | the content of the first show node |
| Stanzas.SetShowLeaves | src/uxmpp/PresenceStanza.cpp:144-190 | node by node: show nodes, idle seconds in decimal, every other node as before |
| Stanzas.SetDelayLeaves | src/uxmpp/Stanza.cpp:209-235 | node by node: the first delay's origin, stamp and reason, every other node as before |
| Stanzas.SetThenGetDelay | src/uxmpp/Stanza.cpp:209-259 | the delay getters read what was set; an empty stamp removes every delay; other nodes are untouched |
| StanzaObject.Stanza.SetMessageBody | src/uxmpp/MessageStanza.cpp:275-310 | the loop that erases and edits while iterating is the list function |
| StanzaObject.Stanza.GetMessageBody | src/uxmpp/MessageStanza.cpp:253-270 | the first body that matches the language |
| StanzaObject.Stanza.SetPresenceShow | src/uxmpp/PresenceStanza.cpp:144-190 | the loop with its two flags is the list function |
| StanzaObject.Stanza.GetPresenceShow | src/uxmpp/PresenceStanza.cpp:135-139 | the search loop finds the content of the first show node |
| StanzaObject.Stanza.SetStanzaDelay | src/uxmpp/Stanza.cpp:209-235 | the loop with erase and early exit is the list function |
| Corrections.CorrectionReplaces | src/uxmpp/mod/MessageModule.cpp:254-286 | a correction keeps the recipient, names the old id, has the new id, and the new text as its only body |
| Corrections.CorrectionIs | src/uxmpp/mod/MessageModule.cpp:254-286 | told by names: the same stanza with the new id, a replace node with the old one, one body in the language of the first |
| Corrections.ReceiptRules | src/uxmpp/mod/MessageModule.cpp:174-192 | a receipt is asked for exactly if wanted, once if it was not already; everything else stays |
| Corrections.WhenSent | src/uxmpp/mod/MessageModule.cpp:168-286 | when a message goes out and is remembered, and when a correction is refused |
| Corrections.FirstIsCorrectable | src/uxmpp/mod/MessageModule.cpp:194-203 | in a new session the first message can be corrected |
| Corrections.BareDropped | src/uxmpp/mod/MessageModule.cpp:195-199 | a message to a resource drops the entry local@domain, and no other |
| Corrections.ResetOfFull | src/uxmpp/mod/MessageModule.cpp:235-249 | a reset of a full JID forgets that one alone |
| Corrections.TableIsLastSent | src/uxmpp/mod/MessageModule.cpp:168-286 | over any run each entry is the last stanza sent to that JID |
| Corrections.IdsFormChain | src/uxmpp/mod/MessageModule.cpp:269-283 | over any run each correction's replace id is the id of the stanza sent before it to that JID |
| Corrections.SentIsCorrectable | src/uxmpp/mod/MessageModule.cpp:194-203 | a message becomes its JID's entry; one to a full JID makes the one to the bare JID uncorrectable; no other entry is touched |
| Jids.ParsedParts | src/uxmpp/Jid.cpp:33-81 | what the parser makes has no '@' in the local part and no '/' in the domain |
| Corrections.PrintedLocal | src/uxmpp/mod/MessageModule.cpp:242-247 | when a printed JID starts with a string without '@': exactly if its local part does |
| Corrections.PrintedPrefix | src/uxmpp/mod/MessageModule.cpp:242-247 | when it starts with one that has an '@': the same local part, then the start of domain and resource |
| Corrections.KeysAreParsed | src/uxmpp/mod/MessageModule.cpp:194-203 | over any run, stanzas are kept under printed JIDs without '@' in the local part |
| Corrections.ResetForgets | src/uxmpp/mod/MessageModule.cpp:235-249 | which JIDs a reset of any bare JID forgets, told by the parts around the first '@'; all others are kept |
| Corrections.ParsedForgets | src/uxmpp/mod/MessageModule.cpp:235-249 | for a parsed JID: the same local part and a domain that starts with its domain, or, without a domain, a local part that starts with its local part |
| Corrections.ForgetsAnother | src/uxmpp/mod/MessageModule.cpp:242-247 | resetting a@x.y forgets a@x.yz |
| Corrections.MessageModule.SendMessage | src/uxmpp/mod/MessageModule.cpp:168-208 | receipt requests, the table and the log after a send |
| Corrections.MessageModule.CorrectMessage | src/uxmpp/mod/MessageModule.cpp:254-286 | refused without a session, support or an entry; otherwise the entry is edited, kept and sent |
| Corrections.MessageModule.ResetCorrection | src/uxmpp/mod/MessageModule.cpp:235-249 | erasing while iterating removes exactly the JID, or the keys that start with the bare JID |
| Corrections.MessageModule.SupportCorrection | src/uxmpp/mod/MessageModule.cpp:225-230 | switching support off forgets everything |

## Left out

- The expat parser: a tokenizer for what the printer writes stands for it. Attribute white space
  normalisation, line ends, characters that XML does not allow in text, encodings and how expat cuts
  text are not modelled; the handlers are proved for every sequence of events and every cutting.
- XML objects are values: sharing through references to nodes inside a tree is not modelled.
- The error handler that the parser calls, and what the stanzas say that the session writes itself: that
  they are written is modelled, not their content.
- Pretty printing, logging, random ids (an id is a parameter), SHA-1, and thin getters and setters.
- Sockets, TLS, DNS, file connections, `poll` and `pipe` themselves: their results are arbitrary, except
  that pipe writes succeed, and that poll reports a pipe with commands in it, and of a descriptor only
  what is asked for.
- ConnectionManagers.ConnectionManager.AddPollFd: does not model a ninth entry, because only one of the
  three arrays is grown for it (src/uxmpp/io/ConnectionManager.cpp:607-615).
- ConnectionManagers.ConnectionManager.DispatchCommand: does not model a command that adds a ninth entry,
  for the same reason.
- ConnectionManagers.ConnectionManager.QueueOperation: does not model operations queued on a closed
  descriptor, nor the loop of error callbacks that then answers them
  (src/uxmpp/io/ConnectionManager.cpp:569-586), which pops the queue without looking whether the
  callback emptied it.
- ConnectionManagers.ConnectionManager.UnregisterConnection: does not model a connection that is
  unregistered inside its own callback, whose queue the worker then goes on to use
  (src/uxmpp/io/ConnectionManager.cpp:475-482), nor one whose listed descriptor another connection has
  open already (see PollReuse).
- Operations without a callback: a stale cancel flag stops them being popped
  (src/uxmpp/io/ConnectionManager.cpp:475-482).
- `io/Timer.cpp`: it changes the ordering key of an element inside its multiset
  (src/uxmpp/io/Timer.cpp:174-181), so its ordering invariants do not hold.
- Transmit buffers of the XML stream, which are keyed by raw addresses, and the stream's timers other
  than the one that ends a stopped session.
- Session: calls from several threads are whole steps; two threads inside `stop` or `run` at once, and
  listeners that call `run`, are not modelled. Of a stream error the nodes are kept, of an application
  error the name.
- Roster: the query and its result, the check of a push's sender, and `roster_set`.
- Setters whose code does not support the obvious claim: `set_status`, the processing-hint removers and
  `find_node_by_namespace`.
- Base64.ToBase64: does not model the 32-bit counters of the loop (src/uxmpp/utils.cpp:65-66), which
  wrap around for results of 4 GiB and more; `isspace` is the C locale's.
