# A verified model of usipy

usipy is a small SIP stack in C. This project models its core in Dafny and
proves what the core is for. `dafny verify dfyconfig.toml` verifies all of it.

**The transaction manager** is a fixed table of slots, changed by a timer pump,
by responses and requests, and by calls of the application. It is modelled
twice over: as functions on a table that is a value (`Slots`, `Table`,
`ClientSteps`, `ServerSteps`, `Machine`), and as a class that changes an array
of slots in place (`TransactionManager`), of which every method is proved to do
what its function says. `Runs` makes a machine of the functions: a run is any
sequence of pump passes, messages and calls, with every choice made outside
(whether a send gets through, whether storage is found, what a callback does)
left open. The table carries a history of what was sent, heard, told to the
application and made on the side; slots are named there by a generation, so
that reuse of a slot does not confuse its lives. One invariant (`Links`,
`History`) is kept by every step (the modules named `...Keeps`, then
`Runs.ApplyInv` and `Runs.RunInv`), and the theorems are read off it
(`Theorems`). What a response or a request is for, and what each step puts on
the wire, in a slot and before the application, is told from the fields and the
history alone (`Responses`, `Requests`, `ClientFigures`, `ClientEnds`,
`ServerFigures`). More is proved of one transaction followed through a run:
the wake-up time of the pump (`Deadlines`), the cleanup of abandoned calls
(`Cleanup`, `CleanupHears`, `CleanupRoom`, `CleanupRuns`, `CleanupStuck`), and
retransmission (`Backoff`, `BackoffRuns`). `Frames` says what a step leaves
alone, and `Samples` has a few tables reached by short runs.

**Dialogs and user agents.** `Calls` puts the slot of an accepted INVITE
together with its dialog and proves section 13.3.1.4 of RFC 3261 about them;
`CallSlots` shows that the transaction manager does nothing else to such a
slot, and `CallRuns` proves the same section over whole runs of the manager,
from the responses in its history, as `RefusalRuns` does for INVITEs refused.
Both rest on `ServerMoves`, where every step of the manager is a move of one
server INVITE or does away with it; `Dialogs` is the dialog as a class on top of the manager. `CallStates`
and `UserAgents` are the five states of a user agent, with callbacks that
re-enter it, and `CallCauses` says what leads to each event it tells of.

**Fast forms** are proved equal to simple ones: the scanner for line ends
(`CrlfScan`), case-insensitive comparison by words (`TurboCompare`), the
perfect hash of method names (`MethodDb`), MD5 as a stream (`Md5`), and the
mask of parsed headers (`HeaderCache`). `Words` has the facts about machine
words they need.

**The message heap and what lives in it**: the bump allocator (`MsgHeap`),
slices of text (`Strings`), and URIs and name-addrs parsed into the heap and
printed from it (`TvPairs`, `Records`, `Uri`, `UriText`, `UriParser`,
`NameAddrs`).

What is trusted of the outside (`Runs.Allowed`): a response answers a request
that was sent and is not to an ACK; an application drops only what has no
parent, restarts only what it asked for, and leaves ACK and CANCEL to the
manager; time does not run backwards.

Where the code does not do all that its interface promises, the model follows
the code, and says exactly when it does:

- A pass of the pump can leave a deadline it does not report
  (`Deadlines.RetryOverlooked`, `Deadlines.HangUpOverlooked`): exactly when it
  asks for no other pass at once although a timeout callback restarted its
  transaction, or a call was hung up with a BYE put in a slot the pass was
  already past (`Deadlines.DeadlinesExact`).
- The cleanup of an abandoned INVITE goes forward exactly as long as its first
  final response finds room for the ACK and the BYE
  (`CleanupRuns.CleanupAdvances`). Without it, that response, repeated, puts
  off Timer D for ever (`CleanupStuck.RoomNeeded`).
- The length MD5 appends is right only as long as the low word of the byte
  count is below 2^29 (`Md5.LengthRight`, `Md5.LengthWrong`).
- A heap over a block too short to be aligned reaches outside that block
  (`MsgHeap.Heap.constructor`, `MsgHeap.ShortBlock`), and giving up a record
  takes with it the checkpoints made since (`MsgHeap.Heap.CntRollback`,
  `MsgHeap.LostCheckpoint`).
- A CANCEL or an ACK has the Request-URI of its INVITE printed and parsed once
  more. It is the same URI exactly if `Uri.GoodUri` holds of that, and the same
  text exactly if `UriText.CleanUri` holds of the text
  (`Theorems.CancelNamesItsInvite`): not for "sip:h;;", whose CANCEL goes to
  "sip:h" (`CancelTexts.CancelElsewhere`). For "sip:@h;x=y@" nothing is left
  to parse, and the INVITE can have no CANCEL at all
  (`CancelTexts.NoCancelAtAll`).
- The intervals between copies of a refusal start at T1, as section 17.2.1 of
  RFC 3261 has it, exactly if no response was sent before, but for a count of
  255 or a multiple of 256 (`RefusalRuns.FirstInterval`): after one 100 they
  start at 2*T1 (`RefusalRuns.DoubledFirst`).
- Printing and parsing gives a URI or a name-addr back if and only if a
  condition on its parts holds (`Uri.UriTrips`, `NameAddrs.NaTrips`): a URI
  without a user must not have '@' anywhere, one without parameters no '?' in
  its host and no ';' in its headers, and no list may end in an empty pair.

## Model

| member | source | states |
|---|---|---|
| Runs.RunInv | src/usipy_sip_tm.c:456-508 | whatever run is made from a table that keeps the invariant of links, slots, generations and history, it keeps it to the end: the base of all that follows |
| Runs.ApplyInv | src/usipy_sip_tm_uac.c:1064-1155 | each single step of any kind keeps it, with every choice of the network, the application and the storage |
| Theorems.OneOutcome | src/usipy_sip_tm_uac.c:1064-1155 | over any run, what the application is told about one CSeq is provisional responses and then at most one of final response and timeout; nothing at all after a cancel or an INVITE timeout |
| Theorems.OneCancel | src/usipy_sip_tm_uac.c:794-831 | section 9.1 of RFC 3261: an INVITE gets at most one CANCEL, after it was sent and a provisional response to it was heard, and none once its final response was reported |
| Theorems.CancelNamesItsInvite | src/usipy_sip_tm_uac.c:683-791 | every CANCEL on the wire carries the call-id, from tag, branch and CSeq number of an INVITE sent before, and its Request-URI printed and parsed again: the same URI if and only if it is good, the same text if and only if the INVITE's is clean |
| Theorems.AckNamesItsInvite | src/usipy_sip_tm_uac.c:1022-1048 | every ACK on the wire carries the call-id, from tag and CSeq number of an INVITE sent before, and is made for a final response to it that was heard: for a 2xx it has the Contact of that response and the branch given, for any other one the branch of the INVITE and its Request-URI printed and parsed again |
| Theorems.NextCseq | src/usipy_sip_tm_uac.c:1840-1887 | whatever one transaction sends is one request: call-id, from tag and method stay, copies of one attempt are identical, and attempts n apart have CSeq numbers n apart modulo 2^32, so never the same one |
| CancelTexts.EveryCancel | src/usipy_sip_tm_uac.c:794-831 | for every Request-URI there is a run in which its INVITE goes out, rings and is given up on; its CANCEL follows with the copy, or none is made and the INVITE is at its end if there is no copy |
| CancelTexts.CancelElsewhere | src/usipy_sip_tm_uac.c:683-701 | with "sip:h;;" the INVITE goes out to "sip:h;" and its CANCEL to "sip:h" |
| CancelTexts.NoCancelAtAll | src/usipy_sip_tm_uac.c:683-701 | with "sip:@h;x=y@" the INVITE goes out and no CANCEL is made for it |
| Theorems.ByeAfterAck | src/usipy_sip_tm_uac.c:909-941 | for an abandoned INVITE answered by a 2xx at most one BYE is made, and each send of it comes after a send of the ACK it waits for |
| Theorems.ByeNamesItsInvite | src/usipy_sip_tm_uac.c:909-941 | every send of that BYE carries the call-id and from tag of the INVITE, sent before, its CSeq number plus one modulo 2^32, the branch given, and the Contact of a 2xx that was heard |
| Theorems.NoAckWithoutBye | src/usipy_sip_tm_uac.c:1049-1060 | the ACK of such a 2xx is armed only with a BYE made to follow it |
| Theorems.ParentsAreInvites | src/usipy_sip_tm_uac.c:713-791 | in every reachable table a parent link names an active client INVITE, another slot, that has no parent itself |
| Theorems.ChainsAreShort | src/usipy_sip_tm_uac.c:591-613 | child links lead to active slots and end after two different ones, INVITE to ACK to BYE, so walking them terminates |
| Theorems.DropLeavesNothing | src/usipy_sip_tm.c:376-412 | dropping a root empties it and what names it as parent, changes nothing else, and leaves no slot naming it |
| Theorems.NactiveSuffices | src/usipy_sip_tm_utils.c:5-24 | the count that lets reaping stop early is never below the number of active slots |
| Theorems.ReapTakesTheTerminated | src/usipy_sip_tm_utils.c:5-24 | after reaping no active slot is terminated, and every slot is as it was or empty; what was neither terminated nor a child stays |
| Links.AllocRight | src/usipy_sip_tm.c:110-146 | a slot is found if and only if one is free or evictable; one is evicted only when none is free, and it is the first of those due the earliest |
| Theorems.AllocationExact | src/usipy_sip_tm.c:110-146 | a new transaction takes the slot picked and changes no slot outside the family that was in it |
| Theorems.EvictionSpares | src/usipy_sip_tm.c:82-103 | who is evicted was terminated, or a client with its final response reported and not being cleaned up, or a server with its final response sent or its INVITE acknowledged, by the history of the run |
| Theorems.EvictionExact | src/usipy_sip_tm.c:82-146 | in a reachable table an allocation fails if and only if no slot is free and every transaction is unfinished, being cleaned up or the child of another; of the rest it takes the one that would be gone first |
| Theorems.ClonesSpareTheirParent | src/usipy_sip_tm_uac.c:713-791 | making the CANCEL or the ACK of an INVITE never evicts that INVITE |
| Deadlines.DeadlinesExact | src/usipy_sip_tm.c:456-508 | after any pass that went through, no deadline left in the table comes before the time asked for the next pass (or is overdue with a later one) if and only if that time is no later than now, or no slot before the pass has a timer due whose callback restarts it (live, not abandoned, asking for timeouts, no final response reported, INVITE timeout not due) and no Timer L, when its slot is reached, puts a BYE in that slot or one before |
| Deadlines.NoDeadlineMissed | src/usipy_sip_tm.c:456-508 | so a pass with callbacks that do nothing and no call hung up misses none |
| Deadlines.RetryOverlooked | src/usipy_sip_tm_uac.c:1566-1582 | a table that a run leads to, a time and a callback restarting its request for which the pass asks for no next pass though a send is due |
| Deadlines.HangUpOverlooked | src/usipy_sip_tm_uas.c:1160-1241 | the same for an answered INVITE whose BYE takes the slot it gives up |
| CleanupRoom.AbandonEnters | src/usipy_sip_tm_uac.c:846-864 | giving up on an INVITE starts its cleanup, in the phase before or after its provisional response, exactly when it was sent and a CANCEL due at once finds a slot; otherwise it ends it |
| CleanupRoom.RoomIsOk | src/usipy_sip_tm_uac.c:981-1061 | a response to an abandoned INVITE goes through if and only if the table and the storage, before it comes, have room: a slot for the ACK if there is none yet and one more for the BYE of a 2xx, counting what evicting for the ACK sets free |
| CleanupRuns.CleanupAdvances | src/usipy_sip_tm_uac.c:981-1061 | a step takes the cleanup back no phase, moves no deadline of the phase it is in, and makes the latest end possible no later, if and only if it is not a first final response without room for its ACK and BYE |
| CleanupRuns.PumpEndsCleanup | src/usipy_sip_tm_uac.c:1482-1522 | a pass that goes through at the deadline of a phase ends the cleanup, and any pass that goes through sets a deadline not set |
| CleanupRuns.CleanupBounded | src/usipy_sip_tm_uac.c:845-902 | over any run kept up with, and with room for its first final response, an INVITE still pending is within the sum of what its phases may take, which never grows: 64*T1, 64*T1 or Timer D each once |
| CleanupStuck.RoomNeeded | src/usipy_sip_tm_uac.c:981-1020 | in a table of one slot, each copy of a final response, coming in time, moves Timer D on, and the INVITE is pending after any number of them |
| CleanupStuck.StartBound | src/usipy_sip_tm_uac.c:866-902 | that INVITE was being cleaned up, to be over by 96.1 seconds |
| Backoff.InviteDelayRight | src/usipy_sip_tm_uac.c:1354-1379 | the doubling loop computes base * 2^(n-1) exactly whenever that fits 32 bits |
| Backoff.OtherDelayRight | src/usipy_sip_tm_uac.c:1354-1379 | for other requests the loop gives the base interval first and the lesser of base * 2^(n-1) and T2 from the second send on |
| BackoffRuns.InviteBacksOff | src/usipy_sip_tm_uac.c:1439-1460 | after any run since an INVITE was made, its n-th send came at least base * (2^(n-1) - 1) after the first, and until it is given up on the next interval is base * 2^(n-1), below Timer B plus one base interval, as long as 32 bits hold that sum |
| BackoffRuns.MadeByApplication | src/usipy_sip_tm_uac.c:1628-1702 | a new INVITE of the application is where such a run starts |
| SendLog.OnlyPumpSends | src/usipy_sip_tm_uac.c:1554-1625 | nothing but a pass of the pump sends anything, request or response |
| TransactionManager.InviteSendDelay | src/usipy_sip_tm_uac.c:1354-1379 | the loop over 64 bits gives the delay the specification names |
| TransactionManager.OtherSendDelay | src/usipy_sip_tm_uac.c:1354-1379 | the same for other requests, with its early return at T2 |
| TransactionManager.Manager.DropTransaction | src/usipy_sip_tm.c:376-412 | in place: children emptied, the parent's link cut, the slot emptied, the count kept from going below 0; the error cases change nothing |
| TransactionManager.Manager.ReapTerminated | src/usipy_sip_tm_utils.c:5-24 | in place: the whole new table |
| TransactionManager.Manager.AllocSlot | src/usipy_sip_tm.c:110-146 | in place: the search, the victim and its family dropped, the slot reset |
| TransactionManager.Manager.StartCancel | src/usipy_sip_tm_uac.c:794-831 | in place: scheduled before a provisional response, made and armed after, nothing when already on the wire |
| TransactionManager.Manager.Abandon | src/usipy_sip_tm_uac.c:846-864 | in place: callbacks gone, then finished or cancelled |
| TransactionManager.Manager.Cancel | src/usipy_sip_tm_uac.c:1890-1920 | in place: each refusal and the abandoning |
| ClientEnds.CancelAccepted | src/usipy_sip_tm_uac.c:1890-1920 | an INVITE may be cancelled once, exactly until its final response is through or it ended |
| ClientEnds.CancelWaits | src/usipy_sip_tm_uac.c:846-864 | one never sent is then over; one that did not ring keeps its state and its sends and waits for a provisional response without a timeout; nothing is told of it any more |
| ClientEnds.CancelGoesOut | src/usipy_sip_tm_uac.c:794-831 | the CANCEL of one that rang is on the wire with its first turn, with the same identity, transport and timers, if it found a slot |
| TransactionManager.Manager.NextTransaction | src/usipy_sip_tm_uac.c:1840-1887 | in place: each refusal and the restart with the next CSeq |
| ClientFigures.RetryGoesOut | src/usipy_sip_tm_uac.c:1840-1887 | a transaction may be tried again exactly if it ended or had its final response, was not given up, and has no child but its ACK; the next attempt is on the wire with its next turn, under the next CSeq number |
| TransactionManager.Manager.QueueBye | src/usipy_sip_tm_uac.c:909-941 | in place: the BYE behind the ACK, or the reason there is none |
| TransactionManager.Manager.HandleInviteFinal | src/usipy_sip_tm_uac.c:981-1061 | in place: Timer D, the ACK made once and armed each time, the BYE before it |
| TransactionManager.Manager.HandleIncomingResponse | src/usipy_sip_tm_uac.c:1064-1155 | in place: the whole new table for any response, callback included |
| Responses.ResponseFinds | src/usipy_sip_tm.c:559-583 | a response is for a transaction if and only if an active client transaction on the wire agrees with it in call-id, from tag, branch, CSeq number and method |
| Responses.ResponseActs | src/usipy_sip_tm_uac.c:1064-1155 | it is put on record for the first such transaction, with its class and Contact, and all that follows is of that transaction; an ACK or a BYE made has its Contact and the branch given |
| Responses.NoInviteTouched | src/usipy_sip_tm_uac.c:1064-1155 | a response whose method is not INVITE changes the slot of no INVITE, adds nothing to the history of one, and makes no ACK, BYE or CANCEL |
| ClientEnds.RingsOn | src/usipy_sip_tm_uac.c:1091-1112 | the first provisional response to an INVITE starts the time its Expires gives it from its first send; each is told, and ends the repeats |
| ClientEnds.OtherEnds | src/usipy_sip_tm_uac.c:1119-1154 | a final response to any other request starts Timer K and completes it, and is told exactly the first time |
| ClientEnds.InviteEnds | src/usipy_sip_tm_uac.c:981-1061 | a final response to an INVITE that finds its room completes it for Timer D, or 64*T1 after a 2xx to one given up; its ACK is due at once each time, and it is told exactly the first time |
| TransactionManager.Manager.ExpireInvite | src/usipy_sip_tm_uac.c:1482-1522 | in place: the INVITE timeout of an application's call |
| ClientEnds.InviteTimesOut | src/usipy_sip_tm_uac.c:1482-1522 | an INVITE out of time is told of if anyone listens, and let go of for good as the last thing on record, after its CANCEL if one is made; the pump is to come back at once |
| TransactionManager.Manager.TerminateChild | src/usipy_sip_tm_uac.c:591-613 | the recursion terminates and retires the whole chain |
| TransactionManager.Manager.NeedAck | src/usipy_sip_tm_uac.c:1002-1020 | in place: a slot for the ACK of an INVITE, once |
| TransactionManager.Manager.HearRinging | src/usipy_sip_tm_uac.c:1091-1112 | in place: a provisional response to an INVITE, its Expires taking over from Timer B, and a CANCEL that waited for it |
| TransactionManager.Manager.FireTimer | src/usipy_sip_tm_uac.c:1566-1582 | in place: Timers D, F and K, with the chain of children |
| ClientEnds.TimerEnds | src/usipy_sip_tm_uac.c:1566-1582 | Timers D, F and K end a transaction with its ACK and the BYE behind that; it is told exactly if it had no final response |
| TransactionManager.Manager.Send | src/usipy_sip_tm_uac.c:1583-1625 | in place: built if need be, sent, counted, and what comes after each kind of request; nothing counted when building or sending fails |
| ClientFigures.SendFails | src/usipy_sip_tm_uac.c:1591-1602 | a request due that cannot be built or does not get through ends the pass with nothing on record and nothing counted, and stays due |
| TransactionManager.Manager.PostSendInvite | src/usipy_sip_tm_uac.c:1439-1460 | in place: Timer B once, and the next copy unless the transport or the peer makes it unnecessary |
| TransactionManager.Manager.PostSendOther | src/usipy_sip_tm_uac.c:1463-1477 | in place: Timer F once, and the next copy |
| ClientFigures.InviteGoesOut | src/usipy_sip_tm_uac.c:1439-1460 | an INVITE due is on record as sent and counted; Timer B starts with the first send, and the next is base * 2^n away unless the transport is reliable or it rang |
| ClientFigures.OtherGoesOut | src/usipy_sip_tm_uac.c:1463-1477 | the same for any other request but an ACK, with Timer F and the lesser of base * 2^n and T2 |
| ClientFigures.AckGoesOut | src/usipy_sip_tm_uac.c:1593-1607 | an ACK is sent once each time it is asked for, and the BYE behind it loses its parent and is due at once |
| TransactionManager.Manager.FindTransaction | src/usipy_sip_tm_uas.c:844-912 | the ACK's INVITE, the CANCEL's, or the request's own transaction, the first in the table each |
| TransactionManager.Manager.UacRun | src/usipy_sip_tm_uac.c:1554-1625 | in place: timeouts, timers and sends of one client slot, and when to run it next |
| TransactionManager.Manager.UasRun | src/usipy_sip_tm_uas.c:1160-1241 | in place: the same for a server slot |
| TransactionManager.Manager.Run | src/usipy_sip_tm.c:456-508 | the pump as a loop gives the table, the next time and the error the recursive specification gives |
| TransactionManager.Manager.HandleIncomingRequest | src/usipy_sip_tm_uas.c:1244-1322 | in place: an ACK, a CANCEL, a request repeated or a new one, told apart in that order |
| Requests.AckAcknowledges | src/usipy_sip_tm_uas.c:1257-1276 | an ACK acknowledges the first INVITE it is for and changes nothing else; a 2xx is for its dialog, any other response is confirmed for T4, or at once if the transport is reliable |
| Requests.AckOf2xx | src/usipy_sip_tm_uas.c:153-164 | an INVITE answered 2xx becomes acknowledged exactly by an ACK with its call-id, both tags and CSeq number, on any branch, that is for none before it |
| Requests.AckOfRefusal | src/usipy_sip_tm_uas.c:165-175 | an INVITE refused is confirmed exactly by an ACK with its call-id, from tag, branch and CSeq number, whatever the to tag, that is for none before it |
| Requests.StrayAck | src/usipy_sip_tm_uas.c:1244-1322 | an ACK for none of them does nothing at all |
| Requests.CancelMeans | src/usipy_sip_tm_uas.c:867-912 | a CANCEL is reported for the first INVITE not yet answered on its branch, and leaves the table alone |
| Requests.CopyMeans | src/usipy_sip_tm_uas.c:1284-1302 | a request that came before has its answer sent again, unless an ACK or an owner took that over, and nothing else happens |
| Requests.NewMeans | src/usipy_sip_tm_uas.c:1303-1321 | a request that is none of these is left to the application |
| TransactionManager.Manager.SendUasResponse | src/usipy_sip_tm_uas.c:1009-1077 | in place: state, timer and ACK expected by status code and method; refused after a final response |
| ServerFigures.AnswerGoesOut | src/usipy_sip_tm_uas.c:1009-1079 | a transaction takes provisional responses and one final one; each is on the wire with its next turn, and it then waits for Timer L, H or J, for nothing, or is over, as method, code and transport have it |
| ServerFigures.WaitEnds | src/usipy_sip_tm_uas.c:1160-1241 | the end of any such wait but that for the ACK of a 2xx ends it and nothing else comes of it |
| TransactionManager.Manager.NewUac | src/usipy_sip_tm_uac.c:1628-1702 | in place: a client transaction, due at once; none for a method without a name |
| ClientFigures.NewGoesOut | src/usipy_sip_tm_uac.c:1628-1702 | a new request is on the wire with its first turn, as it was asked for |
| ClientFigures.DefaultTimers | src/usipy_sip_tm.c:415-450 | T1, T2 and T4 left 0 are 500 ms, 4 s and 5 s; a policy that gives them stays as it is |
| TransactionManager.Manager.NewUas | src/usipy_sip_tm_uas.c:915-1006 | in place: a server transaction, never for an ACK, a generic method or a request that has one |
| ServerFigures.RequestAccepted | src/usipy_sip_tm_uas.c:915-1006 | a request gets a transaction exactly if it is no ACK, has a name, is no copy of one that has one, and there is a slot; nothing changes otherwise |
| TransactionManager.Manager.SetOwner | src/usipy_sip_tm_uas.c:1361-1375 | in place: an INVITE's 2xx given to an owner |
| TransactionManager.Manager.ClearOwner | src/usipy_sip_tm_uas.c:1378-1391 | in place: taken back, from that owner only |
| TransactionManager.Manager.SendAt | src/usipy_sip_tm_uas.c:1395-1409 | in place: the next send moved, by that owner only |
| ServerFigures.OwnersOnly | src/usipy_sip_tm_uas.c:1326-1408 | the next send of a server transaction is moved, and the transaction let go of, exactly by its owner; after that it is not the owner's any more, and nothing changes for anyone else |
| Calls.IntervalIs | src/usipy_sip_dialog.c:191-207 | the k-th interval between 2xx sends is the lesser of T1 * 2^k and T2 |
| Calls.TwoHundredsReliable | src/usipy_sip_dialog.c:191-250 | over any run of an accepted call, 2xx sends are T1 and then doubling up to T2 apart; none follows the ACK, a BYE, the end of the dialog or Timer L; and Timer L counts from the first attempt, sent or not |
| Calls.TimerLStays | src/usipy_sip_tm_uas.c:1202-1209 | once armed, nothing moves Timer L |
| Calls.ExpiryActsOnce | src/usipy_sip_dialog.c:224-250 | Timer L without an ACK keeps the call or tries one BYE and tells the handler; after an ACK or an end it does nothing |
| CallRuns.RepliesReliable | src/usipy_sip_tm_uas.c:1160-1241 | over any run of the transaction manager since an INVITE was answered 2xx, in which only its dialog moves its sends: the copies sent are T1 and then doubling up to T2 apart, none comes after the ACK, and all within Timer L of the first |
| CallRuns.RepliesEnd | src/usipy_sip_dialog.c:318-413 | and from where its owner wants no more of them, or gives the INVITE up, as a BYE, the end of the dialog and its destruction do, none is sent however the run goes on |
| CallRuns.DialogWants | src/usipy_sip_dialog.c:191-207 | what the dialog asks for after each copy is what that supposes |
| CallRuns.AnswerMakesCall | src/usipy_sip_dialog.c:293-300 | answering an INVITE 2xx and owning it is where such a run starts |
| ServerMoves.StepGoes | src/usipy_sip_tm.c:456-508 | any step of the manager is one of the moves of a server INVITE, or does away with it, and adds to its traffic what that move does and nothing else |
| RefusalRuns.RefusalBacksOff | src/usipy_sip_tm_uas.c:95-118 | over any run since an INVITE came, unless it comes again: after the n-th response sent, if that is a refusal, the next comes no sooner than the lesser of T1 * 2^(n-1) and T2, none after the ACK or once Timer H is over, and the next is due at just that time |
| RefusalRuns.FirstInterval | src/usipy_sip_tm_uas.c:95-118 | with n responses sent before a refusal its first interval is T1 if and only if n is 0 or 255 modulo 256 |
| RefusalRuns.DoubledFirst | src/usipy_sip_tm_uas.c:95-118 | after one 100, in a table that a run leads to, the first interval of a 486 is 2*T1 |
| RefusalRuns.RequestInvites | src/usipy_sip_tm_uas.c:915-1006 | a server transaction made for an INVITE is where such a run starts |
| CallSlots.TurnIsRun | src/usipy_sip_tm_uas.c:1160-1241 | the pump's turn on the slot of a call is the call's turn |
| CallSlots.OtherTurnsSpare | src/usipy_sip_tm.c:456-508 | the turns of other slots leave it alone |
| CallSlots.StepIsCallStep | src/usipy_sip_tm_uas.c:1244-1322 | every other step of the manager leaves it alone, or is its ACK or its request repeated |
| Dialogs.Dialog.UasSent | src/usipy_sip_dialog.c:195-207 | in place: the next 2xx asked for and the interval doubled up to T2, unless acknowledged or no longer the owner |
| Dialogs.Dialog.UasAcked | src/usipy_sip_dialog.c:211-219 | in place: no more of the 2xx |
| Dialogs.Dialog.UasTimeout | src/usipy_sip_dialog.c:224-250 | in place: whether it was for this dialog, and then kept, or ended with a BYE unless it had ended; the table in every case |
| Dialogs.Dialog.End | src/usipy_sip_dialog.c:381-413 | in place: one BYE with the next CSeq, refused after the end, nothing changed in the dialog when there is no slot |
| Dialogs.Dialog.AcceptUasBye | src/usipy_sip_dialog.c:340-362 | in place: accepted exactly for a BYE of this dialog in a server transaction |
| Dialogs.Dialog.Destroy | src/usipy_sip_dialog.c:318-328 | in place: nothing more of the 2xx, and its owner gone |
| Dialogs.AcceptInvite | src/usipy_sip_dialog.c:259-307 | a dialog is made exactly for a 2xx that was queued in a live server transaction, and owns the INVITE; otherwise nothing changes but what queueing did |
| Dialogs.AcceptedCall | src/usipy_sip_dialog.c:293-300 | that is a call as accepted |
| CallStates.AgentOrdered | src/sip_ua/usipy_sip_ua_dialing.c:94-175 | over any history with any re-entry, a user agent tells of DIAL, CONNECT and DISCONNECT in that order, each at most once; its dialog ends at most once, so one BYE at most and none after the peer's; one challenge is answered |
| CallStates.DisconnectedForGood | src/sip_ua/usipy_sip_ua_disconnected.c:5-33 | once disconnected, nothing has any effect |
| CallCauses.ToldForCause | src/sip_ua/usipy_sip_ua_dialing.c:94-175 | in any history with any re-entry, CONNECT is told only of a response from 200 to 299 with a dialog made while dialing, or of an accepted answer from 200 to 299 while trying; DISCONNECT only of a refusal of either side, a challenge that can be answered once excepted, of either side hanging up, or for want of an ACK |
| CallCauses.WhileDialing | src/sip_ua/usipy_sip_ua_dialing.c:94-175 | and no cause goes untold: while dialing a 2xx with a dialog connects, the first challenge is answered if it can be, any other response from 300 on disconnects, as giving up does, and nothing else changes anything |
| CallCauses.WhileTrying | src/sip_ua/usipy_sip_ua_trying.c:35-95 | while trying, exactly an accepted answer from 200 to 299 connects and a refusal that goes out disconnects |
| CallCauses.WhileConnected | src/sip_ua/usipy_sip_ua_connected.c:9-59 | while connected, exactly hanging up and the peer's BYE end the dialog, with that on record first, and disconnect |
| CallCauses.WithoutAck | src/sip_ua/usipy_sip_ua_trying.c:12-22 | an ACK that never came disconnects unless the application keeps the call; a call acknowledged, or our own, is left alone |
| CallCauses.WhileIdle | src/sip_ua/usipy_sip_ua_idle.c:8-74 | while idle, exactly an INVITE answered by a 100 is told of, and a call made leads to dialing |
| UserAgents.UserAgent.OnIdle | src/sip_ua/usipy_sip_ua_idle.c:8-74 | in place: what an INVITE or a dial does to an idle agent |
| UserAgents.UserAgent.OnTrying | src/sip_ua/usipy_sip_ua_trying.c:35-95 | in place: answer and refusal, by status code |
| UserAgents.UserAgent.OnDialing | src/sip_ua/usipy_sip_ua_dialing.c:94-175 | in place: giving up, responses, the one answer to a challenge |
| UserAgents.UserAgent.OnConnected | src/sip_ua/usipy_sip_ua_connected.c:9-59 | in place: the peer's BYE and our own |
| UserAgents.UserAgent.TimerL | src/sip_ua/usipy_sip_ua_trying.c:12-22 | in place: the ACK that never came, with the application asked first |
| CrlfScan.NoFalseBorrow | src/usipy_sip_msg.c:541-570 | the byte above a hit is never 1, so the borrow of the zero-byte test makes no false hit, and zero bytes are exactly the hits |
| CrlfScan.CompareWord | src/usipy_sip_msg.c:541-570 | the flags of a word are exactly its positions of '\n' after '\r', four rounds being enough, and the carry is whether it ends in '\r' |
| CrlfScan.CompareHalf | src/usipy_sip_msg.c:541-570 | the same for words of four bytes, two rounds being enough |
| CrlfScan.LineEnds.BreakDown | src/usipy_sip_msg.c:578-624 | successive calls return the positions of all line ends, in order and each once, and then -1 forever, the whole message being copied |
| CrlfScan.CrlfFromRight | src/usipy_sip_msg.c:573-576 | the list those are drawn from is exactly the positions of '\r' followed by '\n', increasing |
| TurboCompare.SameWordRight | src/bits/turbocompare.h:13-39 | words of 1, 2, 4 or 8 bytes made lower case by mask agree exactly when their bytes do under ASCII folding |
| TurboCompare.CompareBy | src/bits/turbocompare.h:41-56 | the loop of one width, backing up for its last word, reads inside the strings only and decides them unless they are shorter than a word |
| TurboCompare.CaseCompare | src/bits/turbocompare.h:58-77 | 0 exactly when the strings agree but for ASCII case, for all strings |
| MethodDb.HashIsScan | src/usipy_sip_method_db.c:67-101 | the perfect hash finds for every string what a scan of the table ignoring case finds |
| MethodDb.ScanRight | src/usipy_sip_method_db.c:11-24 | and that is a method exactly if the string is its name, whatever the case |
| MethodDb.Lookup | src/usipy_sip_method_db.c:67-101 | the lookup with its comparisons made by words |
| Md5.Context.Update | src/external/mackron_md5/md5.h:272-315 | for any split of the input, registers and cache are the block fold and the rest of all of it, whichever path was taken |
| Md5.Context.Finalize | src/external/mackron_md5/md5.h:317-373 | the padding and length appended across one block or two |
| Md5.LengthRight | src/external/mackron_md5/md5.h:355-366 | the length so written is that of section 3.2 of RFC 1321 if and only if the low word of the count is below 2^29 |
| Md5.LengthWrong | src/external/mackron_md5/md5.h:355-366 | at 2^29 bytes it is not |
| Md5.FinalizeRight | src/external/mackron_md5/md5.h:317-373 | below that, finalizing gives the digest of the message |
| Md5.Md5Hex | src/usipy_sip_hdr_authz.c:48-69 | what finalizing gives for the parts joined by ':', in hexadecimal; that is their digest when the low word of the length is below 2^29 |
| HeaderCache.Message.ParseHdrs | src/usipy_sip_msg.c:290-341 | succeeds exactly when the types are there, the match list has room and what is left to parse can be; then the headers asked for are parsed, the list is them in order, and the mask gains exactly the types now through; a set bit always means all headers of its type are parsed |
| HeaderCache.AskedOfRight | src/usipy_sip_msg.c:290-341 | that list is exactly the first, or all, headers of the types wanted |
| HeaderCache.Message.GetTid | src/usipy_sip_msg.c:344-400 | never meets a header not parsed, and gives the identity made of the first header of each type, or none exactly when a part is missing |
| MsgHeap.Heap.constructor | src/usipy_msg_heap.c:38-53 | aligned and within the block if and only if the block is as long as the gap to its first aligned address |
| MsgHeap.ShortBlock | src/usipy_msg_heap.c:38-53 | three bytes from address 1 on are too short |
| MsgHeap.Heap.Reserve | src/usipy_msg_heap.c:14-29 | succeeds exactly when it fits, with a region apart from all handed out before, whose bytes stay |
| MsgHeap.Heap.Alloc | src/usipy_msg_heap.c:32-35 | the same, aligned at both ends |
| MsgHeap.Heap.Checkpoint | src/usipy_msg_heap.c:56-67 | remembers what is in use |
| MsgHeap.Heap.Rollback | src/usipy_msg_heap.c:70-83 | restores exactly the bytes of the checkpoint, clears what came after, and keeps the regions before it |
| MsgHeap.Heap.Append | src/usipy_msg_heap.c:86-107 | a copy in a region of its own, nothing for an empty string |
| MsgHeap.Heap.Build | src/usipy_msg_heap.c:110-139 | what the callback built, in place; the reserving after it cannot fail |
| MsgHeap.Heap.Sprintf | src/usipy_msg_heap.c:142-185 | the text and its end, or nothing reserved when it is cut short |
| MsgHeap.Heap.AllocCnt | src/usipy_msg_heap_inl.h:18-30 | a region with a record of where it starts |
| MsgHeap.Heap.Extend | src/usipy_msg_heap_inl.h:32-53 | longer from the same start, exactly when it fits |
| MsgHeap.Heap.Reclaim | src/usipy_msg_heap_inl.h:55-72 | shorter from the same start |
| MsgHeap.Heap.CntRollback | src/usipy_msg_heap_inl.h:4-12 | back to the aligned start of the record; the checkpoints stay good if and only if none was made since |
| MsgHeap.LostCheckpoint | src/usipy_msg_heap_inl.h:4-12 | a record, a checkpoint, and the record given up: the checkpoint is no longer good |
| Strings.AtouiRange | src/usipy_str.c:96-115 | the number the digits spell if it is in range and fits 32 bits, nothing else accepted; no step of it overflows |
| TvPairs.PairsTrip | src/usipy_sip_uri.c:67-107 | a list of pairs survives printing and parsing if and only if no part holds a delimiter it would be split at, the last pair is not empty, and no whitespace stands where it would be trimmed |
| Uri.UriTrips | src/usipy_sip_uri.c:22-183 | a URI survives printing and parsing if and only if `GoodUri` holds of its parts |
| Uri.UriLost | src/usipy_sip_uri.c:22-183 | a URI with ';' in a header and no parameters does not |
| UriText.ParsedTrips | src/usipy_sip_uri.c:22-183 | a URI that was parsed does if and only if neither list ends in an empty pair, there is a user unless there is neither a password nor any '@', and there are parameters unless no '?' is in the host and no ';' in the headers |
| UriText.TextTrips | src/usipy_sip_uri.c:22-183 | a text comes back from parsing and printing if and only if it is clean: no empty user or password, no port with leading zeros, no list or value left empty after its delimiter |
| UriParser.ParseUri | src/usipy_sip_uri.c:22-114 | in the heap: the URI if it parses and its pairs fit, in one region; nothing left behind otherwise |
| UriParser.BuildUri | src/usipy_sip_uri.c:117-183 | in a buffer: exactly the text, or -1 exactly when there is not the room, counting the 0 after the port |
| NameAddrs.NaTrips | src/usipy_sip_hdr_nameaddr.c:22-138 | a name-addr survives printing and parsing if and only if `GoodNa` holds of its parts |
| NameAddrs.NaLost | src/usipy_sip_hdr_nameaddr.c:22-138 | one whose display name ends in a space does not |
| NameAddrs.ParseNameAddr | src/usipy_sip_hdr_nameaddr.c:22-86 | in the heap: the name-addr if it parses and fits, nothing left behind otherwise |
| NameAddrs.BuildNameAddr | src/usipy_sip_hdr_nameaddr.c:89-126 | in a buffer: exactly the text, or -1 exactly when it does not fit |
| NameAddrs.GetParam | src/usipy_sip_hdr_nameaddr.c:142-160 | the value of the first parameter of that name, empty or not |
| Records.ParsePairs | src/usipy_sip_uri.c:67-85 | the loop over a list: exactly its pairs, if the growing record has room for all |

## Left out

- CleanupBounded: supposes the pump is run no later than the deadline of the phase, and room for the first final response; without either nothing is bounded.
- RepliesReliable: supposes that the next send is moved by the dialog alone, to never, or during its own turn by at least the interval it keeps; what another owner would do is not claimed about.
- StepIsCallStep: excludes the calls of the owner, of which the call's own steps are made; `RepliesReliable` takes them in.
- TurnIsRun: is about one turn; `RepliesReliable` is about runs.
- BreakDown: has words of eight bytes; for machines with words of four, only the comparison of a word (`CompareHalf`) is modelled.
- NextTransaction: only for a transaction the application asked for, since restarting a CANCEL or an ACK is not for it to do.
- HandleIncomingResponse: only for a response to a request that was sent and is not an ACK, with a code of at least 100.
- NewUac: not for ACK and CANCEL, which are the transaction manager's own to make.
- UasRun: what the owner of a call does when no ACK came is a choice from outside, of which only a BYE is carried out in the table (the dialog's side of it is `Dialog.UasTimeout`); the no_ack callback when Timer H is over is not called, so what an application does in it is left to other steps.
- RefusalBacksOff: supposes that no copy of the INVITE comes once it was refused, since that is answered at once, and that it has no owner to move its sends.
- HandleIncomingRequest: ends where a callback for a CANCEL or a new request begins; what that does is done through the other operations.
- OnIdle: the role and the transaction index an agent keeps are not part of its state, here as in the handlers of the other states.
- InviteBacksOff: after the INVITE is given up on, the claim is about intervals that still fit 32 bits twice over.
- ParseHdrs: after a failure it is claimed only that the cache is truthful and the mask unchanged; which headers got parsed before is not.
- ExpireInvite: the timeout identifier handed to the callback is not part of the history.
- Slots are values in an array, replaced field by field; pointers into a slot, and the borrowed strings of one, are not modelled.
- Message text of requests and responses is abstract but for the Request-URI: built, or no room for it. A Request-URI is given as it was parsed; a text that does not parse is no room for the request. Requests are told apart by call-id, from tag, branch, CSeq and method rather than by a hash of them.
- Identifiers that a policy makes (branches, tags) are values given from outside; that scratch memory holding them is rolled back on a retry is not modelled.
- The second checkpoint of an ACK that failed to build exceeds the two there are; building after it is taken to succeed.
- Contents of a queued provisional response after building another failed.
- The count of active transactions is exact only while no allocation fails late; only that it is never too low is claimed.
- Times are unbounded here and 64 bits in the code; a retransmission count beyond 255 wraps in both.
- Changing the timer policy of a transaction after it was made.
- The response and timeout callbacks either do nothing or restart their transaction; the counters a pass returns are left out.
- Answers of a server to CANCEL, and the transport and address choices of any message.
- Registration helpers, authentication headers other than the digest they use, and the credentials of a user agent: whether a challenge can be answered is a choice from outside.
- Destroying a user agent or a dialog from within its own callback.
- Bytes of the heap that the owner of a region writes there later; strings are characters where delimiters matter and bytes where words do.
- MD5 compression of one block, Murmur hashing, Via and header-name lookup, start lines, sockets, logging and command-line programs.
