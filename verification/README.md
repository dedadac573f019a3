# Verified models of the w3cos agent bridge and its benchmark page

The Dafny files in this directory model the stateful core of the agent bridge and the list and text
algorithms of the native-browser benchmark, and prove what they promise. Classes stand for the objects the
source updates in place; each of their methods is tied to a function of the old state, and the theorems
are about those functions, over every input and every run.

| file | what it models | main results |
|---|---|---|
| AgentLoop.dfy | plan, confirm, act: the queue, the pending call, the transcript, two budgets | no call is lost or out of order except by steps that are named, in runs of any shape; the driver always ends before its round limit |
| ToolHost.dfy | propose, decide, sign, hold, send, and the receipt log | sign, hold and send balance over every run; ids are gapless; every receipt is true; what is signed was proposed |
| Tx.dfy | hexadecimal, decimal to base 256, the transaction normal form | exact overflow; the normal form is what parsing gives, and round-trips |
| Base64Url.dfy, Identity.dfy | base64url, the pin verifier, the assertion ceremony | both round trips with their exact conditions; producer and checker agree |
| Session.dfy | the session over its ledger | reload is the identity on durable state; who unlocks and who changes what |
| Gate.dfy | the mailbox three parties share | every proposal, call and outcome exactly once |
| EditDistance.dfy | two-row edit distance, closest phrase | least number of edits; metric laws |
| RateLimiter.dfy | the fixed one-second window | the sharp sliding bound |
| Worklists.dfy | loader files, staged root, process tree | results are exactly the reachable nodes |
| MdStream.dfy, Highlight.dfy | streamed markdown, line colouring | chunking invariance; lossless, normal output |
| DomWorkloads.dfy, Dom.dfy | keyed reconcile, move to end | final child order |

Where the outside world decides something, it is a parameter and the theorems hold for every choice of it:
planner answers, tool preparation and effects, permission gates, device key, wallet, chain, clock,
randomness, file system and dictionary order. In a run they may be different at each operation.

Four places where the code does not give the plain law, and what is proved instead:

- A call the planner asked for can be dropped or answered out of turn, when a completion arrives while a call
  waits for confirm, at a limit, or when a run is stopped. Every call is kept exactly in the runs where no
  step drops one; and in order exactly where besides none with another id is answered before the one that
  waits.
- The two streaming strategies agree on frozen lines exactly when no token holds two newlines.
- A signed transaction can be sent twice. It is sent at most once exactly in the runs where no broadcast
  reaches the network while the held transaction already went out and, because the device key did not sign,
  has no receipt of that.
- A ledger with a plaintext pin that was opened without randomness and never written is not read back
  unchanged once there is randomness; in every other case it is. Its first write erases the plaintext pin.

## Model

| member | source | states |
|---|---|---|
| AgentLoop.CallsAreKeptIff | crates/w3cos-ai-bridge/src/agent_loop.rs:97-313 | For every run, with calls to the loop in any order and a shell that may differ at each: answered, waiting and queued calls are all the calls asked for, each once, if and only if no step drops a call; what a step drops is read off the state before it and the call |
| AgentLoop.InOrderIff | crates/w3cos-ai-bridge/src/agent_loop.rs:97-313 | For every such run, with no condition on ids: answered calls, then the waiting one, then the queue, equal in order all calls asked for, if and only if no step drops a call or answers one with another id before the one that waits |
| AgentLoop.EveryCallIsAccounted | crates/w3cos-ai-bridge/src/agent_loop.rs:97-313 | For every such run the calls asked for are, as a multiset of ids, those answered, waiting or queued together with all that the steps dropped |
| AgentLoop.StepAccounts | crates/w3cos-ai-bridge/src/agent_loop.rs:97-313 | Each step, from any state, loses exactly what it drops: past the round limit, with no calls, at the step limit, in place of a waiting call, or with the queue of a run that is stopped |
| AgentLoop.DrainAccounts | crates/w3cos-ai-bridge/src/agent_loop.rs:235-274 | Taking calls off the queue drops nothing when all are refused within the step limit, the rest and the waiting call at the limit, and the waiting call when another stops for confirm |
| AgentLoop.TranscriptConserved | crates/w3cos-ai-bridge/src/agent_loop.rs:97-313 | When the caller acts on the last drive, the law by kind of drive: in order while a confirm is awaited; asked and answered ids are equal whenever the planner is asked again; when the run has ended the answered ids are a prefix of the asked ones |
| AgentLoop.AskedIsRequested | crates/w3cos-ai-bridge/src/agent_loop.rs:87-131 | In every run the calls asked for in the transcript are the planner's own, in its order, behind the utterance |
| AgentLoop.ViewIsEffects | crates/w3cos-ai-bridge/src/agent_loop.rs:133-182 | After any run the view is the first one with the effects of all drives applied in order, and with nothing else |
| AgentLoop.ActsOrNot | crates/w3cos-ai-bridge/src/agent_loop.rs:97-222 | A step changes the view only if it is a granted confirm of a tool that performs: with the effects the tool gave on that view, behind an Allowed receipt for the tool that waited. In any other step the view stays, the drive has no effects and no receipt says Allowed |
| AgentLoop.LastEffect | crates/w3cos-ai-bridge/src/agent_loop.rs:133-182 | An effect changes the part of the view it names to what it says, and no other part |
| AgentLoop.StepTells | crates/w3cos-ai-bridge/src/agent_loop.rs:97-274 | The receipts of a drive tell the tool messages of its step, each one and in order; a step that ends at the step limit tells only what a confirm settled |
| AgentLoop.AnswersWhatWaits | crates/w3cos-ai-bridge/src/agent_loop.rs:133-222 | A confirm, a reject and a cancel answer the waiting call first, with what its tool gave, cut to size, or why nothing was changed |
| AgentLoop.SettledFirst | crates/w3cos-ai-bridge/src/agent_loop.rs:133-222 | The first receipt of such a step names the waiting tool, its answer and the decision |
| AgentLoop.DrainRefuses | crates/w3cos-ai-bridge/src/agent_loop.rs:235-274 | Each refused call gets, in order, a message with its error and a receipt that says Denied and not confirmed |
| AgentLoop.DrainEnds | crates/w3cos-ai-bridge/src/agent_loop.rs:235-274 | How the queue loop ends: at the step limit, at the first call that can be prepared, which then waits with its own tool, or with the planner asked again |
| AgentLoop.FinalEndsOrNudges | crates/w3cos-ai-bridge/src/agent_loop.rs:112-121 | A final answer ends the run, unless a round is left and the latest tool message reports a failure or the text hands the work back; then the planner is asked again behind one more message |
| AgentLoop.LastToolFailedIff | crates/w3cos-ai-bridge/src/agent_loop.rs:319-336 | The backward search finds a failure if and only if the latest tool message reports one |
| AgentLoop.WhyItFails | crates/w3cos-ai-bridge/src/agent_loop.rs:97-313 | Every reason a run fails for has its cause in the state before the step or in what was asked |
| AgentLoop.TruncateIs | crates/w3cos-ai-bridge/src/agent_loop.rs:386-392 | At most 800 characters are kept, with an ellipsis behind a cut |
| AgentLoop.OvertakingIsOutOfTurn | crates/w3cos-ai-bridge/src/agent_loop.rs:97-131 | A completion that has a call with another id refused, within the step limit, while a call waits is answered out of turn |
| AgentLoop.SameIdInOrder | crates/w3cos-ai-bridge/src/agent_loop.rs:235-274 | Refused calls that all have the id of the waiting call keep the order of ids, which is why the condition looks at ids |
| AgentLoop.DrainAnswers | crates/w3cos-ai-bridge/src/agent_loop.rs:235-274 | The loop answers each refused call in front of the queue within the step limit, and keeps what waits when all are refused |
| AgentLoop.NoCallAnsweredTwice | crates/w3cos-ai-bridge/src/agent_loop.rs:97-313 | After any calls in any order, obedient or not, no call is answered, pending or queued more often than it was asked, and lost calls stay lost |
| AgentLoop.StaleCompletionLosesACall | crates/w3cos-ai-bridge/src/agent_loop.rs:97-131 | One way a call is dropped: a completion that stops for confirm while a call is pending replaces that call, and in every state of every run that follows its id has fewer answers than it was asked |
| AgentLoop.LostStaysLost | crates/w3cos-ai-bridge/src/agent_loop.rs:97-313 | A call that is once unaccounted for stays unanswered in every run that follows, unless it is asked again |
| AgentLoop.DrainConserves | crates/w3cos-ai-bridge/src/agent_loop.rs:235-274 | Taking calls off the queue keeps the order of asked calls, through refused calls, the step limit and the stop for confirm |
| AgentLoop.CompletionConserves | crates/w3cos-ai-bridge/src/agent_loop.rs:97-131 | A completion that answers a plan keeps the transcript law, on every branch |
| AgentLoop.ConfirmConserves | crates/w3cos-ai-bridge/src/agent_loop.rs:133-182 | A confirm that answers the sheet keeps the law: not granted, performed and failed |
| AgentLoop.StoppingConserves | crates/w3cos-ai-bridge/src/agent_loop.rs:184-222 | Reject and cancel answer the pending call and keep the answered ids a prefix |
| AgentLoop.DrainBudget | crates/w3cos-ai-bridge/src/agent_loop.rs:235-274 | Draining never passes the step limit, never changes the rounds, and stops for confirm only after a counted step |
| AgentLoop.CompletionBudget | crates/w3cos-ai-bridge/src/agent_loop.rs:97-131 | Each completion uses one round; a run that goes on is within eight rounds |
| AgentLoop.ConfirmBudget | crates/w3cos-ai-bridge/src/agent_loop.rs:133-182 | A confirm that stops for another confirm has used a further step, and no confirm uses a round |
| AgentLoop.DriveUntilDone | crates/w3cos-ai-bridge/src/agent_loop.rs:598-650 | For every planner, shell and gate, which may answer differently at each call: at most 9 planner calls and 12 confirms, so the run ends within 22 of its 32 iterations and never by the round-limit exit |
| AgentLoop.BoundsAreReached | crates/w3cos-ai-bridge/src/agent_loop.rs:598-650 | No smaller bounds hold: a planner that asks for twelve granted calls over eight rounds makes 9 planner calls and 12 confirms in 22 iterations |
| AgentLoop.ShellAgent.Begin | crates/w3cos-ai-bridge/src/agent_loop.rs:87-95 | The loop object after start, and its drive |
| AgentLoop.ShellAgent.GiveUp | crates/w3cos-ai-bridge/src/agent_loop.rs:301-313 | A failure empties queue and pending and reports no receipts |
| AgentLoop.ShellAgent.DrainQueue | crates/w3cos-ai-bridge/src/agent_loop.rs:235-274 | The loop over the queue gives exactly the specified turn |
| AgentLoop.ShellAgent.Completed | crates/w3cos-ai-bridge/src/agent_loop.rs:97-131 | The whole new state and drive of a completion |
| AgentLoop.ShellAgent.Confirmed | crates/w3cos-ai-bridge/src/agent_loop.rs:133-182 | The whole new state, drive and view of a confirm; its receipt comes first and its effects before those of the drain |
| AgentLoop.ShellAgent.Rejected | crates/w3cos-ai-bridge/src/agent_loop.rs:184-202 | The whole new state and drive of a rejection |
| AgentLoop.ShellAgent.CancelledByUser | crates/w3cos-ai-bridge/src/agent_loop.rs:204-222 | The whole new state and drive of a cancellation |
| ToolHost.RunIsSound | crates/w3cos-ai-bridge/src/tool_host.rs:208-389 | After any operations, with key, wallet and chain behaving differently at each: one slot, nothing staged between calls; Allowed signing receipts equal broadcast receipts plus one if a transaction is held; each signing receipt has a wallet request of its own that was answered, the held transaction is the latest answer, and each payload sent is the answer behind the receipt that was the latest then; every request asked for exactly the fields parsed at propose; every Allowed broadcast receipt has a send of its own that the chain took, and carries the answer; receipt ids rise |
| ToolHost.SentWasProposed | crates/w3cos-ai-bridge/src/tool_host.rs:246-377 | From proposal to payload, over every run: each payload sent is what the wallet answered when it was asked for the seven fields of a normal transaction that was proposed |
| ToolHost.EveryReceiptIsTrue | crates/w3cos-ai-bridge/src/tool_host.rs:246-713 | After any run every receipt in the log is true: the device key signed what it says, it is for the tool and the arguments that were proposed, with the decision made and what the tool gave for them (for wallet_sign the wallet's answer to the trimmed message) or why it was denied; and every message the wallet was asked to sign is that of the latest accepted wallet_sign proposal, asked in an unlocked confirm |
| ToolHost.ExecuteIsTrue | crates/w3cos-ai-bridge/src/tool_host.rs:600-683 | What running a tool says follows from what was proposed and what key, wallet and chain answer, for each of the seven tools |
| ToolHost.WalletSeesOnlyTheMessage | crates/w3cos-ai-bridge/src/tool_host.rs:265-301 | A confirm depends on personal signing only through the answer to the proposed message |
| ToolHost.ProposedIff | crates/w3cos-ai-bridge/src/tool_host.rs:246-262 | A proposal is accepted if and only if the slot is free and it stands for something, and then that waits under the next id |
| ToolHost.PreparedIff | crates/w3cos-ai-bridge/src/tool_host.rs:476-537 | What each name and its arguments stand for: the tool, the arguments that are kept and the text the tool is given |
| ToolHost.WhyRefused | crates/w3cos-ai-bridge/src/tool_host.rs:246-262 | The reason of a refusal names what is wrong with the proposal |
| ToolHost.SignedRawIs | crates/w3cos-ai-bridge/src/tx.rs:184-191 | What may be sent: 0x and 64 to 16384 hexadecimal digits, an even number |
| ToolHost.WalletSeesOnlyTheProposed | crates/w3cos-ai-bridge/src/tool_host.rs:265-301 | A confirm depends on the wallet only through its answer for the proposed transaction: the wallet is asked for nothing else |
| ToolHost.ChainSeesOnlyTheHeld | crates/w3cos-ai-bridge/src/tool_host.rs:305-343 | A broadcast depends on the chain only through its answer for the held payload: nothing else is sent |
| ToolHost.LockedAsksNobody | crates/w3cos-ai-bridge/src/tool_host.rs:265-343 | While locked, a confirm and a broadcast ask nobody, send nothing and write no Allowed receipt |
| ToolHost.ExecuteAsks | crates/w3cos-ai-bridge/src/tool_host.rs:600-647 | Running the pending tool asks the wallet for the proposed fields and stages its answer, or asks nothing |
| ToolHost.LedgerIsGapless | crates/w3cos-ai-bridge/src/tool_host.rs:246-389 | Without set_next_id the receipts have the ids 1, 2, 3 and so on, and their number plus a waiting proposal is the next id less one |
| ToolHost.FailedSealChangesNothing | crates/w3cos-ai-bridge/src/tool_host.rs:265-389 | A decision that answers an error, a failed seal among them, changes none of pending, held, the next id and the receipts |
| ToolHost.AtMostOnce | crates/w3cos-ai-bridge/src/tool_host.rs:305-377 | In a run each signed transaction is sent at most once if and only if no broadcast reaches the network while the held transaction went out before and still has no receipt; every part of the condition is a guard on the state before a call and on the key, endpoint and payload of the call |
| ToolHost.SealedSendsOnce | crates/w3cos-ai-bridge/src/tool_host.rs:305-377 | When the device key signs the receipt of every send, each signed transaction is sent at most once |
| ToolHost.SendsTwice | crates/w3cos-ai-bridge/src/tool_host.rs:305-377 | The condition is met from the start: propose, unlock, confirm and two broadcasts under a key that does not sign send the same payload twice |
| ToolHost.UnsettledIsSent | crates/w3cos-ai-bridge/src/tool_host.rs:305-377 | The condition, read off the operations, holds if and only if the latest payload sent is the transaction that is still held |
| ToolHost.ProposeSound | crates/w3cos-ai-bridge/src/tool_host.rs:246-262 | A proposal keeps the invariant, and what it stores is the normal form of what was proposed |
| ToolHost.ConfirmSound | crates/w3cos-ai-bridge/src/tool_host.rs:265-301 | A confirm keeps the invariant on every branch: locked, failed, signed, seal lost; what it holds is the answer of the wallet |
| ToolHost.SendSound | crates/w3cos-ai-bridge/src/tool_host.rs:305-377 | Broadcast and decline keep the invariant on every branch |
| ToolHost.ClaimIsSent | crates/w3cos-ai-bridge/src/tool_host.rs:305-377 | A broadcast that writes an Allowed receipt has sent the held payload in that call and the receipt carries what the chain answered |
| ToolHost.HeldWasSentStep | crates/w3cos-ai-bridge/src/tool_host.rs:246-389 | Each operation, from any sound state: when the held transaction becomes one that went out, and that the operation repeats a payload if and only if it sends such a one |
| ToolHost.ToolHost.SetNextId | crates/w3cos-ai-bridge/src/tool_host.rs:208-212 | The next id only rises |
| ToolHost.ToolHost.ProposeTool | crates/w3cos-ai-bridge/src/tool_host.rs:246-262 | New state and answer of a proposal: one at a time, no second one while a transaction is held |
| ToolHost.ToolHost.ExecutePending | crates/w3cos-ai-bridge/src/tool_host.rs:600-647 | A signed transaction is staged, not answered; the stored arguments are parsed again before the wallet is asked |
| ToolHost.ToolHost.ExecuteChain | crates/w3cos-ai-bridge/src/tool_host.rs:649-683 | A chain read: no endpoint, a refused request, no answer or an unreadable one, and the line for what it tells |
| ToolHost.ToolHost.SealReceipt | crates/w3cos-ai-bridge/src/tool_host.rs:685-713 | The sealed body carries the id, tool, arguments, decision and tier of the proposal |
| ToolHost.ToolHost.ConfirmPending | crates/w3cos-ai-bridge/src/tool_host.rs:265-301 | New state, answer and signing request of a confirm; the staged transaction becomes the held one or is dropped |
| ToolHost.ToolHost.CancelPending | crates/w3cos-ai-bridge/src/tool_host.rs:380-389 | New state and answer of a cancel |
| ToolHost.ToolHost.Finish | crates/w3cos-ai-bridge/src/tool_host.rs:357-377 | A broadcast decision uses one id, releases the held transaction and adds one receipt, or changes nothing |
| ToolHost.ToolHost.BroadcastHeld | crates/w3cos-ai-bridge/src/tool_host.rs:305-343 | New state, answer and payload of a broadcast |
| ToolHost.ToolHost.Decline | crates/w3cos-ai-bridge/src/tool_host.rs:346-355 | New state and answer of a decline; nothing is sent |
| Decimal.TimesTenPlus | crates/w3cos-ai-bridge/src/tx.rs:229-246 | One digit of the in-place multiply-add is exact: new value plus the carry at the top weight is ten times the old value plus the digit, and the carry stays below ten |
| Decimal.ToBe32 | crates/w3cos-ai-bridge/src/tx.rs:222-246 | 32 bytes that stand for the number, exactly when the text is accepted decimal and below 2^256 |
| Decimal.ToU128 | crates/w3cos-ai-bridge/src/tx.rs:248-256 | The number, exactly when the text is accepted decimal and below 2^128 |
| Decimal.PrintedIsAccepted | crates/w3cos-ai-bridge/src/tx.rs:193-227 | Every number below 2^256, printed, is accepted and reads back: the limit of 78 digits excludes none |
| Decimal.NumberOfText | crates/w3cos-ai-bridge/src/tx.rs:193-227 | Decimal printing reads back and writes no leading zero |
| Bytes.HexRoundTrip | crates/w3cos-ai-bridge/src/tx.rs:258-309 | Decoding encoded bytes gives the bytes back |
| Bytes.HexBytesIff | crates/w3cos-ai-bridge/src/tx.rs:258-309 | A text is read if and only if it has an even number of hexadecimal digits, in either case |
| Bytes.HexBytesIsBase16 | crates/w3cos-ai-bridge/src/tx.rs:258-309 | The bytes read are the big-endian number that the text stands for in base 16 |
| Bytes.HexBytesIsLower | crates/w3cos-ai-bridge/src/tx.rs:258-309 | Printing the bytes read gives the text in lower case |
| Decimal.AcceptedIsPrinted | crates/w3cos-ai-bridge/src/tx.rs:193-227 | An accepted decimal text is the one its number is printed as |
| Bytes.HexEncode | crates/w3cos-ai-bridge/src/tx.rs:292-300 | The loop writes two lower-case digits for each byte |
| Bytes.HexDecode | crates/w3cos-ai-bridge/src/tx.rs:258-290 | The decoding loop shared by addresses and data: any non-digit refuses the text |
| Tx.AcceptedIsNormal | crates/w3cos-ai-bridge/src/tx.rs:37-83 | What a proposal parses into is in normal form: ranges, lengths, printed fields that stand for the binary ones |
| Tx.NormalRoundTrip | crates/w3cos-ai-bridge/src/tx.rs:37-101 | Printing a normal transaction and parsing the print gives the same transaction on all eleven fields |
| Tx.NormalIsParsed | crates/w3cos-ai-bridge/src/tx.rs:37-83 | A transaction is in normal form if and only if some proposal parses into it |
| Tx.ProposedIsStored | crates/w3cos-ai-bridge/src/tx.rs:37-101 | For every accepted proposal, parsing its canonical form again gives the same transaction |
| Tx.ParsedIff | crates/w3cos-ai-bridge/src/tx.rs:37-83 | A proposal is accepted if and only if it stands for a transaction, and as that one: numbers as given, address and data as the bytes that their digits stand for, their texts in lower case, decimal texts as the numbers are printed |
| Tx.RefusedFor | crates/w3cos-ai-bridge/src/tx.rs:37-83 | A foreign key is told apart from fields that stand for nothing |
| Base64Url.DecodeInvertsEncode | crates/w3cos-ai-bridge/src/identity.rs:439-506 | Decoding an encoding gives the data back if and only if they are 1 to 3072 bytes |
| Base64Url.EncodeInvertsDecode | crates/w3cos-ai-bridge/src/identity.rs:439-506 | Encoding an accepted text decoded gives the text back if and only if the unused bits of its last character are zero |
| Base64Url.EncodedLength | crates/w3cos-ai-bridge/src/identity.rs:439-462 | The length is 4n/3 rounded up, and never 1 modulo 4 |
| Base64Url.EncodedCharacter | crates/w3cos-ai-bridge/src/identity.rs:439-462 | Character k of an encoding is the alphabet's character for the k-th six bits of the data, high bits first, zero bits appended |
| Base64Url.EncodeIsNumber | crates/w3cos-ai-bridge/src/identity.rs:439-462 | An encoding stands for the big-endian number of the data with the filling zero bits |
| Base64Url.DecodeIsNumber | crates/w3cos-ai-bridge/src/identity.rs:464-506 | Decoding gives the number of the text without the bits that fill its last character |
| Base64Url.AlphabetIs | crates/w3cos-ai-bridge/src/identity.rs:440-475 | The 64 characters in order: upper case, lower case, digits, hyphen, underscore; each has its place as value |
| Base64Url.InAlphabet | crates/w3cos-ai-bridge/src/identity.rs:425-429 | The accepted characters are those of the alphabet |
| Base64Url.EncodeText | crates/w3cos-ai-bridge/src/identity.rs:439-462 | The encoding loop with its short tail gives the specified text |
| Base64Url.DecodeText | crates/w3cos-ai-bridge/src/identity.rs:464-506 | The decoder: empty, over 4096 characters, foreign characters and length 1 modulo 4 are refused, all else decodes |
| Base64Url.DecodeLoop | crates/w3cos-ai-bridge/src/identity.rs:464-506 | The decoding loop over groups of four with a tail of two or three |
| Base64Url.DecodeEncodedGroup | crates/w3cos-ai-bridge/src/identity.rs:439-506 | The bit arithmetic of one group of one to three bytes round-trips |
| Base64Url.EncodeDecodedGroup | crates/w3cos-ai-bridge/src/identity.rs:439-506 | The bit arithmetic of one group of characters round-trips exactly when the spare bits are zero |
| Identity.DeviceAssertionAcceptedIff | crates/w3cos-ai-bridge/src/identity.rs:187-274 | An assertion the device made for a challenge is accepted if and only if that challenge is the stored one and the device key is the same; the accepted identity is stated in full |
| Identity.AcceptedMeansSigned | crates/w3cos-ai-bridge/src/identity.rs:187-274 | Nothing is accepted without a device-key signature over the stored challenge, this origin, this relying party and a present and verified user |
| Identity.AcceptCarried | crates/w3cos-ai-bridge/src/identity.rs:187-274 | The order of checks, for a text that carries well-made client data |
| Identity.PrintedCarries | crates/w3cos-ai-bridge/src/identity.rs:359-395 | What the device prints carries the four parts it was made of, within the size limit |
| Identity.FaithfulLibraryExists | crates/w3cos-ai-bridge/src/identity.rs:359-387 | What the ceremony theorem assumes of the libraries can be met, and then the device does make an assertion: the theorem is not empty |
| Identity.AssertionInjective | crates/w3cos-ai-bridge/src/identity.rs:359-387 | Printed assertions with base64url values differ when any value does, so reading them back is possible |
| Identity.VerifierRoundTrip | crates/w3cos-ai-bridge/src/identity.rs:516-594 | A printed verifier parses back into its salt and hash |
| Identity.ParsedIsVerifier | crates/w3cos-ai-bridge/src/identity.rs:557-594 | What is read as a verifier is the prefix, 100000, a salt of 16 bytes and a hash of 32 bytes, between dollar signs |
| Identity.FaultHasCause | crates/w3cos-ai-bridge/src/identity.rs:187-274 | Apart from unreadable texts, the fault names the first thing that is wrong with the assertion |
| Identity.DidKeyIs | crates/w3cos-ai-bridge/src/identity.rs:508-514 | The did:key filter, spelled out |
| Identity.StoredMaterialIs | crates/w3cos-ai-bridge/src/identity.rs:431-437 | The filters for stored challenges and keys, over the alphabet |
| Identity.SealedPinVerifies | crates/w3cos-ai-bridge/src/identity.rs:516-570 | Against a sealed pin exactly the strings with the same derived key verify |
| Identity.ConstantEq | crates/w3cos-ai-bridge/src/identity.rs:408-419 | The fold over all bytes is zero if and only if both sides are equal |
| Identity.LocalIdentity.Begin | crates/w3cos-ai-bridge/src/identity.rs:131-139 | New challenge, no key, awaiting; without randomness nothing changes |
| Identity.LocalIdentity.StoreKey | crates/w3cos-ai-bridge/src/identity.rs:153-160 | Stored only behind a challenge and within 1 to 128 bytes |
| Identity.LocalIdentity.Restore | crates/w3cos-ai-bridge/src/identity.rs:162-169 | Both values pass their filter or are dropped |
| Identity.LocalIdentity.SetEnrollment | crates/w3cos-ai-bridge/src/identity.rs:171-179 | Enrollment, and the passkey method for a verified real did:key |
| Identity.LocalIdentity.AcceptAssertion | crates/w3cos-ai-bridge/src/identity.rs:187-274 | The sequence of checks gives the specified fault or the full new state; on a fault nothing changes |
| Identity.LocalIdentity.Install | crates/w3cos-ai-bridge/src/identity.rs:284-295 | A did:key replaces subject and method, anything else changes nothing |
| Identity.LocalIdentity.RestorePin | crates/w3cos-ai-bridge/src/identity.rs:309-324 | A verifier is kept, an old plaintext pin is sealed and reported for writing back |
| Identity.LocalIdentity.UnlockWith | crates/w3cos-ai-bridge/src/identity.rs:329-345 | First unlock seals, later ones verify; a failure changes nothing |
| Session.ReloadIsIdentity | crates/w3cos-ai-bridge/src/intent.rs:339-380 | After any run over any ledger, a fresh session reads back the same receipts, signed receipts, subject, enrollment, challenge, public key, verifier and next id, if and only if not both a plaintext pin is still on the ledger and there is randomness to seal it on that load |
| Session.UnlockedIff | crates/w3cos-ai-bridge/src/identity.rs:297-345 | A session is locked when it is opened; after any run it is unlocked if and only if an unlock was accepted, by a passphrase that matches the verifier of that moment or the first one that could be sealed, with no lock after it |
| Session.SubjectIsThat | crates/w3cos-ai-bridge/src/intent.rs:442-489 | After any run the subject is the latest one that was replaced by a did:key or bound by an accepted assertion |
| Session.MaterialIsThat | crates/w3cos-ai-bridge/src/intent.rs:404-497 | After any run challenge, public key, enrollment and method are what the latest accepted step of each kind left |
| Session.ReceiptsOnlyGrow | crates/w3cos-ai-bridge/src/intent.rs:702-726 | Receipts are only added, with ids that run on from where the session was opened |
| Session.ReceiptStep | crates/w3cos-ai-bridge/src/intent.rs:404-726 | What a pushed and a recorded receipt add, and that nothing else adds any |
| Session.PinStaysPlain | crates/w3cos-ai-bridge/src/intent.rs:339-380 | A plaintext pin is on the ledger after a run only if it was there before, could not be sealed at load, and nothing durable was changed |
| Session.SealedIsWritten | crates/w3cos-ai-bridge/src/intent.rs:339-380 | A pin sealed at load is written at once, and after any run the ledger holds the session |
| Session.WriteErasesThePin | crates/w3cos-ai-bridge/src/intent.rs:339-380 | After any run of a session that could not seal a plaintext pin: without a write the ledger is as it was; from the first write on, whatever it is, the ledger holds the seal of the first passphrase given with randomness, or no pin while there is none |
| Session.WritesOrNot | crates/w3cos-ai-bridge/src/intent.rs:404-748 | Which operations write, by a guard on the state before: a write leaves exactly the session on the ledger, any other operation leaves the ledger alone |
| Session.RestoreInto | crates/w3cos-ai-bridge/src/intent.rs:339-380 | The restore sequence of pin, subject, enrollment and passkey material gives exactly the restored identity |
| Session.RunIsSettled | crates/w3cos-ai-bridge/src/intent.rs:404-749 | After any run, every stored value passes the filter that reads it back, the next id is the largest id plus one, and disk and session agree on what is durable |
| Session.PerformIsRestorable | crates/w3cos-ai-bridge/src/intent.rs:404-726 | Each operation leaves only values that their restore filters accept |
| Session.WrittenReadsBack | crates/w3cos-ai-bridge/src/intent.rs:339-380 | Loading what a restorable session wrote gives its durable state |
| Session.ReloadedMethod | crates/w3cos-ai-bridge/src/intent.rs:339-380 | The identity method is not durable: a reload derives it from subject and enrollment |
| Session.NextAfterPush | crates/w3cos-ai-bridge/src/intent.rs:702-726 | A pushed receipt has an id above all earlier ones, and the next id follows it |
| Session.IntentSession.WithLedger | crates/w3cos-ai-bridge/src/intent.rs:339-380 | Opening a session over a ledger gives exactly the loaded state, and writes it when a pin was migrated |
| Session.IntentSession.WriteBack | crates/w3cos-ai-bridge/src/intent.rs:728-748 | The ledger holds what the session holds |
| Session.IntentSession.PushReceipt | crates/w3cos-ai-bridge/src/intent.rs:702-726 | One receipt with the next id and the current subject, then written |
| Session.IntentSession.Record | crates/w3cos-ai-bridge/src/intent.rs:404-407 | A signed receipt is appended and written |
| Session.IntentSession.Note | crates/w3cos-ai-bridge/src/intent.rs:426-429 | Enrollment is marked and written |
| Session.IntentSession.Begin | crates/w3cos-ai-bridge/src/intent.rs:433-437 | With randomness its encoding becomes the challenge, is returned and is written; without it nothing changes |
| Session.IntentSession.AcceptText | crates/w3cos-ai-bridge/src/intent.rs:442-452 | Written exactly when the assertion was accepted |
| Session.IntentSession.Store | crates/w3cos-ai-bridge/src/intent.rs:461-467 | Stored and written, and answered so, exactly when there is a challenge and the key has 1 to 128 bytes |
| Session.IntentSession.Replace | crates/w3cos-ai-bridge/src/intent.rs:483-489 | Replaced and written, and answered so, exactly for a did:key |
| Session.IntentSession.UnlockSession | crates/w3cos-ai-bridge/src/intent.rs:491-497 | Unlocked and written, and answered so, exactly when the passphrase matches the verifier, or there is none yet and one can be sealed |
| Session.IntentSession.LockSession | crates/w3cos-ai-bridge/src/intent.rs:422-424 | Locking changes nothing durable |
| Gate.RunIsSound | crates/w3cos-ai-bridge/src/mcp.rs:299-452 | Over all interleavings: accepted proposals are each taken, cancelled or pending, once; a call is taken only after arming, and what is handed over is the call that was accepted under that number; each taken call stores one outcome, in order, and the outcome carries the name and summary of its proposal and what the main loop answered; each report hands over the outcome it reports, in stored order, once, and never a cancellation; entries leave only from behind eight newer ones |
| Gate.NoOutcomeIsLost | crates/w3cos-ai-bridge/src/mcp.rs:416-452 | Every stored outcome was handed to the window, or still waits, or has at least eight newer entries behind it |
| Gate.ProposalAnswer | crates/w3cos-ai-bridge/src/mcp.rs:328-352 | After any run a proposal is refused as pending if and only if an earlier one is neither taken nor cancelled, and as no tool if and only if the table refuses; a refusal changes nothing |
| Gate.NamelessIsNoTool | crates/w3cos-ai-bridge/src/mcp.rs:299-305 | A call from outside the table is refused under no name and under the name of the confirm intent, and under no other |
| Gate.MarkInOrder | crates/w3cos-ai-bridge/src/mcp.rs:441-452 | Reporting the first unreported outcome keeps the reports in order and without repetition |
| Gate.StoreCounted | crates/w3cos-ai-bridge/src/server.rs:214-224 | The main loop stores one outcome for the call it took before it takes another |
| Gate.StoreHanded | crates/w3cos-ai-bridge/src/mcp.rs:416-439 | What is stored has the name and summary of the proposal whose call was taken, its note up to the limit, and its body or only the size of it |
| Gate.TakeCounted | crates/w3cos-ai-bridge/src/mcp.rs:383-392 | Taking an armed call settles its proposal once |
| Gate.TakeHanded | crates/w3cos-ai-bridge/src/mcp.rs:383-392 | The call handed over and the name in flight are those of the accepted proposal |
| Gate.CancelCounted | crates/w3cos-ai-bridge/src/mcp.rs:396-409 | Cancelling settles the proposal once and its entry counts as reported |
| Gate.CancelHanded | crates/w3cos-ai-bridge/src/mcp.rs:396-409 | The name given back and the entry stored are those of the accepted proposal |
| Gate.ReportHanded | crates/w3cos-ai-bridge/src/mcp.rs:441-452 | The outcome given to the window is the stored one that it marks |
| Gate.Mailbox.ProposeTool | crates/w3cos-ai-bridge/src/mcp.rs:328-352 | New mailbox and answer: the tool table first, then one proposal at a time |
| Gate.Mailbox.ProposeCall | crates/w3cos-ai-bridge/src/mcp.rs:299-326 | New mailbox and answer of a call from outside the table: an unnamed one and the confirm intent are refused |
| Gate.Mailbox.ArmPending | crates/w3cos-ai-bridge/src/mcp.rs:356-380 | Arming marks the pending call and nothing else |
| Gate.Mailbox.Take | crates/w3cos-ai-bridge/src/mcp.rs:383-392 | Only an armed call leaves the mailbox, and its name becomes the one in flight |
| Gate.Mailbox.CancelPending | crates/w3cos-ai-bridge/src/mcp.rs:396-409 | The cancellation entry, already marked as reported |
| Gate.Mailbox.StoreOutcome | crates/w3cos-ai-bridge/src/mcp.rs:416-439 | The outcome under the name in flight, note and body cut, at most the last eight kept |
| Gate.Mailbox.Report | crates/w3cos-ai-bridge/src/mcp.rs:441-452 | The oldest unreported outcome is marked and returned |
| EditDistance.LevIsLeastNumberOfEdits | crates/w3cos-ai-bridge/src/l1.rs:122-139 | The recurrence is the least length of any chain of insertions, deletions and substitutions at any positions |
| EditDistance.ComputeDistance | crates/w3cos-ai-bridge/src/l1.rs:122-139 | The two-row program returns that number, or the largest word when a side has more than 64 characters |
| EditDistance.LevTriangle | crates/w3cos-ai-bridge/src/l1.rs:122-139 | Triangle inequality, by composing alignments |
| EditDistance.LevSymmetric | crates/w3cos-ai-bridge/src/l1.rs:122-139 | Symmetry |
| EditDistance.LevZero | crates/w3cos-ai-bridge/src/l1.rs:122-139 | Zero if and only if the strings are equal |
| EditDistance.AlignmentCostsAtLeastLev | crates/w3cos-ai-bridge/src/l1.rs:122-139 | No alignment is cheaper than the recurrence |
| EditDistance.LevIsAligned | crates/w3cos-ai-bridge/src/l1.rs:122-139 | Some alignment costs exactly the recurrence |
| EditDistance.Compose | crates/w3cos-ai-bridge/src/l1.rs:122-139 | Two alignments compose at no more than their joint cost |
| EditDistance.ChainCostsAtLeastLev | crates/w3cos-ai-bridge/src/l1.rs:122-139 | No chain of single edits is shorter than the recurrence |
| EditDistance.LevIsAChain | crates/w3cos-ai-bridge/src/l1.rs:122-139 | Some chain of single edits has exactly that length |
| EditDistance.FuzzyMatch | crates/w3cos-ai-bridge/src/l1.rs:96-120 | The first of the closest phrases within its typo limit; none exactly when no phrase is close |
| EditDistance.CloseIs | crates/w3cos-ai-bridge/src/l1.rs:96-120 | Close means: other than the phrase of at least five characters, and one edit away from it, or two for eight characters or more |
| RateLimiter.SlidingBound | crates/w3cos-ai-bridge/src/permissions.rs:301-314 | With limits up to a maximum, and no call granted at a time before the window it is counted in, every interval of k seconds, wherever it begins, has at most (k+1) times the maximum less one grants |
| RateLimiter.OrderlyIsOnTime | crates/w3cos-ai-bridge/src/permissions.rs:301-314 | A clock that does not go back meets that condition |
| RateLimiter.BoundIsReached | crates/w3cos-ai-bridge/src/permissions.rs:301-314 | No smaller bound holds: some run reaches it for every maximum and every k |
| RateLimiter.GrantsAreBounded | crates/w3cos-ai-bridge/src/permissions.rs:301-314 | The bound by the open window: windows open with a grant and at least a second apart |
| RateLimiter.DeniedHasACause | crates/w3cos-ai-bridge/src/permissions.rs:301-314 | A call under the largest limit so far is denied only when that many grants lie in the second that ends with it |
| RateLimiter.SetBackGrants | crates/w3cos-ai-bridge/src/permissions.rs:301-314 | A clock that falls back to one instant in every window breaks the condition, and the grants at that instant are unbounded |
| RateLimiter.ActionRateLimiter.TryAcquire | crates/w3cos-ai-bridge/src/permissions.rs:301-314 | New window and answer of one call; the count never passes the limit |
| Loader.LoaderFiles | crates/w3cos-ai-bridge/src/sandbox.rs:247-270 | Terminates on a finite file universe; succeeds if and only if every reachable file can be read and its libraries found; each canonical file is expanded once, and the expanded ones are exactly the reachable ones |
| Loader.ListedFilesAreTheReachable | crates/w3cos-ai-bridge/src/sandbox.rs:247-270 | The canonical entries of the list are exactly the files reachable through interpreter and needed edges; every other entry is an alias of one |
| Loader.NothingIsListedTwice | crates/w3cos-ai-bridge/src/sandbox.rs:247-270 | The list has no duplicates, aliases included |
| Loader.AliasFollows | crates/w3cos-ai-bridge/src/sandbox.rs:247-258 | Another name of a file stands right behind the file |
| Loader.PathsAre | crates/w3cos-ai-bridge/src/sandbox.rs:259-266 | A file refers to its interpreter and to the libraries its needed names are found as |
| Loader.PushPaths | crates/w3cos-ai-bridge/src/sandbox.rs:260-267 | One round pushes exactly the paths a file refers to, or fails |
| Loader.StageRoot | crates/w3cos-ai-bridge/src/sandbox.rs:502-529 | Succeeds if and only if every reachable path is whole and can be copied; the copies with the executable are exactly the reachable paths, each absolute |
| Loader.StagePaths | crates/w3cos-ai-bridge/src/sandbox.rs:516-526 | One round copies and pushes exactly the paths a file refers to, or fails |
| Loader.StagedAreListed | crates/w3cos-ai-bridge/src/sandbox.rs:247-529 | Both sandboxes see the same files: the canonical paths of what is staged are the canonical paths that are listed |
| Loader.StagingIsListingAndCopying | crates/w3cos-ai-bridge/src/sandbox.rs:247-529 | Staging succeeds on the dependencies if and only if listing succeeds and every referred path can be copied |
| Closure.Finish | crates/w3cos-ai-bridge/src/sandbox.rs:247-270 | A worklist that has nothing left has expanded exactly the reachable nodes |
| Closure.Expand | crates/w3cos-ai-bridge/src/sandbox.rs:247-270 | Expanding a node keeps the closure invariant |
| ProcessTree.TreeIds | tools/perf-native-browser/run.py:282-293 | Exactly the pids reachable by parent-to-child steps from the roots that are in the table |
| ProcessTree.PushChildren | tools/perf-native-browser/run.py:290-292 | The scan of the table pushes exactly the children |
| ProcessTree.BelowIsAncestry | tools/perf-native-browser/run.py:282-293 | Read bottom-up: a pid is selected if and only if its chain of parents leads to a root without leaving the table, cycles included |
| MdStream.StreamAppending | tools/perf-native-browser/workloads.ts:837-885 | However the source is cut into tokens, the reply shows what the whole source determines: one block per finished line under the fence state, then a paragraph with the open line if there is one |
| MdStream.StreamRerendering | tools/perf-native-browser/workloads.ts:837-908 | The rerender strategy shows the lines it froze, then the open text rendered again |
| MdStream.ReplyAt | tools/perf-native-browser/workloads.ts:837-885 | The appended reply, block by block: the lines of the source, code lines behind an odd number of fences, then the open line as a paragraph |
| MdStream.RerenderedAt | tools/perf-native-browser/workloads.ts:886-908 | The rerendered reply, block by block |
| MdStream.FrozenIsSource | tools/perf-native-browser/workloads.ts:886-901 | In any stream the frozen lines and the open text make up the source, and each token with a newline freezes one line |
| MdStream.InCodeIsOdd | tools/perf-native-browser/workloads.ts:860-866 | The text is code behind an odd number of lines that begin with three backticks |
| MdStream.RerenderAgreesIff | tools/perf-native-browser/workloads.ts:850-908 | Both strategies freeze the same lines if and only if no token holds two newlines |
| MdStream.FrozenAreFinished | tools/perf-native-browser/workloads.ts:886-901 | With single newlines the frozen lines are the finished lines of the source |
| MdStream.SplitIsLines | tools/perf-native-browser/workloads.ts:852-859 | Finished lines and open text are what splitting at newlines gives |
| MdStream.JoinOfSplit | tools/perf-native-browser/workloads.ts:852-854 | Joining the parts of a token gives the token |
| MdStream.Page.FeedAppending | tools/perf-native-browser/workloads.ts:849-885 | One token keeps the page in step with the source |
| MdStream.Page.FinishLine | tools/perf-native-browser/workloads.ts:855-873 | A newline replaces the open paragraph by the rendered line |
| MdStream.Page.AddPiece | tools/perf-native-browser/workloads.ts:874-884 | Text without a newline extends the open paragraph, made when it is missing |
| MdStream.Page.CloseLine | tools/perf-native-browser/workloads.ts:859-872 | Fence state, the block that is removed and the block that is added |
| MdStream.Page.FeedRerendering | tools/perf-native-browser/workloads.ts:886-908 | One token freezes at most one line and renders the open text again |
| MdStream.Page.RenderOpen | tools/perf-native-browser/workloads.ts:902-907 | The open block is replaced by a new one with the open text |
| Highlight.Lossless | tools/perf-native-browser/workloads.ts:563-597 | For every line the concatenated text of the nodes is the line |
| Highlight.NodesAreNormal | tools/perf-native-browser/workloads.ts:549-597 | No text node is empty or next to another; strings, numbers, comments and keywords are whole; plain text holds no quote, no comment opener, no number of its own and no keyword |
| Highlight.Element.Highlight | tools/perf-native-browser/workloads.ts:563-597 | The lexer terminates and appends exactly the specified nodes |
| Highlight.Element.Flush | tools/perf-native-browser/workloads.ts:566-568 | Collected text becomes one node, or none when there is none |
| Highlight.LexKeepsText | tools/perf-native-browser/workloads.ts:563-597 | From any position the nodes spell what was collected and the rest of the line |
| Highlight.LexIsNormal | tools/perf-native-browser/workloads.ts:563-597 | From any position fit text collected so far leads to a normal node list |
| Highlight.ClassesAre | tools/perf-native-browser/workloads.ts:549-556 | Digits, quotes and identifier characters |
| DomWorkloads.Container.Reconcile | tools/perf-native-browser/workloads.ts:1010-1014 | For any permutation of the children, the single cursor pass leaves the child list equal to the rows |
| DomWorkloads.Shuffle | tools/perf-native-browser/workloads.ts:1005-1008 | The in-place shuffle gives exactly the specified order of the draws, a permutation |
| DomWorkloads.EveryOrderIsShuffled | tools/perf-native-browser/workloads.ts:1005-1008 | Every order of the rows is reached for some draws |
| DomWorkloads.KeyedRounds | tools/perf-native-browser/workloads.ts:1004-1015 | Any number of rounds: children and rows agree after each, and rows stay a permutation |
| DomWorkloads.MoveUp | tools/perf-native-browser/workloads.ts:1011-1014 | Moving a row before the cursor puts one more row in place |
| DomWorkloads.Pick | tools/perf-native-browser/workloads.ts:1006 | A draw in [0, 1) scaled and floored is an index in range |
| DomWorkloads.MoveToEndOrder | tools/perf-native-browser/workloads.ts:77-82 | After any sequence of appendChild moves: untouched nodes in their order, then touched ones by last touch |
| DomWorkloads.CoprimeStride | tools/perf-native-browser/workloads.ts:77-82 | With a stride coprime to the node count and at least as many updates as nodes: exactly the last touched nodes, in order |
| DomWorkloads.StrideIsInjective | tools/perf-native-browser/workloads.ts:77-78 | Two multiples of a coprime stride meet modulo the count only when the counters do |
| DomWorkloads.Bezout | tools/perf-native-browser/workloads.ts:77-78 | The greatest common divisor is a combination of both numbers |
| DomWorkloads.MoveByStride | tools/perf-native-browser/workloads.ts:77-82 | The update loop for any stride and count |
| DomWorkloads.UpdateLoop | tools/perf-native-browser/workloads.ts:77-82 | With the page's 1000 nodes, 8000 updates and stride 17 the list ends as the nodes of the last 1000 updates, in order |

## Left out

Abstracted or narrowed in what is modelled:

- Integer widths of ids: receipt and proposal ids are unbounded, so overflow of the 64-bit counters is not modelled. The planner round counter keeps its 8-bit saturation.
- JSON text: values stand for their text and printing then reading is the identity; in the assertion ceremony this is the assumption `ReadsBack` about client data with any plain values and about assertions with any base64url values, which FaithfulLibraryExists shows can be met.
- Cryptography: hashes, signatures, key derivation and did:key encoding are arbitrary functions; only the lengths and the law that a signature verifies are assumed, where a theorem names them.
- Randomness: random bytes and draws are parameters. A draw is any real in [0, 1), so floating-point rounding of the scaled draw and the generator behind it are not modelled.
- Agent loop display fields: steps, timing, summary, impact and outcome copy of a drive are left out, and so is the shared mailbox whose check and store are separate steps.
- Tool host sentences: a message line is its key with arguments, not its localised text, and the numbers in the arguments of a refusal are left out; the JSON-RPC dispatch, previews and the host mailbox are left out, and building, sending and reading a chain request are parameters.
- Gate: the tool table and the summary text are parameters; the impact text, the wording of the cancellation notice in other languages, the layout preparation that `arm` requests, `result_json` and `reset_gate` are left out.
- Gate.StoreCounted: relies on the main loop taking, handling and storing on one thread; a handler that panics between take and store is not modelled.
- Session.RunIsSettled: the ledger always accepts a write; a failed or skipped write, encryption and the file format are not modelled, and the command proposals of the session are represented by the receipts they push.
- Session.ReloadIsIdentity: the unlocked flag and the identity method are not durable in the source either; ReloadedMethod says what becomes of the method.
- Identity.LocalIdentity.AcceptAssertion: compares challenges as strings; that the byte-wise comparison of the source is equality is ConstantEq.
- Identity: text of enrollment copy, passkey stub unlock and random failure of the platform beyond "no bytes" are left out.
- Loader.LoaderFiles: the order in which files are expanded is not specified, only that an alias follows its file; paths are compared as texts, where the source compares path components; the file system does not change during the walk, and the finite set of files is a ghost parameter.
- Loader.ListedFilesAreTheReachable: assumes canonical paths are their own canonical path and a file reads the same under all its names.
- Loader.StageRoot: returns the set of copied paths; the fresh directory, the copy named `tool` and partial copies left after a failure are not modelled.
- Loader ELF reading: the entries of a file are a function of its path; parsing the headers is left out.
- ProcessTree.TreeIds: reading the process table and the sums over it are left out.
- RateLimiter.SlidingBound: asks that no call is granted before the window it is counted in; SetBackGrants shows why.
- MdStream: `mdRender` and the colouring are functions of the line, so a block is its kind and text; scrolling and timing are left out.
- Highlight: JavaScript strings are 16-bit code units; the DOM element is its node list.
- DomWorkloads: only the child list of an element is modelled, not attributes, layout or timing; the churn and parse phases are left out.
- EditDistance.FuzzyMatch: the exact rules and the synonym table that run before it are left out.

Out of scope: HTTP serving and request parsing, sockets, files, threads, process spawning and the Landlock
calls, because they are input and output with little logic of their own; permission presets, page selectors,
ABI packing, media queries, ARIA roles, Web API tables and string catalogues, because each is a table or a
single expression whose statement would repeat it; build and benchmark orchestration, because it is scripts
around other programs.
