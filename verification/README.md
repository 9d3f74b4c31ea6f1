# Verified models of the issuer front end's protocols

This project states and proves, in Dafny 4.11, what the repository's stateful
parts are for: the crash-safe "Send to wallets" distribution, the share
class's capped supply, the recognition of base58 addresses and the guards of a
production build, the single-send panels, session-bound account operations,
the pause flags and the market overview. `dafny verify dfyconfig.toml` checks
all of it.

## How the files fit together

| file | what it models |
|---|---|
| `Journal.dfy` | the run journal and its reading back against the network: the loops of `evaluateRun` and `rowStates`, each tied to a function whose meaning is proved |
| `Distribution.dfy` | the send as a state machine over one chain, one journal on disk, one page and one tab, one event per stretch of code between two awaits |
| `Safety.dfy` | the invariant of that machine and its preservation by every event |
| `Guarantees.dfy` | what follows for every run: a row is paid at most once, the journal is written ahead |
| `Conservation.dfy` | where every row's tokens are, and how many tokens the run creates |
| `Repaid.dfy` | every transfer of every run against the paid-before reading it went through |
| `Limits.dfy` | the conditions the code itself does not secure: each with its exact condition and a run that breaks without it |
| `Session.dfy` | the send's own loops over its journal, as a class, and the status each transaction ends with |
| `Plan.dfy` | packing, test-running and grouping the transfers |
| `Consent.dfy` | wallets paid before, and the consent bound to one run and one set |
| `Screening.dfy` | fresh screening evidence for what is handed to the wallet |
| `Supply.dfy` | one class's supply: created, on sale, reserved, approved; as a step function and as a class |
| `Base58.dfy` | `isBase58Address` against the encoding of draft-msporny-base58, sections 2 to 4 |
| `BuildGuards.dfy` | the guard sequence of `next.config.ts` |
| `SinglePanel.dfy` | the share-transfer and treasury-mint panels over a send that checks its session, with the wallet and the class changing at any time |
| `AccountSession.dfy` | account operations, their prompts, requests and answers, while wallet, network and mount change |
| `PauseFlags.dfy` | the flag byte under many admins, and the report of one call |
| `MarketRefresh.dfy` | overlapping refreshes, filter, order and pages |

The source's `front/lib` modules that the panels rely on are modelled from
their own code (the journal, the plan, the supply figures, the screening, the
order of steps of the batch sender), not from their callers' comments.

In `Distribution.dfy` the fields `made` and `passes` are records of the past
that no step of the code reads: the content of every transfer that was
journalled and of every mint that was submitted, and every paid-before reading
that let the send go on. A transfer's row amounts are those of the list, so
`Sum(list, rows)` is what a landed transfer moves. An order may arrive
(`MayArrive`) while the network has it or the tab still holds it signed to
broadcast; it is decided when it landed, when its last block is over, or when
nobody can bring it to the network any more. `quiet` says that nobody else
used the treasury since the run began: every other balance change and every
transfer in the treasury's history that is not the run's own ends it.

## Where the code does not meet its own promise

Each of these is a lemma with a concrete run or input, beside a lemma that
says exactly when the promise holds.

1. `evaluate` (the resume effect, "Check again", the read that ends a send)
   and `dismissRun` write the journal they computed from the copy they started
   with. What was journalled meanwhile is lost from storage. Right after such a
   write the journal holds all the network received exactly when the copy did
   (`Limits.StaleReadExactly`), and it goes on doing so through all the tab
   still sends exactly when the copy held every transfer that may still arrive
   (`Limits.StaleWriteExactly`); it knows every undecided mint exactly when the
   copy did (`Limits.StaleMintExactly`). A run in which the lost transfer lands
   only after the resume's paid-before reading pays its row twice
   (`Limits.StaleReadPaysTwice`), and one in which the lost mint is still on
   its way creates the shortfall twice (`Limits.StaleReadMintsTwice`).
2. A landed transfer that the status lookup, the transaction lookup and the
   treasury's history all miss after its last block is judged expired, exactly
   then (`Limits.LostExactly`, for a mint `Limits.LostMintExactly`). The
   paid-before reading that follows leaves this run's own transfers out, so
   a row with no other trace passes it exactly when its account is read as
   empty, which it also is once the recipient has moved the tokens on
   (`Limits.LostRowPassesExactly`); then it is paid twice
   (`Limits.LostTransferPaidTwice`).
3. A mint whose submission is not followed by its journal write (the tab
   closes, or the send throws after submitting) is made a second time on the
   resume unless the network had decided it (`Limits.MintForgottenExactly`,
   `Limits.ForgottenMintMadeTwice`).
4. Approving a sale checks nothing of the supply, so created, on sale,
   reserved and approved tokens together can exceed the cap: over a run they
   do not exactly when every approval fitted as it was given
   (`Supply.NorWithTheApproved`, `Supply.ApproveExactly`,
   `Supply.TwoApprovalsExceed`). A page that cannot read the reservations opens
   a sale on its own figure, and created, on sale and reserved tokens stay
   within the cap exactly when each opening asked for no more than what was
   free, or its figure with what the other approvals hold was at least what is
   reserved and not created (`Supply.StaleFigureExactly`, over a run
   `Supply.NeverOverTheCap`); a run that goes over it is
   `Supply.StaleFigureExceeds`.
5. `tx.send` looks at the session once more after the network took the
   transaction. If the session changed meanwhile, or the broadcast fails after
   it was taken, the single-send panels say "not sent", open their lock and may
   ask again for the same wallet and class (`SinglePanel.AskedTwice`). The slot
   for an unknown outcome holds one send of whatever wallet and class: another
   one's end, or the end of another one's check, empties it, and the form of
   the first is free again (`SinglePanel.AskedTwiceAcrossWallets`). The sends
   forgotten in these ways and not decided yet are exactly the open ones when
   the wallet is asked (`SinglePanel.AsksExactly`).
6. Screening freshness is checked when a group is handed to the batch sender,
   not at each wallet prompt (`Screening.FreshAtPromptExactly`,
   `Screening.StaleAtPrompt`).
7. Adding the connected wallet to an account opened by email or Google
   (`attachWalletToAccount`) signs with the bare session: nothing is checked
   between its start and the page's last look, and its answer is not checked at
   all. Whatever changes during the prompt, the signed request goes out
   (`AccountSession.AttachPostsAnyway`), and whatever profile comes back is
   shown (`AccountSession.AttachAppliesAnything`). What is signed and applied
   is bound to its context exactly when the operation is not this one, or the
   browser is where it was (`AccountSession.OperationsAreBound`). A session
   read is posted without looking again once the sign-in before it has answered
   (`AccountSession.ReadAfterSwitch`); over all runs a request leaves for
   another context exactly when something changed, and had not changed back,
   since the operation last looked (`AccountSession.PostsExactly`).
8. The comment on the operations waivers says that an unknown name fails the
   build. The lookup also finds the names every object inherits, so the names
   refused are all those that are no requirement exactly when no waiver is
   `constructor` or `__proto__` (`BuildGuards.UnknownExactly`); a build that
   passes also passes with `constructor` waived
   (`BuildGuards.InheritedNamePasses`). Such a name waives nothing
   (`BuildGuards.NothingWaivedByMistake`).

## Model

| member | source | states |
|---|---|---|
| Journal.WithTx | front/lib/distribution-journal.ts:305-309 | one transaction added or replaced by signature, every other one kept, signatures staying unique |
| Journal.JournalStateMeaning | front/lib/distribution-journal.ts:354-383 | a row is done exactly when a confirmed transaction of the journal paid it, pending exactly when only an undecided one may |
| Journal.VerdictExactly | front/lib/distribution-run.ts:75-114 | which answers of the three lookups make a transaction landed, refused, expired or still waiting |
| Journal.BackstopCountsOnce | front/lib/distribution-journal.ts:384-400 | the backstop only turns a row to send into a done one, for an unexplained transfer of its amount to its account, and never counts one transfer for two wallets |
| Journal.SweepStates | front/lib/distribution-journal.ts:384-400 | the backstop loop computes that accounting |
| Journal.RowStates | front/lib/distribution-journal.ts:363-400 | the two loops compute each row's state |
| Journal.AskNetwork | front/lib/distribution-run.ts:65-96 | every journalled transaction decided from its status and, when it looks expired, from the transaction itself |
| Journal.ApplyHistory | front/lib/distribution-run.ts:110-114 | a signature the treasury's history holds without an error landed, whatever its status said |
| Journal.SweptOutcomes | front/lib/distribution-run.ts:110-114 | the history changes exactly the outcomes of the signatures it holds, and never a refused one |
| Journal.EvaluateRun | front/lib/distribution-run.ts:52-122 | the stepwise evaluation is the one whose meaning the safety lemmas use |
| Safety.VerdictTrue | front/lib/distribution-run.ts:83-96 | a transaction judged confirmed landed, one judged failed or expired can no longer move tokens |
| Safety.TodoPaidExactly | front/components/send-to-wallets-panel.tsx:606-619 | a row a resume leaves to send has nothing on its way, and was paid exactly when a landed transfer of it was lost by all three lookups |
| Safety.ClearedUnpaid | front/components/send-to-wallets-panel.tsx:657-685 | past a paid-before reading that shows every paid row, no row left to send is paid by anything that moved or still can move tokens |
| Safety.NothingUndecided | front/components/send-to-wallets-panel.tsx:610-616 | when the send goes past its first step every transfer and mint of the run is decided |
| Safety.EvaluatedOk | front/lib/distribution-journal.ts:311-326 | reading a true copy back gives a true copy of the same transactions, a confirmed status staying final |
| Safety.StepSound | front/components/send-to-wallets-panel.tsx:592-1040 | every step of the send, of the page and of the network keeps the invariant |
| Guarantees.AtMostOnce | front/components/send-to-wallets-panel.tsx:606-619 | over every run, in any order of signs, broadcasts, landings, expiries, closed tabs and resumes, a row is paid by at most one transaction and once in it |
| Guarantees.WriteAhead | front/components/send-to-wallets-panel.tsx:919-937 | in every reachable state each transfer the network received is in the stored journal with exactly its rows and expiry height, in one prompt for all or one for each |
| Guarantees.NothingSentMeanwhile | front/components/send-to-wallets-panel.tsx:612-615 | while a transaction of the run may still land, a send started again stops |
| Guarantees.StatesTrue | front/components/send-to-wallets-panel.tsx:470-474 | a row shown done by the journal was paid by that transaction; a row shown to send was paid exactly when a landed transfer of it was lost |
| Guarantees.PaidByJournal | front/lib/distribution-journal.ts:375-383 | the transaction a done row names confirmed and pays that row |
| Conservation.Conserved | front/components/send-to-wallets-panel.tsx:470-474 | at every step each row is in exactly one of paid, in flight and to do, the amounts add up to the list's total, and exactly the paid rows' tokens left the treasury |
| Conservation.Partition | front/components/send-to-wallets-panel.tsx:470-474 | the three sets are disjoint, cover the list, and their amounts sum to the total |
| Conservation.CreatedAtMostTheShortfall | front/components/send-to-wallets-panel.tsx:692-825 | with no other treasury activity all mints over all resumes create at most the first shortfall, and after a confirmed one the balance covers every unpaid row |
| Conservation.PlannedIsCovered | front/components/send-to-wallets-panel.tsx:692-835 | whenever the send plans, the rows are exactly the unpaid ones and the treasury covers them |
| Conservation.ResumeGoesOn | front/components/send-to-wallets-panel.tsx:606-619 | once every transaction of the run is over and the network answers in full, a send started again is ready with exactly the unpaid rows, or done when there are none |
| Conservation.CheckedTodo | front/components/send-to-wallets-panel.tsx:611-618 | with nobody else's transfers in the history, every row not paid is among the rows left to send |
| Conservation.PayLands | front/components/send-to-wallets-panel.tsx:851-870 | a landing transfer adds exactly its rows to the paid ones, none of which was paid before |
| Limits.StaleReadExactly | front/components/send-to-wallets-panel.tsx:340-403 | right after a background read writes, the journal holds all the network received if and only if the copy it started from did |
| Limits.StaleWriteExactly | front/components/send-to-wallets-panel.tsx:340-403 | write-ahead survives everything the tab still sends after such a write exactly when the copy held every transfer that may still arrive |
| Limits.StaleMintExactly | front/components/send-to-wallets-panel.tsx:340-403 | after such a write every undecided mint is known exactly when the copy knew it |
| Limits.StaleReadPaysTwice | front/components/send-to-wallets-panel.tsx:395-412 | a run with one such stale write, every other step admissible, whose first transfer lands after the paid-before reading and whose row is paid twice |
| Limits.StaleReadMintsTwice | front/components/send-to-wallets-panel.tsx:395-412 | a run with one such stale write, every other step admissible, that creates twice the shortfall |
| Limits.LostExactly | front/lib/distribution-run.ts:83-131 | a landed transfer is taken for expired exactly when the status lookup lost it and neither later lookup finds it |
| Limits.LostMintExactly | front/lib/distribution-run.ts:97-122 | likewise a landed mint |
| Limits.LostRowPassesExactly | front/components/send-to-wallets-panel.tsx:657-685 | a row whose only traces are this run's own transfers passes the paid-before reading exactly when its account is read as empty |
| Limits.LostTransferPaidTwice | front/lib/distribution-run.ts:124-131 | a run in which a lost transfer's row passes that reading and is paid twice |
| Limits.MintForgottenExactly | front/components/send-to-wallets-panel.tsx:793-805 | when the send stops between the mint's submission and its journal write, the mint stays known exactly when the network has decided it |
| Limits.ForgottenMintMadeTwice | front/components/send-to-wallets-panel.tsx:793-825 | a run that creates twice the shortfall that way, with nobody else involved |
| Repaid.RepaidOnlyWithConsent | front/components/send-to-wallets-panel.tsx:657-685 | over every run, whatever the environment does, each journalled transfer went through one paid-before reading, and each wallet it pays left no trace there or was confirmed by the issuer for that run |
| Session.RunSession.OnSigned | front/components/send-to-wallets-panel.tsx:922-933 | every signed transaction is added, then written once, before any broadcast |
| Session.RunSession.MarkSent | front/components/send-to-wallets-panel.tsx:948-956 | the loop applies one mark for each transaction the network took, then writes |
| Session.SentExactly | front/components/send-to-wallets-panel.tsx:948-956 | after it exactly what the network took is `Sent`, every other transaction is as it was |
| Session.RunSession.Report | front/components/send-to-wallets-panel.tsx:981-1011 | the loop applies one mark for each decided wait, then writes |
| Session.ReportExactly | front/components/send-to-wallets-panel.tsx:981-1011 | after it each transaction waited for is confirmed, failed or unchanged as its own wait said, every other one is as it was |
| Session.MarkAllExactly | front/components/send-to-wallets-panel.tsx:948-1011 | marking gives each transaction its last mark and changes nothing else |
| Session.ReportAdmissible | front/components/send-to-wallets-panel.tsx:984-993 | a report of true answers is a step the safety theorems cover |
| Plan.PackRows | front/lib/distribution-plan.ts:99-131 | the rows in order and whole, each transaction within the limit and as full as it gets; it fails only for a row that is over the limit alone |
| Plan.AllFitAlone | front/lib/distribution-plan.ts:99-131 | with a size that never shrinks as rows are added, a packed list has no row over the limit alone |
| Plan.AsFewAsFit | front/lib/distribution-plan.ts:1-10 | no other packing of the rows in order takes fewer transactions |
| Plan.RefusalNamesItsRow | front/lib/distribution-plan.ts:133-141 | a refusal at an instruction names the one row whose own instructions include it |
| Plan.RefusalOutside | front/lib/distribution-plan.ts:133-141 | any other index names no row |
| Plan.TestRun | front/lib/distribution-plan.ts:172-181 | a round's refusals: each blamed on its row, none exactly when every transaction passes |
| Plan.DropRows | front/lib/distribution-plan.ts:183-184 | exactly the refused rows are dropped, each with its reason |
| Plan.PlanWithSimulation | front/lib/distribution-plan.ts:158-189 | what is sent is the list without the dropped rows, packed as full as it gets, every transaction passing in one round; six rounds at most, each dropping a row |
| Plan.PlanIsSeparate | front/components/send-to-wallets-panel.tsx:851-870 | no row is in two transactions of a plan, nor twice in one: it is a plan the protocol takes |
| Plan.PlanCoversRows | front/components/send-to-wallets-panel.tsx:851-870 | every row packed is in one of its transactions |
| Plan.PromptGroups | front/lib/distribution-plan.ts:191-196 | the transactions in order, full groups and one rest |
| Consent.PriorReceipts | front/lib/distribution-journal.ts:422-457 | the loops find exactly the wallets with a receipt, and which |
| Consent.PaidBeforeExactly | front/lib/distribution-journal.ts:413-421 | a wallet counts as paid before exactly when another run, the treasury's history or its balance says so |
| Consent.KeyExactly | front/components/send-to-wallets-panel.tsx:547-549 | two consent keys are equal exactly for the same run and the same wallets, in whatever order |
| Consent.SendAgainExactly | front/components/send-to-wallets-panel.tsx:548-549 | the box counts as ticked exactly while the run and the wallets shown are those it was ticked for |
| Consent.PaidAgainOnlyWithConsent | front/components/send-to-wallets-panel.tsx:657-685 | over every sequence of page events, a wallet paid before is in a send only if it was among the wallets shown when the issuer ticked, for exactly this run |
| Screening.StaleScreenings | front/lib/distribution-screening.ts:56-68 | exactly the wallets whose evidence is missing, a hit, unreadable or too old |
| Screening.HandedIsFresh | front/components/send-to-wallets-panel.tsx:885-891 | whatever the waits, every group handed over holds only rows whose newest answer in this send is no hit and at most fifteen minutes old, the plan being made on evidence at most ten minutes old |
| Screening.FreshAtPromptExactly | front/components/send-to-wallets-panel.tsx:885-896 | at a later prompt of the group the rows are still fresh exactly up to fifteen minutes after the oldest screening |
| Screening.StaleAtPrompt | front/components/send-to-wallets-panel.tsx:885-896 | a send that screens, plans and hands its group over at the last moment allowed, its row stale a millisecond later |
| Supply.NeverOverTheCap | front/components/public-sale-panel.tsx:316-342 | over every sequence of steps created, on sale and reserved stay within the cap all along exactly when every figure a sale was opened on fitted |
| Supply.NorWithTheApproved | front/lib/distribution-supply.ts:7-17 | with the approved and unopened sales too, exactly when every approval fitted as it was given, whatever the figures |
| Supply.NoLateRefusal | front/lib/public-sale.ts:103-113 | the program never refuses for the cap what was put on sale or reserved |
| Supply.ApproveExactly | front/lib/distribution-supply.ts:7-17 | after an approval the four parts still fit exactly when it fitted |
| Supply.TwoApprovalsExceed | front/lib/distribution-supply.ts:7-17 | two approvals that together exceed the cap |
| Supply.StaleFigureExactly | front/components/public-sale-panel.tsx:316-342 | an opening keeps created, on sale and reserved within the cap exactly when it asks for no more than what is free, or its figure with the other approvals covers what is reserved and not created |
| Supply.StaleFigureExceeds | front/components/public-sale-panel.tsx:316-342 | a run that opens the whole cap while six of ten tokens are reserved |
| Supply.OpenSpendsItsOwn | front/components/public-sale-panel.tsx:336-345 | opening spends its own approval and never another's |
| Supply.OneSaleAtATime | front/components/public-sale-panel.tsx:323-324 | over every run at most one sale of the class is open and none sells more than it offers |
| Supply.BurnMakesNoRoom | front/lib/distribution-supply.ts:4-10 | a burn changes neither the room nor what is used |
| Supply.SendableExactly | front/lib/distribution-supply.ts:69-111 | a list fits exactly when the treasury and the room hold it |
| Supply.FittingShortfallIsReserved | front/components/send-to-wallets-panel.tsx:740-753 | a shortfall that passes the page's check passes the reservation's |
| Supply.TokensToOffer | front/lib/public-sale.ts:103-113 | the offer is within the request, the approval and the room, and is one of the three |
| Supply.ShareClass.OpenSale | front/components/public-sale-panel.tsx:303-367 | the read, the cut to the room and the consumed approval as one step of the ledger |
| Supply.ShareClass.ReserveMint | front/app/api/sale-approvals/treasury-mint/route.ts:96-125 | a reservation within the room |
| Supply.ShareClass.MintReserved | program/programs/asset_registry/src/instructions/mint_to_treasury.rs:90-108 | the reserved units created under the program's own check |
| Supply.ShareClass.BuyTokens | program/programs/asset_registry/src/instructions/buy.rs:124-228 | a purchase moves units from the sale to the created ones |
| Supply.ShareClass.ReservedTreasuryUnits | front/lib/sale-approvals.ts:229-239 | the sum over the reservations still reserved |
| Supply.ShareClass.RoomToCreate | front/lib/distribution-supply.ts:62-67 | the room computed from the three sums |
| Base58.IsBase58Address | front/next.config.ts:233-252 | true exactly for the strings that some 32-byte sequence encodes to |
| Base58.AddressIsUnique | front/next.config.ts:235-239 | the sequence is the only one |
| Base58.DecodeOfEncode | front/next.config.ts:242-251 | decoding an encoding gives the bytes back |
| Base58.EncodeOfDecode | front/next.config.ts:242-251 | encoding what a string decodes to gives the string back |
| Base58.NormalForm | front/next.config.ts:248-251 | digits are unique: the leading zeros, then the minimal form of the value |
| Base58.ScreenRejectsNothing | front/next.config.ts:241 | the 32 to 44 character screen rejects no encoding of 32 bytes |
| Base58.HexLengthIsByteLength | front/next.config.ts:250 | half the hex digits, rounded up, is the minimal byte length of every number |
| Base58.ReadNumber | front/next.config.ts:242-247 | the digit loop builds the value, or finds a character outside the alphabet |
| BuildGuards.OneMainnet | front/next.config.ts:74-107 | past the first guard the two notions of the network agree on mainnet |
| BuildGuards.TwoMainnets | front/next.config.ts:44-53 | without it they do not |
| BuildGuards.SupabaseExactly | front/next.config.ts:164-167 | the project read from a URL is the one it was built from, and only from such a URL |
| BuildGuards.TrimExactly | front/next.config.ts:45 | a value is read without the space at its ends, nothing else being lost |
| BuildGuards.AssertBuildKycRegistry | front/next.config.ts:267-294 | a set pin passes exactly when it encodes 32 bytes |
| BuildGuards.RpcCredentials | front/next.config.ts:305-312 | exactly the named parameter values, the long path segments and the user info |
| BuildGuards.SplitExactly | front/next.config.ts:308 | splitting a path gives exactly the parts between two separators |
| BuildGuards.EndpointExactly | front/next.config.ts:314-315 | two URLs compare equal exactly when host, path but for last slashes, and query do |
| BuildGuards.AssertBuildRpc | front/next.config.ts:348-386 | the nested loops accept exactly paid endpoints whose browser URLs share neither endpoint nor credential with a server URL |
| BuildGuards.AssertBuildFeatureFlags | front/next.config.ts:501-509 | every flag readable |
| BuildGuards.UnknownExactly | front/next.config.ts:467-472 | the names refused are those that are no requirement exactly when no waiver is an inherited name |
| BuildGuards.InheritedNamePasses | front/next.config.ts:467-472 | a mainnet build that passes without waivers passes with `constructor` waived |
| BuildGuards.NothingWaivedByMistake | front/next.config.ts:473-477 | an unmet requirement passes only if a waiver names it |
| BuildGuards.Config | front/next.config.ts:699-716 | the guards in their order: the first that refuses, or none exactly when all pass |
| BuildGuards.AcceptedBuilds | front/next.config.ts:699-716 | an accepted build is mainnet exactly when it says so, and then meets the Supabase, registry-pin and operations conditions; otherwise it never uses the mainnet project |
| BuildGuards.AcceptedEndpoints | front/next.config.ts:364-379 | for both inlined URLs against every readable server URL: different endpoints, disjoint credentials |
| SinglePanel.AsksExactly | front/components/share-transfer-panel.tsx:317-333 | when the wallet is asked, each earlier send for its wallet and class is settled, except exactly the undecided ones that threw after the network took them or that another send or check put out of the slot |
| SinglePanel.AskedExactly | front/components/share-transfer-panel.tsx:389-409 | the wallet is asked only in such a state, by the next step of a send just begun |
| SinglePanel.AsksOnlyWhenSettled | front/components/treasury-mint-panel.tsx:135-146 | with one session and class, and no send that fails after it was taken, the wallet is never asked with one still open |
| SinglePanel.AskedTwice | front/lib/verified-solana-client.ts:860-885 | the wallet reconnects during the prompt, the check after the broadcast throws, and the next click asks again |
| SinglePanel.AskedTwiceAcrossWallets | front/components/share-transfer-panel.tsx:442-488 | another wallet's confirmed send empties the slot of an undecided one, whose wallet is asked again |
| SinglePanel.AuditsTrue | front/components/share-transfer-panel.tsx:416-524 | success is recorded only for what the network confirmed, refusal only for what it refused, and once per send |
| SinglePanel.SendPanel.TryStart | front/components/share-transfer-panel.tsx:325-333 | a click starts a send only when idle, unlocked and nothing of this wallet and class is unsettled |
| SinglePanel.SendPanel.Waited | front/components/share-transfer-panel.tsx:431-495 | the outcome reported, an unknown one kept, the lock let go |
| SinglePanel.SendPanel.Checked | front/components/share-transfer-panel.tsx:500-524 | a later answer settles the send looked up and empties the slot |
| SinglePanel.SendPanel.SignatureReturned | front/lib/transaction-session-guard.ts:31-37 | a signature returned for another session is not broadcast |
| SinglePanel.SendPanel.SendTaken | front/lib/verified-solana-client.ts:878-882 | the check after the network took it: thrown on a changed session, waited for otherwise |
| AccountSession.OperationsAreBound | front/components/account-session.tsx:24-53 | under every interleaving: what is signed and what is applied is bound to its context exactly when it is no attach or the browser is where the attach began; checked profiles but for an attach; account ids; one operation at a time, the flag up exactly while one is |
| AccountSession.PostsExactly | front/lib/siws-client.ts:344-365 | a request leaves for another context exactly when something changed since the operation last looked, which is at the signature, at an attach's start, or at the sign-in's signature for the read after it |
| AccountSession.AttachPostsAnyway | front/lib/account-client.ts:210-215 | whatever the browser changes to during the prompt, the signed request goes out |
| AccountSession.AttachAppliesAnything | front/components/account-wallets.tsx:95-101 | whatever profile the server answers is applied, after a wallet switch too |
| AccountSession.Accepts | front/lib/account-client.ts:78-104 | a profile is shown exactly when it is this network's, this account's, with at most ten different addresses and the right ones among them |
| AccountSession.DistinctBySize | front/lib/account-client.ts:93 | as many members as entries is the same as no entry twice |
| AccountSession.ReadAfterSwitch | front/lib/siws-client.ts:349-360 | a session read posted after the wallet changed |
| AccountSession.AccountOperation.TryStart | front/components/account-session.tsx:38-41 | nothing starts while one operation is open or for another session; refines the start of the runs above |
| AccountSession.AccountOperation.Request | front/lib/account-client.ts:44-60 | refused, posted with a cookie or on to the wallet, as in the runs |
| AccountSession.AccountOperation.Answered | front/lib/account-client.ts:73-106 | the answer checked, but an attach's, as in the runs |
| AccountSession.AccountOperation.Fail | front/components/account-session.tsx:47-52 | an error is reported and the flag let go, the rest only while still current |
| AccountSession.AccountOperation.Settle | front/components/account-session.tsx:42-52 | the flag is let go in every case, the rest only while still current, an apply that throws reported as an error |
| PauseFlags.PausesCommute | program/programs/asset_registry/src/instructions/set_pause.rs:60-109 | pauses of any admins on any stale views give the same flags in every order |
| PauseFlags.PausesExactly | program/programs/asset_registry/src/instructions/set_pause.rs:60-109 | after any pauses a bit is set exactly when it was or one of them set it |
| PauseFlags.PausesClearNothing | front/components/pause-flags-panel.tsx:207-211 | pauses never clear a bit |
| PauseFlags.ClearedExactly | program/programs/asset_registry/src/instructions/set_pause.rs:68-109 | a bit goes off exactly when an allowed call of the super admin names it; bit 7 also with any other clear |
| PauseFlags.BootstrapExactly | program/programs/asset_registry/src/instructions/set_pause.rs:21-44 | the bootstrap window is open exactly while nothing was ever cleared |
| PauseFlags.BootstrapStaysClosed | front/lib/pause-flags.ts:15-18 | once closed, over all calls, it stays closed |
| PauseFlags.PayoutModulesAlone | front/lib/pause-flags.ts:130-151 | 0x40 goes off only by a call that clears nothing else of the pauses |
| PauseFlags.SetUntilNamed | front/components/pause-flags-panel.tsx:207-217 | a pause once set stands until a later super-admin call names it |
| PauseFlags.MasksAllowed | front/lib/pause-flags.ts:142-151 | the masks the panel sends are the ones the program takes |
| PauseFlags.SettledInOrder | front/components/pause-flags-panel.tsx:86-124 | one report, then the cache cleared once, then one refresh, the outcome unchanged; a success row only after confirmation with flags observed after it |
| MarketRefresh.LatestWins | front/components/market-overview.tsx:101-122 | committed snapshots have growing request numbers, loading is cleared only by the newest request, and nothing commits for a request started before a cleanup |
| MarketRefresh.Overview.Start | front/components/market-overview.tsx:102-106 | a refresh begins as in those runs |
| MarketRefresh.Overview.Settle | front/components/market-overview.tsx:108-116 | a request ends as in those runs; one that is not the newest changes nothing of the page |
| MarketRefresh.FilteredExactly | front/components/market-overview.tsx:137-141 | the rows kept are those at exactly the places that match, in their order, without the markets that are off |
| MarketRefresh.SortedInOrder | front/components/market-overview.tsx:142 | the rows come in the chosen order |
| MarketRefresh.Sorted | front/components/market-overview.tsx:142 | with every row kept |
| MarketRefresh.PagesAreTheTable | front/components/market-overview.tsx:143-145 | the pages are the whole table in order, and the shown one is empty only when the table is |
| MarketRefresh.RowOnItsPage | front/components/market-overview.tsx:143-145 | each row is on exactly the page its place gives |

## Left out

- User interface: markup, focus, toasts, wording, icons, the CSP string, mask tables and role or menu filters.
- The wallet, the RPC nodes, the database, the block explorer and browser storage: they are the environment's events and answers, taken as true where they say something (`Distribution.Truthful`) and free to say nothing.
- Two tabs sending the same run at once, a distribution panel switched to another class in the middle of a send, and storage cleared by the user: outside the single-sender, single-key protocol.
- Storage that refuses a write: it ends the send like any other error (`Abort`), and a read that cannot be stored leaves the old journal in place.
- Distribution audit rows: the pending and final rows of a distribution transaction and the retry worker; their writes do not change which rows are paid.
- A signed batch that a wallet broadcasts by itself before it was journalled: the wallet is taken to hand its copies back only.
- Reading the supply and using it in one step: between the page's (or the route's) read of the room and the write that relies on it nothing else is modelled.
- A treasury mint made without a reservation, 64-bit overflow of the sums (the program's own check is kept), and the effect of locking the supply over time.
- Guarantees.AtMostOnce: holds of the runs `Distribution.Runs` admits, those without a background write of a copy that misses a transfer or a mint that may still land, a paid row left to send that the paid-before reading does not show, or a send stopped between a mint's submission and its journal write. Module `Limits` has, for each of them, a run with that one slip that pays or creates twice.
- Guarantees.WriteAhead: for the same runs, for the same reason.
- Safety.StepSound: for the steps of those runs.
- Conservation.Conserved: for the same runs.
- Conservation.CreatedAtMostTheShortfall: for the same runs, with no other treasury activity and the treasury's history showing no one else's transfer.
- Conservation.PlannedIsCovered: likewise.
- Limits.StaleWriteExactly: about the sends still in the tab's queue; which later resumes then pay a row again depends on when the missing transfer lands, of which the run is one instance.
- Screening.HandedIsFresh: at the moment a group is handed to the batch sender, which is when the code checks; not at each prompt.
- AccountSession.OperationsAreBound: about signatures and results; requests that leave later are `AccountSession.PostsExactly`. An attach is taken to be offered for the wallet connected as it starts.
- Supply.NeverOverTheCap: under its condition on the figures used, because the code opens a sale on a figure it could not check; approvals are counted in `Supply.NorWithTheApproved`.
- Supply.OneSaleAtATime: the look for an open sale and the opening are one step here; in the source awaits lie between them.
- The close flow of a sale (`closeFlowStep`, the destination check) and the re-pause decisions: small decisions over a few flags.
- The choice of sort key, filter fields and text search are inputs per row (`matches`); `localeCompare` is any total, transitive order.
- Row amounts of one list: a wallet listed twice is merged by the list parser before a run begins; the parser is not part of this model.
- Consent.PaidAgainOnlyWithConsent: a click is taken to act on the page as last rendered; run ids and wallets contain no separator, which their formats give.
- SinglePanel.AsksExactly: likewise a click sees the last rendered state; the waits themselves do not throw. Whether a broadcast that fails was taken by the network is the environment's.
- PauseFlags.SettledInOrder: a toast that throws is not modelled, nor the panel's held buttons.
- The wallet-link attempt's own format and expiry check, and the texts chosen for an error.
- BuildGuards.Config: what the URL parser, the legal slots, the geoblock list and the asset-class list answer are inputs; lower-casing is that of ASCII letters; warnings are not modelled, and other phases than a production build pass unchecked in the source.
- Class-level checks of the distribution (accounts, passports, hook configuration), fees and SOL: they can only stop a send, which any step may do.
