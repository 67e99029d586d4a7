# Shared silent payments, verified

Two wallets with separate signers pay one silent payment together. Each keeps a
session: a PSBT that only ever gathers ECDH shares, derived scripts and
signatures over a fixed transaction, a stage, a turn marker and an outbox. This
project models that protocol and the code around it, and proves what each wallet
can rely on whatever the other wallet, its own signer and the channel do.

Run `dafny verify dfyconfig.toml` here to verify everything.

## The parts

| file | what it holds |
|---|---|
| `Curve.dfy` | a group of prime order: a point is its discrete logarithm, and infinity is 0 |
| `Dleq.dfy` | BIP-374 proofs: completeness and special soundness |
| `Derive.dfy` | the BIP-352 output script, seen by the coordinator, a lone sender and the payee |
| `Chain.dfy`, `PsbtV2.dfy` | coins, scripts, transactions, the PSBT and the transaction it stands for |
| `Shares.dfy`, `Agreement.dfy` | checking shares, deriving scripts, and what the scripts mean |
| `SpVerify.dfy` | the single-signer checker, and when it agrees with the shared derivation |
| `Absorb.dfy`, `Soundness.dfy`, `Laws.dfy` | taking in shares, scripts and signatures; the invariant; growth, idempotence, order, progress |
| `Fees.dfy`, `FeeFloor.dfy` | weights and fees in 64-bit arithmetic that wraps; why two halves never come out short |
| `Building.dfy`, `Matching.dfy`, `Joining.dfy` | one wallet's half, the proposal, the join, and the first wallet's check of it |
| `Finishing.dfy`, `SharedSession.dfy`, `Safety.dfy` | the final check, the session object, and its invariant over every run |
| `Protocol.dfy`, `HonestSigner.dfy`, `ReferenceSigner.dfy`, `Completion.dfy` | two sessions and a channel; honest answers, and a device that gives them; the run to the end |
| `SharedFlow.dfy`, `Recovery.dfy` | the crash-safe driver over the session file |
| `TwoDrivers.dfy`, `Cooperation.dfy`, `TwoCoins.dfy` | two drivers over two files and a channel make only the protocol's moves, and can always finish; one send small enough to compute |
| `DirTransport.dfy` | the folder channel |
| `Strip.dfy`, `Resolve.dfy`, `Base32.dfy`, `Cbor.dfy` | the PSBT byte filter, placeholder outputs, the 5-to-8-bit regrouping, the CBOR byte string |
| `CoinSelection.dfy`, `ChainScan.dfy` | coin selection and the incremental chain scan |
| `Wrappers.dfy`, `Words.dfy`, `Sets.dfy` | options and results, bytes and machine integers, sizes of finite sets |

Hashes and the two signature checks are function-valued fields of the environment
(`Curve.Curve`, `Chain.Env`), so every theorem holds for all of them. Where a
proof needs more it says so in a precondition: `Curve.PrimeOrder` (the fields for
adding and multiplying are those of the integers modulo a prime), and
`Dleq.Sound` (an accepted share is `a*B`), which only the statements about a lone
sender, about the order of arrival and about what a device answers use.
`Curve.IntegersModuloAPrime` and `Dleq.SoundIsPossible` show that neither is
contradictory, and `TwoCoins.TheyFinish` computes a whole send in a small world
that meets every precondition of the results about two wallets.

An operation is a method with the loops and updates of the code, whose
postcondition equates its result or new state with a specification function
(`AbsorbState` with `Absorbed`, `Session.Receive` with `Received`, and so on).
What the code promises is then proved about those functions.

## What was found

- `signature_verifies` returns a boolean that `absorb` discards
  (`src/shared.rs:976`). It is always true there: `PsbtV2.SignatureVerifies`
  answers `Ok(false)` exactly for an input that carries no signature.
- The comment on `resume_from` says re-scanning restores the outputs a rewind
  drops. A scan that rewinds and does not get past its first height leaves the old
  watermark over the rows it dropped, and the next scan starts above them unless it
  rewinds too. `ChainScan.EveryScanEqualsFreshIff` says for every run of scans,
  wherever they stop, exactly when the store equals a fresh scan: when none of the
  blocks left out this way holds a payment. `ChainScan.StoppedRewindThenAny` is the
  condition for one such stop and any later chain, and
  `ChainScan.StoppedRewindLosesAPayment` is a run that loses a payment.
- `strip_empty_output_scripts` keeps every pair it does not drop byte for byte,
  but writes every map terminator as the single byte zero, also one that arrived
  as a longer encoding of the length zero.
- `cbor_byte_string` truncates the length to 32 bits. An encoding parses back if
  and only if the length fits.
- In a deterministic model two accepted proofs with equal commitments and
  different challenges cannot share one hash, so special soundness is stated over
  two oracles that agree on everything else.
- `spverify` counts positions where `derive_scripts` sorts. The two give every
  output the same counter if and only if spend keys never go down inside a scan
  key group.

## Model

| member | source | states |
|---|---|---|
| Dleq.HonestProofVerifies | src/dleq.rs:28-53 | every honest proof with in-range nonzero values is accepted |
| Dleq.SpecialSoundness | src/dleq.rs:28-53 | two accepted transcripts over the same commitments with different challenges yield the key, and the share is that key times the base |
| Dleq.OneChallengeForAWrongShare | src/dleq.rs:28-53 | a share that is not `a*B` leaves at most one acceptable challenge per pair of commitments |
| Curve.SumOfShares | src/shared.rs:540-550 | the sum of the shares `a_i*B` is the sum of the keys times `B`, over the same fold the code uses |
| Curve.SumOfPermutation | src/shared.rs:614-617 | the sum of points does not depend on their order |
| Derive.SharesPayLikeALoneSender | src/sp.rs:188-218 | the share sum stands exactly where a lone sender's `a*B_scan` stands, and fails where that fails |
| Derive.PayeeRederives | src/spspend.rs:120-186 | the payee's own scan key gives a tweak that the spending side accepts for that script, unless the amount is over the money supply |
| Derive.InputHashOfPermutation | src/sp.rs:168-186 | the input hash does not depend on the order of the coins |
| PsbtV2.InputKeyIsTheCoins | src/shared.rs:247-280 | an input stands for a compressed derivation key that hashes to its witness program, or its taproot output key with even y, and for nothing only when there is none or the key path is unusable |
| PsbtV2.FirstMatching | src/shared.rs:247-280 | the derivation looked for is found exactly when one is there |
| PsbtV2.LockTimeSuitsEveryInput | src/shared.rs:631-665 | BIP-370: a lock time exists unless inputs insist on both kinds, and then satisfies every input |
| PsbtV2.SignatureVerifies | src/shared.rs:672-737 | the answer is `Ok(false)` exactly for a known input without a signature, so a signature that passes always answers true |
| Shares.Recipients | src/shared.rs:399-419 | all and only the silent payment outputs, in order, or a refusal when some key is not a point |
| Shares.ScanKeys | src/shared.rs:462-512 | the scan keys paid, each once |
| Shares.CheckInputShares | src/shared.rs:462-512 | an input passes exactly when every share is for a paid scan key and proved for this input's own key, and no proof stands alone |
| Shares.CheckShares | src/shared.rs:462-512 | accepted exactly when no share is global and every input passes; what is listed as verified is exactly what is held |
| Shares.CompleteScans | src/shared.rs:521-564 | the scan keys every input has a share for |
| Shares.DeriveScripts | src/shared.rs:521-564 | every complete recipient's script at the counter BIP-375 fixes, or a refusal exactly when some script cannot be derived |
| Shares.DeriveGroup | src/shared.rs:544-562 | inside one scan key, the k-th recipient in sorted order gets counter k |
| Shares.StableSortSorts | src/shared.rs:552-555 | the sort is a permutation, ordered by spend key, and keeps output order among equals |
| Shares.PositionIsRank | src/shared.rs:552-561 | the sorted position of an output is the number of recipients that come before it |
| Shares.Audit | src/shared.rs:574-612 | accepted exactly when the shares pass and every script present is the derived one, on a closed transaction |
| Agreement.CheckedSharesAreHonest | src/shared.rs:462-512 | a PSBT that passed its checks holds only shares `a_i*B_scan`, if proofs cannot lie |
| Agreement.SharedScriptIsTheLoneSenders | src/shared.rs:521-564 | the derived script is the one a lone BIP-352 sender holding the sum of the keys pays, and exists exactly when that does |
| Agreement.PayeeFindsTheOutput | src/shared.rs:521-564 | the payee finds a tweak that the spending side accepts for the shared script |
| Agreement.InputOrderDoesNotMatter | src/shared.rs:521-564 | listing the inputs in another order derives the same scripts or fails alike |
| Agreement.LaterSharesKeepTheScript | src/shared.rs:521-564 | a script once derived is derived the same way from every later state |
| SpVerify.Verify | src/spverify.rs:33-97 | accepted exactly when the transaction is unchanged and every output carries the script its global share and position demand |
| SpVerify.PositionsAreRanksIffOrdered | src/spverify.rs:44-79 | counting positions equals sorting on every output if and only if each group's spend keys never go down |
| SpVerify.CheckersAgree | src/spverify.rs:33-97 | with summed shares, exposed keys and ordered spend keys, the single-signer check demands exactly the scripts the shared derivation produces |
| Absorb.AbsorbState | src/shared.rs:843-985 | taking in a PSBT is: skeleton, shares, derivation, scripts, signatures, in that order, with nothing changed on refusal |
| Absorb.AbsorbShares | src/shared.rs:866-905 | a share already held stays with its proof; every arriving one passes this side's own key |
| Absorb.TakeShares | src/shared.rs:870-905 | one input is taken in exactly when its shares pass, whatever the order they are looked at |
| Absorb.AbsorbScripts | src/shared.rs:907-947 | a script present or sent must be the derived one, and a derived one fills the gap |
| Absorb.AbsorbSignatures | src/shared.rs:949-985 | an arriving signature must verify on its own, and from the signer only for this wallet's inputs |
| Absorb.SameSignatureCheck | src/shared.rs:672-737 | a signature check reads every coin's facts but only its own signature |
| Soundness.AbsorbGrows | src/shared.rs:843-985 | absorbing loses nothing and leaves the skeleton unchanged |
| Soundness.AbsorbKeepsSound | src/shared.rs:843-985 | whatever is accepted keeps every share, script and signature check true that was ever made |
| Soundness.TransactionIsFixed | src/shared.rs:631-665 | once all scripts are known the unsigned transaction is the same in every later state |
| Soundness.SignaturesStaySound | src/shared.rs:949-985 | a signature that verified keeps verifying in every later state |
| Soundness.AbsorbOfOrdered | src/shared.rs:843-985 | between ordered states, absorbing leaves exactly the larger one: a stale message changes nothing and a newer one is taken whole |
| Laws.AbsorbIsIdempotent | src/shared.rs:843-985 | taking in the same thing twice is taking it in once |
| Laws.OrderOfArrivalDoesNotMatter | src/shared.rs:843-985 | when both orders of two arrivals succeed they give the same shares, scripts and signed inputs |
| Laws.AbsorbIsProgress | src/shared.rs:1711-1717 | an absorption that changes anything leaves strictly fewer missing shares, scripts and signatures |
| Fees.EstimatedWeight | src/shared.rs:1332-1360 | the weight is a sum over inputs and outputs, known exactly when every coin states its output |
| Fees.Fee | src/shared.rs:1363-1379 | inputs minus outputs, or nothing when an amount is unknown, a sum leaves 64 bits or the outputs are more |
| Fees.CheckFee | src/shared.rs:1384-1403 | accepted exactly between the rounded-up wanted fee and three times that plus the slack |
| FeeFloor.SharesAddUp | src/shared.rs:992-1008 | the two shares sum to the amount and differ by at most one satoshi |
| FeeFloor.HalfSums | src/shared.rs:1049-1066 | turning a half into PSBTv2 moves only the refund into the change, and only below the fee |
| FeeFloor.TwoHalvesPayEnough | src/shared.rs:1220-1244 | the joined fee is the two fees less the two refunds, and two halves that each pay the rate never make the joined fee too low while the input count is one byte, even where the 64-bit products wrap |
| Building.ReadProposalMessage | src/shared.rs:1114-1197 | a proposal is accepted exactly when it pays the named recipient the named amount once, with checked coins spent once, and only what was checked is kept |
| Building.FindsCoinTwice | src/shared.rs:1199-1207 | finds a coin spent twice exactly when there is one |
| Building.JoinHalves | src/shared.rs:1220-1244 | the proposal's coins and outputs first, then this half's without its placeholder, closed, counted, and its fee in range |
| Building.AdoptJoin | src/shared.rs:1253-1329 | the first wallet's check of the join, every refusal included |
| Building.AdoptInputs | src/shared.rs:1274-1301 | its own coin is its own copy spent as proposed, and every other coin is checked and stripped |
| Building.AdoptOutputs | src/shared.rs:1303-1318 | outputs matched one by one, first come first served |
| Matching.GreedyIsExact | src/shared.rs:1303-1318 | the matching succeeds exactly when only ordinary outputs were added, and leaves exactly what the join is short of |
| Matching.MatchedIffContained | src/shared.rs:1303-1324 | nothing is left over if and only if the proposal's outputs are a sub-multiset of the joined ones and no silent payment was added |
| Matching.TakenInOrder | src/shared.rs:1303-1318 | the result keeps the joined order and holds only this wallet's own copies and added ordinary outputs |
| Matching.TakenAsBuilt | src/shared.rs:1303-1318 | every own output is taken as built or left, and no silent payment comes from elsewhere |
| Matching.EveryCoinFound | src/shared.rs:1199-1207 | as many found as proposed and none twice means every proposed coin is there, each listed once |
| Matching.AdoptedKeepsProposal | src/shared.rs:1253-1329 | an accepted join spends every proposed coin once as proposed, keeps the joined order and own outputs, and adds coins but no silent payment |
| Joining.ReadProposalChecks | src/shared.rs:1114-1197 | what an accepted proposal is: closed terms, clean coins, exactly one payment, the agreed one |
| Joining.ProposedIsClean | src/shared.rs:1072-1083 | a proposal holds nothing collected and exactly the agreed payment at the full amount |
| Joining.JoinedIsSound | src/shared.rs:1220-1244 | a joined transaction satisfies every check from the start and pays what was agreed |
| Joining.AdoptedIsSound | src/shared.rs:1253-1329 | and so does what the first wallet adopts |
| Joining.SameFee | src/shared.rs:1332-1403 | fee and weight are facts about the skeleton, so no signer can move them |
| Joining.HonestJoinIsAdopted | src/shared.rs:1253-1329 | the first wallet accepts an honest join, whatever was absorbed since, and ends on the very same transaction |
| Joining.ProposalArrivesWhole | src/shared.rs:1114-1197 | what the second wallet keeps of an honest proposal is all of it |
| Finishing.FinalizeState | src/shared.rs:1439-1479 | the final check from nothing: closed, coins, audit, completeness, fee, every signature; and the witnesses it builds |
| Finishing.SoundIsFinishable | src/shared.rs:1439-1479 | whatever was only built up by checked steps passes the check from nothing once every input is signed |
| Finishing.FinishedPaysLikeALoneSender | src/shared.rs:1439-1479 | a finished transaction pays each silent payment at the lone sender's script |
| SharedSession.Session.Propose | src/shared.rs:1564-1598 | wallet A's session with the proposal in its outbox |
| SharedSession.Session.JoinWith | src/shared.rs:1604-1630 | wallet B's session, listing exactly the coins the proposal does not |
| SharedSession.FindMyInputs | src/shared.rs:1638-1651 | where this wallet's coins stand, or nothing when one is missing |
| SharedSession.Session.IsMyTurn | src/shared.rs:1656-1663 | active, not waiting for the other side, and an own input unsigned; that it never fails is `Safety.TurnIsKnown`, that never both sides have it `Protocol.AtMostOneTurn` |
| SharedSession.Session.ThePass | src/shared.rs:1675-1683 | share-only exactly while some other input lacks a share |
| SharedSession.Session.Request | src/shared.rs:1686-1700 | the request, refused out of turn and before or after the active stage; that it shows a signer all it needs is `HonestSigner.RequestIsEnough` |
| SharedSession.Session.Respond | src/shared.rs:1704-1724 | the whole new session after an answer, or no change at all |
| SharedSession.Session.Receive | src/shared.rs:1730-1735 | the whole new session after a message, or no change at all, also when a later check refuses what an earlier step applied |
| SharedSession.Session.ReceiveUpdate | src/shared.rs:1759-1793 | join or absorb, and what counts as nothing new |
| SharedSession.Session.ReceiveDone | src/shared.rs:1795-1830 | the reported transaction must be the one the state builds after the state in the news is taken in |
| SharedSession.Session.FinalizeIt | src/shared.rs:1833-1838 | refused only before the join or when the check from nothing fails |
| SharedSession.Session.Finish | src/shared.rs:1842-1862 | the whole new session after a broadcast, or no change |
| Safety.ProposingIsKept | src/shared.rs:1564-1598 | a proposed session starts with the invariant |
| Safety.JoiningIsKept | src/shared.rs:1604-1630 | a joined session starts with the invariant |
| Safety.EveryRunKeeps | src/shared.rs:1704-1793 | whatever messages and answers arrive and in whatever order, the invariant holds |
| Safety.FinishedIsWhatWasAgreed | src/shared.rs:1439-1479 | any transaction it finishes spends each own coin once, keeps own change, and pays the agreed amount in the only silent payment at the derived script |
| Safety.AgreedInEveryRun | src/shared.rs:1704-1838 | the same after any run, at the script a lone sender would pay |
| Safety.ReadyCanFinish | src/shared.rs:1666-1672 | every reachable session that is ready can be finished |
| Safety.TurnIsKnown | src/shared.rs:1638-1663 | a wallet always finds its coins, so asking for the turn never fails |
| Safety.RespondKeeps | src/shared.rs:1704-1724 | every accepted answer strictly decreases what is missing |
| Safety.VisitsAreBounded | src/shared.rs:1704-1793 | over any run, visits plus what is missing never grow |
| Protocol.OrderedUpdate | src/shared.rs:1759-1793 | an ordered state is ignored or taken in whole |
| Protocol.FirstUpdate | src/shared.rs:1759-1793 | the first update a proposer gets is taken in whole |
| Protocol.OrderedDone | src/shared.rs:1795-1830 | honest news is believed and records the transaction both hold |
| Protocol.MeetingIsConsistent | src/shared.rs:1604-1630 | right after the join one side leads and the other accepts any state it is sent |
| Protocol.EveryExecutionKeeps | src/shared.rs:1656-1830 | under any deliveries, answers and broadcasts one side always leads |
| Protocol.AtMostOneTurn | src/shared.rs:1656-1663 | never do both sides have the turn |
| Protocol.OneTransaction | src/shared.rs:1795-1862 | two finished transactions of one send are one, and so are two recorded ids |
| Protocol.EveryRunOfTwo | src/shared.rs:1656-1830 | all of it for every run of two wallets that met, whatever the signers answer |
| HonestSigner.HonestAnswerIsTaken | tests/support/ref_signer.rs:117-277 | an honest answer passes every check, gives all its shares and signs exactly when no share is missing |
| HonestSigner.RequestIsEnough | src/shared.rs:1421-1431 | an answer is honest for what was shown if and only if it is honest for the whole state |
| ReferenceSigner.OwnSharesPass | tests/support/ref_signer.rs:172-188 | the shares it computes over whatever arrived, with its own proofs, pass the coordinator's check |
| ReferenceSigner.LacksIsWaiting | tests/support/ref_signer.rs:190-227 | it lacks a foreign share exactly when the session says it is waiting for one |
| ReferenceSigner.AnswersExactlyIfPayable | tests/support/ref_signer.rs:117-277 | asked about a sound session it shares while a share is missing and signs otherwise, and refuses exactly when a lone sender could not pay either |
| ReferenceSigner.BuildsTheSame | tests/support/ref_signer.rs:256-277 | the transaction it signs is the one the coordinator builds from its answer |
| ReferenceSigner.AnswerIsHonest | tests/support/ref_signer.rs:117-277 | whatever a working device answers, trimmed or not, is an honest answer for the session |
| Completion.VisitToShare | src/shared.rs:1675-1724 | the first visit is B's, share-only |
| Completion.VisitToSign | src/shared.rs:1675-1724 | the second is A's, which signs |
| Completion.VisitToComplete | src/shared.rs:1675-1724 | the third is B's, which signs, and then every input is signed |
| Completion.EveryHonestRun | src/shared.rs:1656-1830 | in every honest run the system stands in one of six phases, and only a bounded number of moves can matter |
| Completion.NeverStuck | src/shared.rs:1656-1830 | in each phase the device of the wallet whose turn it is answers, honestly, and its answer, or some delivery or broadcast, carries the run forward, until both are done |
| Completion.SharedSendCompletes | src/shared.rs:1656-1830 | at most 27 moves change anything, and when none is left both recorded one transaction id after exactly three visits |
| SharedFlow.Flow.Next | src/sharedflow.rs:296-369 | a step killed anywhere leaves the old file or the whole step's, with some first part of its sends and broadcast, and forgets that it waited |
| SharedFlow.Flow.SendAll | src/sharedflow.rs:299-309 | the outbox is forgotten only after all of it was sent |
| SharedFlow.Flow.TakeOne | src/sharedflow.rs:311-319 | a message leaves the inbox in the same save as what it did |
| SharedFlow.Flow.HandleOne | src/sharedflow.rs:400-434 | the session after one inbox entry; a refused message changes nothing |
| SharedFlow.Flow.Consider | src/sharedflow.rs:244-262 | joins exactly a proposal that passes and meets the terms; trouble on this side keeps the message; `TwoDrivers.JoiningStepMeets` says what the join it makes is worth |
| SharedFlow.Flow.VisitSigner | src/sharedflow.rs:341-366 | the first answer that is taken is saved, and none leaves the file alone |
| SharedFlow.Flow.BroadcastIt | src/sharedflow.rs:325-340 | broadcast before it is recorded |
| SharedFlow.LastProposal | src/sharedflow.rs:385-396 | the newest proposal in the inbox |
| SharedFlow.Folder.Retire | src/sharedflow.rs:95-112 | a broadcast session leaves the file only after it was kept under its own name |
| SharedFlow.Folder.Begin | src/sharedflow.rs:206-241 | an unfinished send is carried on or stands in the way, and a broadcast one is never lost |
| Recovery.WholeIsKept | src/sharedflow.rs:296-369 | one step keeps the session's invariant and broadcasts only its transaction |
| Recovery.OneBroadcast | src/sharedflow.rs:325-340 | all broadcasts one wallet makes of a shared send carry the same transaction id |
| Recovery.StepOwes | src/sharedflow.rs:299-309 | what is owed stays owed until it was sent |
| Recovery.SteppedAccounts | src/sharedflow.rs:311-319 | an inbox entry is kept, or dropped together with its handled effect |
| Recovery.NothingLeavesUnhandled | src/sharedflow.rs:311-319 | through any number of kills, what was in the inbox and what arrived is exactly what is still there and what was handled |
| Recovery.CrashesReachNothingNew | src/sharedflow.rs:87-89 | any number of kills leads only to a file that no more whole steps lead to, with nothing sent or broadcast that those do not send or broadcast, beyond what is still owed |
| Recovery.CrashRunIsSafe | src/sharedflow.rs:296-369 | through any number of kills the invariant holds, one transaction is broadcast, and every owed message is owed or sent |
| TwoDrivers.DuoStepMoves | src/sharedflow.rs:296-369 | one step of one of two drivers, killed anywhere, is one move of the protocol or none |
| TwoDrivers.DriversRefine | src/sharedflow.rs:296-369 | every run of two drivers over their files and a channel that loses, delays and repeats stands where some run of the protocol leads |
| TwoDrivers.JoiningStepMeets | src/sharedflow.rs:244-262 | the step by which a wallet without a session joins A's proposal is where such a run starts |
| TwoDrivers.EveryRunOfTwoDrivers | src/sharedflow.rs:296-369 | in every such run never both have the turn, both record one id, and all that either broadcasts is one transaction |
| TwoDrivers.HonestDriversComplete | src/sharedflow.rs:296-369 | with honest devices every such run stands in one of the six phases, and ends after exactly three visits |
| Cooperation.Forward | src/sharedflow.rs:296-369 | when nothing is owed or waiting and not both are done, some one or two whole steps carry the send forward |
| Cooperation.EveryRunCanFinish | src/sharedflow.rs:296-369 | after any such run, killed anywhere, letting the two drivers run on with working devices ends with both recording one transaction and owing nothing |
| TwoCoins.TheyMeet | src/shared.rs:1564-1630 | two computed halves meet: proposed, read, joined, within the fee bounds |
| TwoCoins.TheyFinish | src/sharedflow.rs:296-369 | and the two drivers take that send from the join to the end |
| DirTransport.SortOrders | src/dirtransport.rs:110-124 | the listing is a permutation, oldest first |
| DirTransport.Participant.FindPending | src/dirtransport.rs:127-142 | the walk over the listing that takes every sender's next number |
| DirTransport.Participant.Receive | src/dirtransport.rs:192-214 | the first look that finds something, with the cursor after it; an unreadable file or a cursor that cannot be saved is an error that moves nothing |
| DirTransport.Participant.Send | src/dirtransport.rs:146-190 | the first free number after this sender's last, never at or below its last time, or none after sixteen attempts |
| DirTransport.SendKeepsNumbers | src/dirtransport.rs:146-190 | a sender that sees its own files gets its next number at once and numbers stay gapless with increasing times |
| DirTransport.PendingIsConsecutive | src/dirtransport.rs:127-142 | one look continues each sender exactly where the cursor stood, without a gap, for any listing |
| DirTransport.OneLookIsEnough | src/dirtransport.rs:127-142 | once messages up to n are visible one look hands over all of them |
| DirTransport.EveryInterleavingKeepsOrder | src/dirtransport.rs:127-214 | under any interleaving what a reader was handed from a sender is its messages 1, 2, ... in order |
| ChainScan.Store.PutFound | src/spstore.rs:102-124 | a repeated output changes the height of its row and nothing else |
| ChainScan.Store.SetWatermark | src/spstore.rs:249-258 | the last block searched and its hash replace the earlier ones; that the mark then names the chain the rows come from is `ChainScan.ScanTracks` |
| ChainScan.Store.ForgetFrom | src/spstore.rs:266-274 | drops exactly the confirmed rows at or above a height and counts them |
| ChainScan.Store.ResumeFrom | src/main.rs:1088-1123 | where a scan resumes for every answer of the backend; what starting there keeps is `ChainScan.ScanTracks` |
| ChainScan.Store.Scan | src/main.rs:781-807 | heights one after another, stopped at any boundary |
| ChainScan.WalkMatches | src/main.rs:781-807 | walking on makes the confirmed rows exactly this chain's outputs over the heights covered |
| ChainScan.TracksEqualsFreshIff | src/main.rs:781-807 | a store with some heights missing equals a scan from scratch if and only if no missing block holds a payment |
| ChainScan.FirstScanIsInSync | src/main.rs:1095-1101 | the first scan starts where the chain is and leaves exactly what it found from there |
| ChainScan.ScanTracks | src/main.rs:1088-1123 | one scan, across a reorganisation within the depth and stopped at any boundary, leaves the rows of the chain its watermark names, with exactly the stated heights missing |
| ChainScan.ScanStaysInSync | src/main.rs:1088-1123 | a scan that does not stop short keeps the store in sync |
| ChainScan.EveryScanTracks | src/main.rs:781-807 | the same for any number of scans, chains and stops |
| ChainScan.EveryScanEqualsFreshIff | src/main.rs:781-807 | after any number of scans, reorganisations and stops the store equals a fresh scan if and only if no block that was dropped and not walked again holds a payment |
| ChainScan.NothingMissingUnlessShort | src/main.rs:781-807 | and no height is missing unless some scan stopped right after a rewind |
| ChainScan.StoppedRewindThenAny | src/main.rs:1088-1123 | after a scan that stopped right after a rewind, the next scan that gets past its first height is in sync with whatever chain there is by then if and only if it rewinds too or nothing was found between the rewound and the recorded height |
| ChainScan.StoppedRewindThenReturn | src/main.rs:1088-1123 | in particular when the chain returns, only if nothing was found there |
| ChainScan.StoppedRewindLosesAPayment | src/main.rs:1088-1123 | a concrete payment that is lost this way |
| Strip.Cursor.Take | src/spsend.rs:263-272 | the next bytes, or no move at all |
| Strip.Cursor.CompactSize | src/spsend.rs:274-289 | a compact size and how far it reads, in all four widths |
| Strip.CopyMap | src/spsend.rs:231-247 | one map copied with its empty output scripts left out |
| Strip.StripEmptyOutputScripts | src/spsend.rs:210-228 | copying in one pass is parsing, filtering the output maps and writing |
| Strip.KeptIsExact | src/spsend.rs:231-247 | exactly the empty pairs of key 0x04 go, every other pair stays as often as it was |
| Strip.StripOfRendered | src/spsend.rs:210-228 | on a serialized map list it is serializing the filtered list |
| Strip.WrittenIsWellFormed | src/spsend.rs:199-201 | pairs with shortest lengths are such a serialization |
| Strip.StripIsExactAndIdempotent | src/spsend.rs:210-228 | for every accepted input: the same maps in the same order less the empty scripts, and stripping again changes nothing |
| Resolve.ResolveOutputs | src/spsend.rs:66-89 | every recipient gets an output of its own with its placeholder, and it succeeds exactly when there are enough of each placeholder |
| Base32.FromBase32 | src/sp.rs:91-110 | of 5-bit values it returns bytes exactly when they are a padded regrouping of some, although the accumulator drops high bits |
| Base32.ToBase32 | src/spreceive.rs:194-206 | the padded 8-to-5 regrouping |
| Base32.RegroupingIsOneToOne | src/sp.rs:89-110 | no two byte strings share groups and no two accepted group strings share bytes |
| Base32.DecodeOfEncode | src/sp.rs:91-110 | decoding what was encoded gives it back |
| Base32.EncodeOfDecode | src/sp.rs:91-110 | encoding what was decoded gives back the same groups |
| CoinSelection.Select | src/spspend.rs:268-318 | the shortest prefix of economic coins that covers the payment and its own fee, or a failure that no prefix within the limit covers |
| CoinSelection.FeeIsSubadditive | src/spspend.rs:321-324 | the rounded-up fee of a sum is at most the sum of the fees |
| CoinSelection.NoChoiceCovers | src/spspend.rs:268-318 | when all the coins looked at do not cover their need, no choice among them does |
| CoinSelection.SelectOrNothingWould | src/spspend.rs:268-318 | a failure means no subset of the coins it looked at would have done |
| Cbor.Encode | src/qr.rs:159-176 | header and content, the length cut to 32 bits; when that parses back is `Cbor.EncodingParsesBackIff` |
| Cbor.Unwrap | src/qr.rs:586-651 | the content of one canonical byte string and nothing else |
| Cbor.EncodingParsesBackIff | src/qr.rs:159-176 | an encoding parses back if and only if its length is below 2^32 |
| Cbor.AcceptedIsEncoded | src/qr.rs:586-651 | whatever is accepted below that length is exactly the encoder's output |

## Left out

- Real curve, SHA-256, HASH160 and signature arithmetic: an abstract prime-order group and uninterpreted functions stand for them.
- Error texts: a `Refusal` names a group of checks, and where the code would report the first of several failures the model only keeps that it refuses.
- Base64, JSON, hex fields and the PSBT wire format of a session: encoding and decoding are the identity; the wire format itself is modelled only in `Strip.dfy`.
- Output key origins, extended keys, proprietary and unknown PSBT fields, `signer_of` and the lines reported to a person.
- `to_v0`, `sp_inputs`, `verify_signatures` and `finalize` of `src/spspend.rs`, `AnyPsbt`, descriptor and address string parsing, and the bech32m checksum: field copying or unseen libraries.
- BDK's wallet: a half is an input with stated coins and outputs; `psbt-v2`'s lock time is BIP-370 "Determining Lock Time".
- Dleq.SpecialSoundness: takes a second challenge oracle, because one hash function gives one challenge for equal commitments.
- Building.JoinHalves: a half whose own amounts add up to more than 64 bits is not modelled as wrapping; the joined sums and the products are.
- CoinSelection.Select: the payment plus its fee is an unbounded number, where the code would stop on overflow; the running total is checked at 64 bits as in the code.
- Completion.SharedSendCompletes: covers signers that give all their shares on every visit and sign all their inputs on a signing pass, and whose derivation succeeds; safety is proved for any answer. The grace period is a choice of when to broadcast.
- ReferenceSigner.AnswerIsHonest: the device is modelled on values, not as the loop over one PSBT; its own key is the key the input stands for, so two keys with one HASH160 and key origins that lie are not modelled.
- TwoDrivers.DriversRefine: the channel hands over only what the two sent and texts that are no message; `Begin` and `Retire` are stated beside it, before and after such a run.
- SharedFlow.Flow.Next: the channel's hand-over and the save of the inbox are one action. A kill between the two leaves the file as it was and loses the messages handed over, which the channel of `TwoDrivers.ChannelCarries` may do to any message.
- DirTransport.Participant.Receive: the clock is the list of looks at the folder; a kill between saving the cursor and returning is not modelled.
- Base32.FromBase32: of values of 32 and above, which the bech32 decoder never hands over, only the length of the result is stated.
- ChainScan.Store.Scan: reorganisations during one scan, stops between the rows and the watermark of one height, an explicit start height, scanning one transaction, and the sort order of the listed rows. An unreachable backend at some height is a stop there.
- Marmot, Electrum, BlindBit, the camera, UR and GIF parts, the faucet, printing and the command line.
