# Link-session scripts: a verified model

This project models the scripts that drive two Game Boy emulators through a link-cable
trade or battle and then certify what happened, and proves properties of that model with
Dafny 4.11. `dafny verify dfyconfig.toml` checks every file.

Two owner processes each hold one emulator. An owner is event driven: emulator hooks call
back into it, once per frame it may choose a button, after each tick it may settle evidence.
The owners share one byte per owner and phase, written once by its owner and read by the
peer. A pure parent judges the two final snapshots. Around this core stand the tools that
find routes, patch ROMs, choose a worker count, account for rows, log calls, capture frames,
check recorded digests and report coverage.

## How it is built

* `ReadinessBoard` is the shared array. `BattleProtocol` and `TradeProtocol` describe one
  owner as a transition system: each hook, input decision, settlement and close is one step
  over a value. Every memory cell a step reads is an arbitrary byte and hooks come in any
  order, so nothing is assumed about the game.
* `BattleDriver` and `TradeDriver` are the drivers in their own form, classes whose fields
  the callbacks update, and each method's contract says that the object's state afterwards
  is the transition system's next state.
* `BattleInvariants`, `BattlePair` and `TradePair` take two owners, interleave them in every
  order over every schedule, and prove what each run keeps and what the parent says of it.
  `BattleRules` and `TradeRules` hold the validations that the live observer and the parent
  share. `BattleScript` and `BattleWitness` build runs for any two accepted configurations and
  any choice of the evidence the parent asks for; `TradeWitness` does so for trade drivers.
  `Interleaving` holds what both protocols share: input logs and two owners taking turns.
* What these transition systems and the parent say is proved once more in the source's own
  terms, without their names: `BattleCertificate` in the fields of the two snapshots,
  `BattleTurns` and `BattleHooks` in the memory a hook reads and the record it leaves,
  `BattleScreens` and `TradeScreens` in cursors, facings, buttons and frames, `TradeHooks` in
  the parties in memory, `CoverageMeaning` and `CoverageNames` in the document's fields.
* `BattleSession` and `TradeSession` put two driver objects on one shared board and show that
  a session in that form, from the empty board to the parent's verdict, is the run of the two
  transition systems.
* `BfsRoute`, `IpsPatch`, `Checksum`, `WorkerPolicy` with `WorkerSelection`, `RowAccounting`,
  `CallLog`, `CaptureProxy`, `DigestLength`, `RecordClaims`, and `CoverageResults` with
  `CoverageCollector`, `CoverageReport`, `CoverageBuild` and `CoverageWitness` are separate
  models of the other scripts. In each, the loops of the source are methods proved against
  a specification, and the lemmas are about that specification.

An environment choice (what a write call takes, when a deadline passes, how a stream splits
into blocks) is a nondeterministic choice in the method, so a contract holds for all of them.

## What the proofs say that reading the scripts does not

* The battle parent asks for more than a live owner at its goal has established, and by
  exactly four facts: the link-menu phase, the room phase, a baseline older than the
  exchange, and an end marker older than the room return (`FrozenTurnReaccepted`,
  `LivePairVerdict`). These four are independent of the goals and of each other, at both
  checkpoints: every combination is reached by some run of any two accepted owners whose
  goals can be reached at all (`FactsAreIndependent`, `GoalsReachableExactly`).
* Some run of two accepted battle owners is certified exactly when their ROMs agree on the
  two chosen moves and, for a room return, no party member has a maximum of zero hit points
  (`CertifiableExactly`).
* The trade parent certifies by parties alone. For any two drivers there is a certified run
  without an input or an announced party screen (`CertifiedByPartiesAlone`), and one with
  every local goal reached that is refused for the member received (`WrongMemberRefused`).
* The other verdicts are within reach too: four clean arms select a worker count
  (`CleanRunSelects`), and a small document is COMPLETE (`SmallDocumentComplete`).
* Every pair of legal actions is settled: whatever damages, double hits, misses and full
  paralysis two sides go through, in either order, the owner freezes the turn with exactly
  those samples and hit points (`TurnPlayedOut`).
* On every menu a press brings the cursor nearer to its target (`PressesApproach`), and an
  obedient move menu is on the chosen move after as many presses as it was entries away
  (`CursorArrives`).
* The label of a refused battle pair depends on the order of the two reports exactly when
  one owner is unsupported and the other is supported but fails its checks (`VerdictOrder`
  in `BattlePair`), which a run of a single event brings about (`LabelFollowsOrder`). The
  trade parent's verdict and status never depend on the order, and its refusal of two drivers
  at their goal is always a difference in a copy's last entry.
* The route search marks its start as visited, so a query for the very coordinates it starts
  on, if it names no other map as well, is never answered on any map
  (`OwnCoordinatesHopelessExactly`); on every query that does not ask for the start's
  coordinates looking only away from the start is complete (`AwayIsEnough`).
* An IPS record that starts at offset 0x454F46 is read as the end of the file
  (`ReadsBackExactlyWhen`). A stream that ends early always ends in the index error, after
  possibly deleting bytes from an image that is then thrown away.
* A selected worker count beats workers=1 in every measured runtime exactly when each of
  them measured workers=1 (`ReferenceBeatenExactly`). `select_policy` itself does not refuse
  an arm of an unplanned runtime, which needs no such reference (`ThirdRuntimeSelected`). The
  tool never passes one: `main` plans RUNTIMES only, and `ExperimentPlan.validate` refuses
  others (benchmark_matrix_concurrency.py:161, 886-896), so a run of the tool always has the
  property (`KnownRuntimesBeatReference`) and only a direct call of `select_policy` can miss it.
* Row accounting promises that no row is dropped. A tier with counts keeps it for every row
  it reports case by case; the selected rows of a finished tier without case rows vanish
  without a mark exactly when its aggregate is smaller than its selection
  (`RowsVanishExactly`).
* A padded digest passes the length computation and is still never honoured
  (`PaddedClaimNeverHonoured`).
* When a deadline stops the capture proxy between reaching a selected frame and capturing
  it, that frame is not captured later either (`MissedStaysMissed`); this is the one way `Advance`
  may fall short.

## Model

| member | source | states |
|---|---|---|
| ReadinessBoard.PeerReadiness.CellsDistinct | scripts/_probe_timed_rom_pair_support.py:76-84 | two owners, or two phases, never share a byte of the board; the same owner and phase always do |
| ReadinessBoard.PeerReadiness.PublishReady | scripts/_probe_timed_rom_pair_support.py:80-81 | exactly one byte of the shared array changes: the owner's own flag for that phase goes up, no other own flag and no flag of the peer moves |
| ReadinessBoard.PeerReadiness.PeerReady | scripts/_probe_timed_rom_pair_support.py:83-84 | reads the peer's half of the board, never the owner's own |
| BattleRules.ChosenIsFirstSendable | scripts/_timed_battle_probe.py:107-132 | the move picked from the party names a slot with PP and an enabled, supported, damaging move, with that move's catalogue effect, and no earlier candidate slot was sendable |
| BattleRules.ChoosesExactly | scripts/_timed_battle_probe.py:107-132 | a move is found exactly when some slot is sendable and every slot before it is empty, spent or readable and unsupported |
| BattleRules.ValidateParty | scripts/_timed_battle_probe_reads.py:57-73 | returns the first slot with hit points left, and refuses exactly the parties of the wrong shape or without a living member |
| BattleRules.ReplaySamples | scripts/_timed_battle_probe.py:707-718 | replays the recorded damage applications against a running total and fails at the first one that disagrees |
| BattleRules.ReplayIsSubtraction | scripts/_timed_battle_probe.py:710-718 | a replay that succeeds is a subtraction: what is left is the start minus the sum of all recorded damages, and no application passes through zero |
| BattleRules.ValidateLocalTurn | scripts/_timed_battle_probe.py:673-749 | accepts exactly the turns whose two halves and whose PP evidence satisfy the settlement predicate (shape, catalogue effect, done and miss flags, damage replay, status change, PP) |
| BattleRules.ValidateBaseline | scripts/_timed_battle_probe.py:644-656 | accepts exactly the combatant that the first living member of the party turns into |
| BattleRules.ValidateHealed | scripts/_timed_battle_probe.py:659-670 | accepts exactly the parties that differ from the one before in hit points, status and PP cells only, with hit points full and status clear |
| BattleRules.ValidateSide | scripts/_timed_battle_probe.py:677-736 | the check of one half of a turn, equal to the settlement predicate of one mover and one target |
| BattleProtocol.ConstructQualifies | scripts/_timed_battle_probe.py:40-84 | whatever the constructor accepts is qualified: lead is the first living slot, the chosen slot is the one asked for if any, and the chosen triple is a catalogue move standing in the lead's record |
| BattleInvariants.StepKeepsOwnerSound | scripts/_timed_battle_probe.py:208-380 | every hook, input decision, after-step or close keeps the owner invariant: evidence in order of sequence numbers, at most two samples per ledger and as many as `damage_done`, flags up exactly with the evidence they announce, an end marker that is a mutual run unless an error says otherwise |
| BattleInvariants.StepOnlyAdvances | scripts/_timed_battle_probe.py:178-183 | one step never rewrites baseline, exchange, turn or room, never drops a flag or a sent name, and changes nothing but `closed` once an error is set |
| BattleInvariants.StepKeepsRendezvous | scripts/_timed_battle_probe.py:420-537 | one step keeps it true that every confirming input already sent had both owners' flags up |
| BattleInvariants.DecideLawful | scripts/_timed_battle_probe.py:420-537 | an input decision sends a named input only with the own and the peer's flags it needs, and publishes screen phases only |
| BattleInvariants.ObserveKeeps | scripts/_timed_battle_probe.py:217-380 | one observation keeps the evidence invariant, whatever the memory holds |
| BattleInvariants.StepKeepsInputs | scripts/_timed_battle_probe.py:382-409 | one step keeps the input log sound: every quota within its limit, every named input logged once, hold windows disjoint and in order |
| BattleInvariants.InputTotalBounded | scripts/_timed_battle_probe.py:382-409 | a sound log holds at most 150 inputs, the sum of all quotas |
| BattlePair.RunSound | scripts/_timed_battle_probe.py:208-567 | every run, over every interleaving of two owners, every hook order and every memory content, keeps both owners sound, their rendezvous and their input logs |
| BattlePair.RendezvousSafety | scripts/_timed_battle_probe.py:411-487 | over every interleaving: link, fight and move are confirmed only with both owners at that rendezvous; `run_a` only after both owners froze their turn; so no battle end or room return is recorded on either side before both turns are frozen |
| BattlePair.RoomFollowsEnd | scripts/_timed_battle_probe.py:548-567 | room evidence exists only with an end marker and with the peer's turn frozen |
| BattlePair.RunInputsBounded | scripts/_timed_battle_probe.py:382-409 | over every run each owner sends at most 150 inputs, each named one at most once, and no two hold windows overlap |
| BattlePair.EvidenceIsFinal | scripts/_timed_battle_probe.py:208-380 | over every continuation of every run, written evidence stays as it is, flags only grow, and after the first error nothing changes but `closed` |
| BattlePair.JudgeRoom | scripts/_timed_battle_probe.py:836-854 | accepts exactly the room evidence that is ordered after the turn, shows a mutual run and returns the healed party |
| BattlePair.JudgeOwner | scripts/_timed_battle_probe.py:773-854 | the parent's checks of one snapshot against the other, in source order, with the status the first failing one gives |
| BattlePair.AdjudicatePair | scripts/_timed_battle_probe.py:752-861 | the parent's status of two snapshots is the first owner's refusal, else the second's, else complete; what complete says field by field is in `BattleCertificate` |
| BattlePair.ChosenMoveIsExchanged | scripts/_timed_battle_probe.py:799-815 | the triple picked at construction equals the exchanged slot, move and effect of any turn frozen live |
| BattlePair.FrozenTurnReaccepted | scripts/_timed_battle_probe.py:250-318 | a turn frozen live passes the parent's party, lead, baseline, settlement, PP and chosen-move checks; the snapshot as a whole passes exactly when both link phases were published, the baseline is older than the exchange, and the end is older than the return |
| BattlePair.TurnCompletesPhases | scripts/_timed_battle_probe.py:790-796 | a frozen turn brings six of the eight required phases with it; only the link-menu and room phases can still be missing |
| BattlePair.LivePairVerdict | scripts/_timed_battle_probe.py:752-861 | over every run in which both owners reach their goal, the parent says complete exactly when both sides' evidence is ordered and the two snapshots mirror each other |
| BattlePair.SettledTurnBalances | scripts/_timed_battle_probe.py:673-749 | in a settled turn each side's hit points are the baseline's minus the sum of the recorded damages, never reaching zero, and only the sent slot's PP moves, by one and below its top two bits, exactly when the move executed |
| BattlePair.CompletePairLedger | scripts/_timed_battle_probe.py:820-835 | in a pair certified complete both accounts balance, and the two owners hold the same damage ledgers and final hit points |
| BattlePair.VerdictOrder | scripts/_timed_battle_probe.py:773-861 | the certificate does not depend on which report comes first; the refusal label does, exactly when one report is unsupported and the other is not but fails its own or the mirror checks |
| BattlePair.LabelFollowsOrder | scripts/_timed_battle_probe.py:773-861 | for any two owners a run of one event, a fainting before the turn, ends in two reports that are called unsupported in one order and a mismatch in the other |
| BattleCertificate.CertifiedTellOneStory | scripts/_timed_battle_probe.py:820-835 | of any two certified snapshots each combatant, before and after the turn, has the slot, species, hit points, status and moves the other side saw, the slots crossed and the action records agree |
| BattleCertificate.CertifiedRunExactly | scripts/_timed_battle_probe.py:752-861 | over every run with both goals reached the pair is certified exactly when both link phases are up, baselines and ends are in order on both sides, and both tell that one story, field by field |
| BattleCertificate.CertifiedInOrder | scripts/_timed_battle_probe.py:773-815 | each certified side was supported, at its goal, had published every phase, and recorded baseline, exchange and settlement in order for the move announced at construction |
| BattleCertificate.BaselineBytes | scripts/_timed_battle_probe.py:644-656 | the baseline check holds exactly for the first record with hit points, its fields read byte by byte |
| BattleCertificate.CertifiedLead | scripts/_timed_battle_probe.py:644-656 | the baseline of a certified side is its first living member, byte by byte |
| BattleCertificate.TurnHalves | scripts/_timed_battle_probe.py:673-749 | both halves of a settled turn hold: own move, executed or fully paralysed, a miss exactly without damage, a chain of damages of the allowed number down to the final hit points, a status change only by a damaging paralysing move |
| BattleCertificate.CertifiedHalves | scripts/_timed_battle_probe.py:673-749 | both halves of each certified turn hold in these terms, and PP was entered exactly when the own move executed |
| BattleCertificate.CertifiedReturn | scripts/_timed_battle_probe.py:836-854 | a certified room return is ordered, both sides ran, and the party came back with its maximum hit points, no status and no other byte touched but PP |
| BattleScript.ConstructBuilds | scripts/_timed_battle_probe.py:79-84 | whatever the constructor accepts has the usable lead record and exchangeable move that the runs below need |
| BattleScript.TurnPlayed | scripts/_timed_battle_probe.py:250-290 | one owner's exchange, both actions and settlement from any state at its confirmed move, with its baseline frozen before the exchange or only behind it |
| BattleScript.ReturnsHome | scripts/_timed_battle_probe.py:548-567 | from any settled turn, with the peer settled too, an owner runs, ends the battle, returns and freezes its healed party, also when the end is reported again after the return |
| BattleWitness.PlannedRun | scripts/_timed_battle_probe.py:208-567 | for any two accepted configurations whose goals can be reached, at either checkpoint, and any choice of the four facts on each side, some interleaving leads both owners to their goals with exactly those facts |
| BattleWitness.FactsAreIndependent | scripts/_timed_battle_probe.py:752-861 | where the goals can be reached, the four facts are independent of them and of each other: every combination is reached by a run, and the parent's checks of a snapshot alone pass exactly when all hold |
| BattleWitness.PlannedPairVerdict | scripts/_timed_battle_probe.py:752-861 | with reachable goals and ROMs that agree on the two chosen moves, each combination is reached by two owners facing each other, and the pair is certified exactly when both sides have all four facts |
| BattleWitness.GoalsReachableExactly | scripts/_timed_battle_probe.py:569-572 | both goals can be reached exactly when every party that has to come back healed has no member whose maximum hit points are zero |
| BattleWitness.CertifiedKnows | scripts/_timed_battle_probe.py:292-318 | a certificate rests on each owner having read the peer's chosen move and its effect from its own ROM |
| BattleWitness.CertifiableExactly | scripts/_timed_battle_probe.py:752-861 | some run of two accepted configurations is certified exactly when their ROMs agree on the two chosen moves and, for a room return, both parties can be healed |
| BattleTurns.HitRecorded | scripts/_timed_battle_probe.py:336-361 | an application over a target of h hit points that loses d leaves exactly the sample (h, d, h-d, 0) in the acting side's record |
| BattleTurns.Opens | scripts/_timed_battle_probe.py:336-346 | before damage the target's hit points are taken down; a second application over an open one is an error |
| BattleTurns.Closes | scripts/_timed_battle_probe.py:347-361 | after damage one sample is added; without an open application, without execution, or as a third sample it is an error |
| BattleTurns.StrikeRecorded | scripts/_timed_battle_probe.py:319-365 | whatever damages within the hit points, double hits, misses or full paralysis a side goes through, its record holds exactly that and the other side's record is untouched |
| BattleTurns.TurnPlayedOut | scripts/_timed_battle_probe.py:265-365 | from any state at its confirmed move, for every two legal actions in either order, the owner ends with a frozen turn of exactly those samples, hit points, statuses and PP |
| BattleHooks.FirstMainLoop | scripts/_timed_battle_probe.py:250-264 | the first main loop freezes the baseline exactly when both sides can battle and the own one is the qualified lead with its move and PP, and is an error otherwise |
| BattleHooks.LastMainLoop | scripts/_timed_battle_probe.py:265-290 | the main loop after the exchange is an error while the turn is not over, and otherwise freezes the turn put together from exchange, records and memory only if both halves hold |
| BattleHooks.ExchangeHook | scripts/_timed_battle_probe.py:293-318 | the exchange is accepted exactly once, after the own confirmation, for the chosen slot and two moves usable in the own ROM |
| BattleHooks.EndHook | scripts/_timed_battle_probe.py:366-376 | an end before the turn or the own RUN is an error; any other end is recorded and is an error unless both ran |
| BattleHooks.RoomTick | scripts/_timed_battle_probe.py:548-567 | the room is frozen once, exactly when ended, returned and quiet, and is an error when the party read there is not the healed one |
| BattleHooks.DeafWhenDone | scripts/_timed_battle_probe.py:208-216 | a hook that finds the owner closed or failed changes nothing |
| BattleHooks.IdleMainLoop | scripts/_timed_battle_probe.py:250-265 | a main loop without an exchange, or after the turn, is no evidence |
| BattleHooks.ReturnHook | scripts/_timed_battle_probe.py:377-380 | a return is recorded after an end and an error before one |
| BattleHooks.FaintHook | scripts/_timed_battle_probe.py:291-292 | a fainting is an error until the turn is frozen and nothing afterwards |
| BattleHooks.PartyHooks | scripts/_timed_battle_probe.py:243-249 | the party screen may show only after its own confirmation, and is left once it was seen and left by B |
| BattleHooks.OutsideTurn | scripts/_timed_battle_probe.py:319-365 | hooks of the action before the exchange or after the turn are no evidence |
| BattleScreens.ScreenAfter | scripts/_timed_battle_probe.py:217-249 | the screen and polling point an owner believes in after every hook, and its two counters |
| BattleScreens.OnMoveMenu | scripts/_timed_battle_probe.py:474-485 | on the move menu the cursor is moved towards the chosen move, A is pressed on it only once both announced it, and a disabled move is an error |
| BattleScreens.OnBattleMenu | scripts/_timed_battle_probe.py:450-473 | on the battle menu the owner goes to the wanted column, then the wanted row, then presses A: RUN after the turn, the party first, FIGHT once both left it |
| BattleScreens.OnLinkMenu | scripts/_timed_battle_probe.py:434-442 | on the link menu the owner goes to the second entry and presses A once both announced it |
| BattleScreens.InTheRoom | scripts/_timed_battle_probe.py:488-529 | in the room the owner, at its role's place, turns to the facing its role needs and then presses A |
| BattleScreens.PressesApproach | scripts/_timed_battle_probe.py:434-485 | whatever the owner, frame and memory, a press on a list brings its cursor one nearer to the target, or is a named A with the cursor on it |
| BattleScreens.OnPartyAndDialogue | scripts/_timed_battle_probe.py:443-487 | the party screen is left by B exactly when it is shown in full, and a dialogue is confirmed |
| BattleScreens.OnTheWay | scripts/_timed_battle_probe.py:530-537 | before any screen is known the owner steps up three times and then presses A, until the game is saved or the link begins |
| BattleScreens.HeldBack | scripts/_timed_battle_probe.py:420-427 | an owner that failed, closed, reached its goal, waits for its cadence or for its peer asks for nothing |
| BattleScreens.OtherScreensWait | scripts/_timed_battle_probe.py:434-537 | on every other screen, or one not polled, nothing is pressed |
| BattleScreens.CursorArrives | scripts/_timed_battle_probe.py:474-485 | over an obedient move menu the presses bring the cursor onto the chosen move in as many presses as it was entries away, within the budget |
| BattleDriver.ChooseMove | scripts/_timed_battle_probe.py:107-122 | the slot loop returns the move the recursive choice describes, and refuses where the source raises |
| BattleDriver.LoadParty | scripts/_timed_battle_probe_reads.py:41-54 | reads the party from memory and refuses exactly where validation does |
| BattleDriver.Qualify | scripts/_timed_battle_probe.py:40-84 | everything the constructor settles before its first hook, equal to the construction function, and qualified |
| BattleDriver.BattleOwnerDriver.constructor | scripts/_timed_battle_probe.py:54-99 | the fields start as the transition system's fresh owner, with only `party_qualified` on the own half of the board |
| BattleDriver.BattleOwnerDriver.Publish | scripts/_timed_battle_probe.py:185-189 | one flag goes up, locally and on the board; the peer's half stays as it was |
| BattleDriver.BattleOwnerDriver.FreezeBaseline | scripts/_timed_battle_probe.py:250-264 | freezes the baseline or keeps the first failing check as the error, as the transition system says; nothing else changes |
| BattleDriver.BattleOwnerDriver.FreezeTurn | scripts/_timed_battle_probe.py:265-290 | freezes the settled turn or keeps the first failing check as the error, as the transition system says |
| BattleDriver.BattleOwnerDriver.RecordExchange | scripts/_timed_battle_probe.py:293-318 | records the exchange bytes and effects, keeping what was written when a later check fails |
| BattleDriver.BattleOwnerDriver.RecordAction | scripts/_timed_battle_probe.py:319-365 | updates one side's action, damage or PP ledger, between exchange and settlement only |
| BattleDriver.BattleOwnerDriver.RecordEnd | scripts/_timed_battle_probe.py:366-380 | records the end marker after a frozen turn and a sent run, then judges it |
| BattleDriver.BattleOwnerDriver.RecordReturn | scripts/_timed_battle_probe.py:366-380 | records the return only after an end marker |
| BattleDriver.BattleOwnerDriver.EnterHook | scripts/_timed_battle_probe.py:223-246 | counters, screen context and polling point after one hook |
| BattleDriver.BattleOwnerDriver.Observe | scripts/_timed_battle_probe.py:217-380 | one hook's effect on evidence, error and flags equals the transition system's observation |
| BattleDriver.BattleOwnerDriver.Callback | scripts/_timed_battle_probe.py:208-222 | the whole owner state after a callback equals the transition system's step; silent once closed or failed |
| BattleDriver.BattleOwnerDriver.Pulse | scripts/_timed_battle_probe.py:382-409 | one suggested input: suppressed when already sent, an error past its quota, else booked with its cadence |
| BattleDriver.BattleOwnerDriver.BattleMenuInput | scripts/_timed_battle_probe.py:447-487 | the battle-menu decision (run, inspect, fight) as the transition system makes it |
| BattleDriver.BattleOwnerDriver.MoveMenuInput | scripts/_timed_battle_probe.py:487-505 | the move-menu decision: announce, wait for the peer, confirm; a disabled move is an error |
| BattleDriver.BattleOwnerDriver.ScreenInput | scripts/_timed_battle_probe.py:429-537 | the decision of any screen, as the transition system makes it |
| BattleDriver.BattleOwnerDriver.BeforeStep | scripts/_timed_battle_probe.py:411-537 | the owner state and the input after one frame's decision equal the transition system's, reading only the peer's half of the board |
| BattleDriver.BattleOwnerDriver.AfterStep | scripts/_timed_battle_probe.py:539-567 | the owner state after a tick equals the transition system's: room evidence frozen once, after end and return |
| BattleDriver.BattleOwnerDriver.Close | scripts/_timed_battle_probe.py:605-621 | closing makes every later callback inert and keeps the first error |
| BattleSession.HandleOne | scripts/_probe_timed_rom_pair_support.py:73-84 | one callback of one owner object over the shared board is one step of its transition system against the peer object's flags, and leaves the peer object as it was |
| BattleSession.Perform | scripts/_timed_battle_probe.py:208-567 | two owner objects over one board, their callbacks in any order, hold the states and have sent the inputs of the run of the two transition systems |
| BattleSession.PlaySession | scripts/_timed_battle_probe.py:752-861 | a whole session from an empty board, two constructed owners, any schedule, two snapshots and the parent gives the verdict of that run |
| TradeRules.ValidateParty | scripts/_timed_trade_probe.py:104-122 | accepts exactly the parties of one to six members with matching lists, sizes and species bytes |
| TradeRules.ExpectedMembers | scripts/_timed_trade_probe.py:125-139 | one side of a trade is again a valid party: the survivors in order, then the peer's outgoing member |
| TradeRules.TradeConserves | scripts/_timed_trade_probe.py:125-139 | a reciprocal trade of two valid parties yields two valid parties holding exactly the same members, counted with multiplicity |
| TradeRules.TradeBack | scripts/_timed_trade_probe.py:125-139 | trading the two received members straight back gives each original party with the travelled member moved to the end |
| TradeRules.CopyIsExpected | scripts/_timed_trade_probe.py:257-270 | for a copy whose survivors were kept, being the expected party comes down to its last entry; the species list can never be the difference |
| TradeProtocol.ConstructQualifies | scripts/_timed_trade_probe.py:145-181 | whatever the constructor accepts has a valid party and an outgoing slot inside it |
| TradePair.StepKeeps | scripts/_timed_trade_probe.py:213-434 | every hook and every input decision keeps the trade owner's invariant: copies valid with survivors kept, final equal to copy without error, flags up exactly with what they announce, every sent name with the flags it needs |
| TradePair.StepKeepsInputs | scripts/_timed_trade_probe.py:293-321 | one step keeps the input log sound: quotas within limits, named inputs once, hold windows disjoint |
| TradePair.RunSound | scripts/_timed_trade_probe.py:213-434 | every run over every interleaving keeps both trade owners sound |
| TradePair.RendezvousSafety | scripts/_timed_trade_probe.py:331-368 | over every interleaving `link_a` is sent exactly when `link_menu_a_applied` is up, and only with both owners at the link menu; `party_a` only with both slots and both party screens announced |
| TradePair.RunInputsBounded | scripts/_timed_trade_probe.py:293-321 | over every run each owner sends at most 120 inputs, each named one at most once, with disjoint hold windows |
| TradePair.CopyIsFinal | scripts/_timed_trade_probe.py:257-280 | over every continuation the copied and final parties stay as they are, and no input follows an observed copy |
| TradePair.GoalEvidence | scripts/_timed_trade_probe.py:455-459 | a driver at its exchange goal holds a valid copy with its survivors kept and a final party equal to it |
| TradePair.ExamineLive | scripts/_timed_trade_probe.py:536-561 | the report of a driver at its goal can be faulted for its copy only, and only through the copy's last entry |
| TradePair.LivePairVerdict | scripts/_timed_trade_probe.py:536-567 | over every run in which both drivers reach the exchange goal, the parent says complete exactly when each copied last entry is the peer's outgoing one; any refusal is a copy mismatch and nothing else |
| TradePair.ExpectedParty | scripts/_timed_trade_probe.py:125-139 | the slices give the expected party, and raise exactly on an invalid party or slot |
| TradePair.CheckSelectMon | scripts/_timed_trade_probe.py:518-535 | accepts exactly the qualified party-screen evidence of one owner |
| TradePair.AdjudicatePair | scripts/_timed_trade_probe.py:495-567 | the whole report of the parent (complete, checkpoint flag, status, errors in order), loop included, equals the verdict function |
| TradePair.CompletePairConserves | scripts/_timed_trade_probe.py:536-567 | a complete pair is a real exchange: valid parties before and after, with the same members in all |
| TradePair.CompletePairMeans | scripts/_timed_trade_probe.py:536-567 | of a complete trade each side was at its goal, its final party is its copy, survivors in order without the outgoing member and the peer's member last, entry by entry |
| TradePair.VerdictOrder | scripts/_timed_trade_probe.py:495-567 | complete flag, checkpoint flag and status do not depend on which report comes first |
| TradePair.ReportStatus | scripts/_timed_trade_probe.py:536-567 | the status of an exchange report said symmetrically: complete when both are flawless, else mismatch when either copy is faulted, else unsupported when either final differs, else partial |
| TradeWitness.RamOf | scripts/_timed_trade_probe.py:85-102 | memory can hold every valid party: reading it back gives the party |
| TradeWitness.ConstructedExactly | scripts/_timed_trade_probe.py:145-183 | the constructor produces every configuration with a valid party and an offerable slot, and no other |
| TradeWitness.CyclePlayed | scripts/_timed_trade_probe.py:213-280 | one clean cycle of hooks, appended to any run, takes its owner to the goal and leaves the peer and both input logs alone |
| TradeWitness.CertifiedByPartiesAlone | scripts/_timed_trade_probe.py:495-567 | for any two constructed drivers some run is certified complete without one input or party-screen announcement: the certificate rests on the parties and not on the rendezvous |
| TradeWitness.WrongMemberRefused | scripts/_timed_trade_probe.py:495-567 | for any two constructed drivers, a copy that ends in anything but the peer's member still reaches both goals and is refused as a mismatch: phase flags prove nothing |
| TradeHooks.ReadExactly | scripts/_timed_trade_probe.py:80-122 | which memory reads as which party, and none other |
| TradeHooks.CopyHook | scripts/_timed_trade_probe.py:259-271 | the copied party is kept whatever it shows and announced exactly when every survivor is in its place and the received member does not evolve |
| TradeHooks.FinalHook | scripts/_timed_trade_probe.py:274-280 | the final party is kept and must be the copy; the cycle is announced only without an error |
| TradeHooks.UnreadableParty | scripts/_timed_trade_probe.py:213-218 | a party that cannot be read where it was to be read is the first error or none, and records nothing |
| TradeHooks.MarkHooks | scripts/_timed_trade_probe.py:257-273 | the enemy's member being added and the save are marks, each only when due, and never errors |
| TradeHooks.OtherHooks | scripts/_timed_trade_probe.py:220-280 | every other hook, and these when not due, changes the screen only |
| TradeScreens.ScreenAfter | scripts/_timed_trade_probe.py:219-256 | the screen and polling point an owner believes in after every hook, and its two counters |
| TradeScreens.OnPartyMenu | scripts/_timed_trade_probe.py:346-368 | on the party screen the owner announces it, moves towards its outgoing member once the peer is there, and presses A on it once both announced it |
| TradeScreens.OnLinkMenu | scripts/_timed_trade_probe.py:331-343 | on the link menu the owner goes up to the first entry and presses A once both announced it |
| TradeScreens.OnSubmenu | scripts/_timed_trade_probe.py:369-376 | right from STATS and A on TRADE, each only on its own screen |
| TradeScreens.OnConfirmation | scripts/_timed_trade_probe.py:377-383 | on the confirmation of the chosen member the owner goes up to the first entry and presses A |
| TradeScreens.InTheRoom | scripts/_timed_trade_probe.py:386-426 | in the room the owner, at its role's place, turns to the facing its role needs and then presses A |
| TradeScreens.PressesApproach | scripts/_timed_trade_probe.py:331-383 | a press on a list brings its cursor one nearer to the target, or is a named A with the cursor on it |
| TradeScreens.OnDialogue | scripts/_timed_trade_probe.py:384-385 | a dialogue is confirmed |
| TradeScreens.OnTheWay | scripts/_timed_trade_probe.py:427-434 | before any screen is known the owner steps up three times and then presses A, until the game is saved or the link begins |
| TradeScreens.HeldBack | scripts/_timed_trade_probe.py:282-330 | an owner that failed, reached its goal, holds a copy, waits for its cadence or for its peer asks for nothing |
| TradeScreens.OtherScreensWait | scripts/_timed_trade_probe.py:344-434 | on every other screen, or one not polled, nothing is pressed |
| TradeDriver.Qualify | scripts/_timed_trade_probe.py:145-181 | the constructor's checks, equal to the construction function, and qualified |
| TradeDriver.TradeOwnerDriver.constructor | scripts/_timed_trade_probe.py:156-189 | the fields start as the transition system's fresh owner, with only `party_qualified` on the own half of the board |
| TradeDriver.TradeOwnerDriver.CheckSurvivors | scripts/_timed_trade_probe.py:259-265 | the chained slice comparison holds exactly when every survivor was kept in place |
| TradeDriver.TradeOwnerDriver.JudgeCopy | scripts/_timed_trade_probe.py:257-270 | reads and judges the copied party as the transition system does, keeping it even when it is faulted |
| TradeDriver.TradeOwnerDriver.JudgeFinal | scripts/_timed_trade_probe.py:273-280 | reads and judges the final party; it is kept, and a difference becomes the error |
| TradeDriver.TradeOwnerDriver.EnterHook | scripts/_timed_trade_probe.py:225-254 | counters, menu context and polling point after one hook, the confirmation menu included |
| TradeDriver.TradeOwnerDriver.Callback | scripts/_timed_trade_probe.py:213-280 | the whole owner state after a callback equals the transition system's step; observation goes on after an error |
| TradeDriver.TradeOwnerDriver.Pulse | scripts/_timed_trade_probe.py:293-321 | one unnamed input charged to its kind and context, an error past the quota |
| TradeDriver.TradeOwnerDriver.LinkMenuInput | scripts/_timed_trade_probe.py:331-343 | the link-menu decision: announce, wait for the peer, confirm and publish together |
| TradeDriver.TradeOwnerDriver.PartyMenuInput | scripts/_timed_trade_probe.py:346-368 | the party-screen decision, slot by slot, confirmed only with both owners there |
| TradeDriver.TradeOwnerDriver.RoomInput | scripts/_timed_trade_probe.py:386-426 | the room decision: position, facing and input masks, an unknown serial role being an error |
| TradeDriver.TradeOwnerDriver.ScreenInput | scripts/_timed_trade_probe.py:329-434 | the decision of any screen, as the transition system makes it |
| TradeDriver.TradeOwnerDriver.BeforeStep | scripts/_timed_trade_probe.py:282-434 | the owner state and the input after one frame's decision equal the transition system's, reading only the peer's half of the board |
| TradeSession.HandleOne | scripts/_probe_timed_rom_pair_support.py:73-84 | one callback of one trade owner object is one step of its transition system against the peer object's flags, the peer object untouched |
| TradeSession.Perform | scripts/_timed_trade_probe.py:213-434 | two trade owner objects over one board, in any order, hold the states and have sent the inputs of the run |
| TradeSession.PlaySession | scripts/_timed_trade_probe.py:495-567 | a whole trade session from an empty board to the parent gives the report of that run |
| BfsRoute.Expand | scripts/bfs_route.py:109-136 | expanding one position in the four directions either finds a shortest route with every recorded path shortest, or leaves the search invariant with all four moves looked at |
| BfsRoute.Search | scripts/bfs_route.py:93-138 | a returned route replays from the start to a goal and is shortest; when none is returned below the node bound, or with an empty frontier, no route away from the start exists; every recorded path is a shortest one to its position; the loop terminates on every map |
| BfsRoute.ReachableIsRecorded | scripts/bfs_route.py:99-136 | every position reachable on the map within the current depth is recorded, with a path no longer than the string that reaches it |
| BfsRoute.NoShorterRoute | scripts/bfs_route.py:99-136 | no route away is as short as the current depth while the search goes on |
| BfsRoute.SearchingIsShortest | scripts/bfs_route.py:93-136 | at any moment of the search every recorded path has the length of the shortest string staying on the map |
| BfsRoute.FoundIsShortest | scripts/bfs_route.py:117-135 | the route that ends the search is shortest among all routes away from the start |
| BfsRoute.ExhaustedMeansNone | scripts/bfs_route.py:99-138 | an empty frontier leaves no route unfound, of whatever length |
| BfsRoute.RecordKeeps | scripts/bfs_route.py:128-136 | recording a new neighbour and queueing it keeps the search invariant |
| BfsRoute.PopKeeps | scripts/bfs_route.py:99-101 | taking the oldest entry keeps the search invariant at that entry's depth |
| BfsRoute.AwayIsEnough | scripts/bfs_route.py:93-138 | on every map each route is one away from the start exactly when the query does not name the coordinates of the start |
| BfsRoute.OwnCoordinatesNeverAnswered | scripts/bfs_route.py:93-132 | asked for its own starting coordinates and for no other map, the search has nothing to find on any map |
| BfsRoute.OwnCoordinatesHopelessExactly | scripts/bfs_route.py:93-132 | a query for the starting coordinates is hopeless on every map exactly when it names no other map to leave for |
| BfsRoute.OwnCoordinatesMissed | scripts/bfs_route.py:93-132 | on the map with one step out and back, asked for its starting coordinates, the search has nothing to find although that step back is a route, since the start is marked visited first |
| IpsPatch.ApplyIps | scripts/apply_color_patch.py:22-59 | the whole patcher equals its specification: header, record stream, last-writer-wins image, optional cut; it terminates on every input and fails with an index error exactly on streams that do not parse |
| IpsPatch.ReadRecords | scripts/apply_color_patch.py:28-54 | the unchecked slice loop returns exactly on streams that parse to their end marker at a record boundary, with the records applied in order |
| IpsPatch.ApplyRun | scripts/apply_color_patch.py:37-46 | extending and then writing byte by byte applies the run record |
| IpsPatch.ApplyData | scripts/apply_color_patch.py:47-53 | extending and then replacing the slice applies the data record, when all its bytes were there |
| IpsPatch.LastWriterWins | scripts/apply_color_patch.py:26-54 | a patched image is as long as the image or the furthest record end, and each byte is what the last record writing it says, else the original byte, else zero |
| IpsPatch.RoundTrip | scripts/apply_color_patch.py:28-54 | the text of any readable records parses back to exactly those records |
| IpsPatch.ParsedWasWritten | scripts/apply_color_patch.py:28-54 | whatever parses is the text of the records found, closed by the end marker |
| IpsPatch.AcceptsExactlyWritten | scripts/apply_color_patch.py:22-59 | the patcher accepts exactly the well-formed files, and its result is the fold of their records, cut if three bytes follow the marker |
| IpsPatch.MarkerOffsetEndsStream | scripts/apply_color_patch.py:29-33 | a record whose offset spells the end marker ends the stream: it and everything behind it are lost |
| IpsPatch.ReadsBackExactlyWhen | scripts/apply_color_patch.py:28-54 | any representable records read back in full exactly when none of them starts at the marker's offset |
| Checksum.HeaderLoop | scripts/apply_color_patch.py:79-81 | the wrapping subtraction loop computes the closed form, minus the byte sum minus 25 modulo 256 |
| Checksum.RepairChecksums | scripts/apply_color_patch.py:79-86 | on an image that holds both checksums, the array ends as the repaired image; on a shorter one it fails having written at most the header checksum |
| Checksum.WriteGlobal | scripts/apply_color_patch.py:83-86 | the two stored bytes are the big-endian sum of all other bytes modulo 65536 |
| Checksum.RepairIsRight | scripts/apply_color_patch.py:79-86 | a repaired image has both checksums right and differs in no byte outside the three |
| Checksum.RepairIsTheOnlyWay | scripts/_bootstrap_runtime_probes.py:101 | an image agreeing outside the three bytes is the repaired one exactly when its header byte cancels the header sum plus 25 and its global word is the sum of all other bytes |
| Checksum.RepairTwice | scripts/apply_color_patch.py:79-86 | repairing twice changes nothing more |
| WorkerPolicy.WinnerExactly | scripts/benchmark_matrix_concurrency.py:726-785 | on admissible evidence the selected counts are exactly those of at least two that are, in every runtime, strictly faster than every smaller count and no slower than any larger one |
| WorkerPolicy.SoundExactly | scripts/benchmark_matrix_concurrency.py:578-700 | an arm is sound exactly when nothing failed or is unfinished, something passed, the gate passed, it and its tiers ran at the count asked for, and its row ids and outcomes match the declared totals |
| WorkerPolicy.MeasuredAlike | scripts/benchmark_matrix_concurrency.py:478-522 | two comparable arms of one runtime measured the same tiers, rows and totals and recorded rows for each tier |
| WorkerPolicy.WinnerInSeconds | scripts/benchmark_matrix_concurrency.py:702-785 | in every runtime the selected count did the same work in less time than every smaller count and in no more than any larger one |
| WorkerPolicy.OneWinner | scripts/benchmark_matrix_concurrency.py:756-785 | no two counts can be selected from one body of evidence |
| WorkerPolicy.SameRowsEverywhere | scripts/benchmark_matrix_concurrency.py:478-522 | a selected count was measured everywhere on one matrix: any two arms of any runtime recorded identical, non-empty row ids |
| WorkerPolicy.OrderIsIrrelevant | scripts/benchmark_matrix_concurrency.py:525-785 | reordering the results changes neither admissibility nor the winning count |
| WorkerPolicy.ReferenceBeatenExactly | scripts/benchmark_matrix_concurrency.py:525-785 | a selected count is strictly faster than workers=1 in every measured runtime exactly when every measured runtime has a workers=1 arm |
| WorkerPolicy.KnownRuntimesBeatReference | scripts/benchmark_matrix_concurrency.py:525-785 | over the runtimes the benchmark plans, a selected count always beats workers=1 in every one |
| WorkerPolicy.UnknownRuntimeJoins | scripts/benchmark_matrix_concurrency.py:562-577 | an arm of a runtime the benchmark does not plan joins any winning evidence without a workers=1 reference, is not refused, and leaves a winner that does not beat workers=1 everywhere |
| WorkerPolicy.ThirdRuntimeSelected | scripts/benchmark_matrix_concurrency.py:562-577 | five clean arms, the fifth of a third runtime, that are selected from although no workers=1 arm is beaten in the third runtime |
| WorkerPolicy.CleanRunSelects | scripts/benchmark_matrix_concurrency.py:525-785 | clean arms of one and two workers in both runtimes are admissible, and select two workers exactly when two are faster |
| WorkerSelection.CheckDuplicates | scripts/benchmark_matrix_concurrency.py:583-591 | names a reason exactly when two arms share a runtime and a worker count |
| WorkerSelection.CheckArm | scripts/benchmark_matrix_concurrency.py:593-679 | names a reason exactly when an arm is not sound: unfinished, failed, without a passing row, with row ids or outcome totals that disagree, clamped, without a ceiling or without a gate pass |
| WorkerSelection.CheckClamps | scripts/benchmark_matrix_concurrency.py:643-675 | the three clamp reasons together cover exactly the arms not run at the requested count in the arm total and in every tier |
| WorkerSelection.CheckMeasured | scripts/benchmark_matrix_concurrency.py:562-567 | names a reason exactly when a declared count of a required runtime has no arm |
| WorkerSelection.GroupByRuntime | scripts/benchmark_matrix_concurrency.py:681-683 | the dictionary holds each runtime's arms, in order and without loss |
| WorkerSelection.CheckComparable | scripts/benchmark_matrix_concurrency.py:684-690 | names a reason exactly when some runtime's arms are not comparable |
| WorkerSelection.CheckShapes | scripts/benchmark_matrix_concurrency.py:697-713 | names a reason exactly when two runtimes measured different tiers or row ids |
| WorkerSelection.Rank | scripts/benchmark_matrix_concurrency.py:727-741 | the ranked best arm is first by rate and then by fewer workers, and the reference is the workers=1 arm, if there is one |
| WorkerSelection.CheckAll | scripts/benchmark_matrix_concurrency.py:542-713 | the reasons collected by all checks are empty exactly on admissible evidence |
| WorkerSelection.Decide | scripts/benchmark_matrix_concurrency.py:743-785 | a count is selected exactly when all runtimes name it best and some runtime improves; nothing improves exactly when no runtime does |
| WorkerSelection.SelectPolicy | scripts/benchmark_matrix_concurrency.py:525-785 | refused exactly when the evidence is not admissible; otherwise a count is selected exactly when it wins, the ranking reported is right, and every arm ran unclamped at its count, failed and left nothing, and matches its declared rows |
| WorkerSelection.OneNumberOff | scripts/benchmark_matrix_concurrency.py:578-700 | one number of one arm off, clamped, failed, unfinished, unmatched or undeclared, is enough to refuse all the evidence |
| RowAccounting.Tally.AccumulateCase | scripts/_matrix_concurrency_accounting.py:90-122 | the five totals grow by exactly what the case's status and counts say |
| RowAccounting.Tally.AccumulateTier | scripts/_matrix_concurrency_accounting.py:56-84 | the totals grow by the tier's rows (run, blocked or aggregate) and by one incomplete for an unsettled status |
| RowAccounting.TierCounts | scripts/_matrix_concurrency_accounting.py:23-87 | the totals of a report equal the sum over its tiers plus one incomplete per wanted tier it never mentions |
| RowAccounting.CleanTotalsExactly | scripts/_matrix_concurrency_accounting.py:23-122 | totals without a failed, incomplete, interrupted or unstarted row mean exactly that every wanted tier was reported and every reported one is settled with every row PASS or FAIL and nothing failed, errored, skipped or expected to fail |
| RowAccounting.EveryCaseCountsOnce | scripts/_matrix_concurrency_accounting.py:90-122 | when each counted row carries one outcome, a tier's rows add up to their number whatever state each ended in |
| RowAccounting.CasesByStatus | scripts/_matrix_concurrency_accounting.py:90-122 | each total of a tier's rows is the number of rows of its statuses plus the sum of the rows' own numbers for it |
| RowAccounting.ReadTier | scripts/_matrix_concurrency_accounting.py:48-83 | a wanted entry is charged for its rows and for one unit more when its status is not final |
| RowAccounting.UnreadTier | scripts/_matrix_concurrency_accounting.py:45-56 | an entry that is no tier or has no counts is one incomplete unit, one nobody asked for is nothing |
| RowAccounting.RowsOfTier | scripts/_matrix_concurrency_accounting.py:57-80 | the rows are read case by case, as a blocked selection, or from the entry's own numbers |
| RowAccounting.ReportByField | scripts/_matrix_concurrency_accounting.py:23-87 | a report adds its entries total by total, and one incomplete unit for each wanted tier nobody names |
| RowAccounting.NoRowIsLost | scripts/_matrix_concurrency_accounting.py:48-86 | for every report of any tiers and statuses whose rows carry one outcome each, the totals are the rows charged plus one for each unreadable entry, countless or unnamed blocked tier, unfinished status and missing tier |
| RowAccounting.NamedRowsCountedExactly | scripts/_matrix_concurrency_accounting.py:53-83 | all rows the wanted tiers name are counted exactly when each such tier has counts and its rows case by case, was blocked, or has an aggregate that adds up |
| RowAccounting.RowsVanishExactly | scripts/_matrix_concurrency_accounting.py:53-83 | rows of a wanted tier vanish without a mark exactly when it finished, ran nothing case by case and its aggregate is smaller than its selection |
| RowAccounting.SelectedRowsVanish | scripts/_matrix_concurrency_accounting.py:76-83 | a failed tier of any selected rows without an outcome leaves all totals at zero |
| RowAccounting.TierRowCounts | scripts/_matrix_concurrency_accounting.py:125-153 | each wanted tier's row count is the one of its last report that names rows, or unknown |
| RowAccounting.RowsExactly | scripts/_matrix_concurrency_accounting.py:125-159 | a tier's row count is that of the last entry that names rows, case by case or selected |
| RowAccounting.TierWorkersExactly | scripts/_matrix_concurrency_accounting.py:244-269 | a tier's concurrency is the least of asked, admitted and rows, and never less than one |
| RowAccounting.EffectiveWorkers | scripts/_matrix_concurrency_accounting.py:156-193 | known exactly when a ceiling was admitted and every tier names its rows; then it is the least of the per-tier values, and is reached by one of them |
| RowAccounting.TierEffectiveWorkers | scripts/_matrix_concurrency_accounting.py:244-269 | known under the same condition, with one value per tier |
| CallLog.CallEvidenceLog.constructor | scripts/_probe_timed_rom_pair_support.py:113-122 | an empty, open log with an empty file and no error |
| CallLog.CallEvidenceLog.WriteAll | scripts/_probe_timed_rom_pair_support.py:131-138 | whatever part of each write the disk takes, byte count, hash input and file stay equal, and what was written is a prefix of the payload |
| CallLog.CallEvidenceLog.Append | scripts/_probe_timed_rom_pair_support.py:124-143 | either the whole record is in the file, within the cap, or the log has failed for good with at most a part of it; a failed or closed log refuses and stays as it is |
| CallLog.CallEvidenceLog.Close | scripts/_probe_timed_rom_pair_support.py:155-166 | complete means requested and without error; a failing close is an error, and an earlier error is never taken back |
| CallLog.LogIsAcceptedExactly | scripts/_probe_timed_rom_pair_support.py:145-209 | the reader accepts the file a log leaves behind exactly when the log was closed complete, the owner counted as many calls, and the bytes fit the reader's cap |
| CallLog.AcceptedMeans | scripts/_probe_timed_rom_pair_support.py:169-209 | an accepted artifact is complete and has exactly the bytes, digest, records and line feeds its manifest and owner state, within the cap |
| CallLog.OnlyItsOwnFileAccepted | scripts/_probe_timed_rom_pair_support.py:169-209 | against a log's manifest only a file of its digest, length and lines is accepted: without a digest collision, the log's own file |
| CallLog.FailedLogKeepsRecords | scripts/_probe_timed_rom_pair_support.py:124-143 | a log in any state holds its whole records and at most a part of one more line |
| CallLog.RecordsAreLines | scripts/_probe_timed_rom_pair_support.py:128-139 | a file of whole records has as many lines as records and ends with a line feed |
| CallLog.ReadBlocks | scripts/_probe_timed_rom_pair_support.py:191-201 | however the reads split, size, digest input, line count and last byte are those of the content, and a content past the cap is refused |
| CallLog.ValidateCallArtifact | scripts/_probe_timed_rom_pair_support.py:169-209 | accepts exactly when nothing was streamed, or when manifest, owner total and the bytes read agree within the cap |
| CallLog.Drain | scripts/_probe_timed_rom_pair_support.py:539-548 | however the stream splits into blocks, exactly its first 65536 bytes are kept, all are counted, and truncation is reported exactly when something was dropped |
| CaptureProxy.CrossedExactly | scripts/diagnose_pair_trade.py:378-404 | stepping one frame at a time crosses each selected frame of the range exactly once, in order |
| CaptureProxy.AdvancesCompose | scripts/diagnose_pair_trade.py:378-404 | advancing by a and then by b is advancing by a + b |
| CaptureProxy.CaptureLinkProxy.constructor | scripts/diagnose_pair_trade.py:347-368 | frame zero is captured at once |
| CaptureProxy.CaptureLinkProxy.RunSegment | scripts/diagnose_pair_trade.py:394-403 | one operation of the link and the capture at its end advance as its frames taken one by one would |
| CaptureProxy.CaptureLinkProxy.Advance | scripts/diagnose_pair_trade.py:378-404 | a finished call advances exactly the requested frames in operations of at least one and at most the longest allowed, capturing as the frames taken one by one would; an early stop leaves everything up to the position done, save possibly the last capture |
| CaptureProxy.CaptureLinkProxy.MissedStaysMissed | scripts/diagnose_pair_trade.py:378-404 | a selected frame reached but not captured is not captured by any later advance, however that ends |
| CaptureProxy.NormaliseCaptureFrames | scripts/_diagnose_pair_trade_support.py:75-87 | refuses exactly on a negative number; else gives the non-zero requested frames, each once, in order |
| CaptureProxy.SelectFrames | scripts/diagnose_pair_trade.py:522-531 | the captured frames are zero and every frame asked for, each once and in order; refused exactly for a negative frame or more frames than allowed |
| CaptureProxy.CapturesWithinSelection | scripts/diagnose_pair_trade.py:522-531 | however often a proxy advances it never captures more frames than the run selected, and none twice |
| DigestLength.EncodeRoundTrip | scripts/_import_origin_attestations.py:253-259 | decoding the URL-safe text gives every byte string back (section 5 of RFC 4648) |
| DigestLength.UrlSafeText | scripts/_import_origin_attestations.py:253-259 | the URL-safe alphabet of section 5 of RFC 4648 on three bytes |
| DigestLength.KnownShortTexts | scripts/_import_origin_attestations.py:253-259 | the examples of section 10 of RFC 4648 for one and two bytes, unpadded |
| DigestLength.KnownText | scripts/_import_origin_attestations.py:253-259 | the example of section 10 of RFC 4648 for three bytes |
| DigestLength.EncodedShape | scripts/_import_origin_attestations.py:253-259 | the text of n bytes has its alphabet's characters only and the length four thirds of n asks for |
| DigestLength.DecodedLength | scripts/_import_origin_attestations.py:48-62 | three quarters of a body's length is the length of the bytes it decodes to |
| DigestLength.LengthExactly | scripts/_import_origin_attestations.py:44-62 | the computed length is n exactly for the bare or correctly padded bodies of at most 1024 characters that decode to n bytes |
| DigestLength.EncodedLengthRead | scripts/_import_origin_attestations.py:44-62 | the text of any non-empty byte string, padded or not, yields its length, and none once it is longer than 1024 characters |
| DigestLength.HonouredExactly | scripts/_import_origin_attestations.py:253-259 | a recorded extendable-output digest is honoured exactly when it is the unpadded text, within the bound, of some non-zero length of the file's own output |
| DigestLength.PaddedClaimNeverHonoured | scripts/_import_origin_attestations.py:44-62 | a padded claim passes the length check and is still never honoured, the recomputed text having no padding |
| RecordClaims.SplitLastExactly | scripts/_import_origin_attestations.py:110-111 | splitting from the right finds the separator whose tail holds none |
| RecordClaims.RowRoundTrip | scripts/_import_origin_attestations.py:101-128 | a written row reads back whatever commas its name and whatever padding its digest hold |
| RecordClaims.LowerChars | scripts/_import_origin_attestations.py:101-128 | lower-casing an algorithm name changes the 26 letters and nothing else |
| RecordClaims.ParsedRowIsText | scripts/_import_origin_attestations.py:101-139 | every row that makes a claim is the text of that claim |
| RecordClaims.CollectLines | scripts/_import_origin_attestations.py:101-153 | the lines of one record add exactly the claims they make, under its owner |
| RecordClaims.RecordAttestations | scripts/_import_origin_attestations.py:65-154 | the nested dictionary holds a claim under a path and an owner exactly when some readable record of that owner makes it; disagreeing claims stand side by side |
| CoverageResults.NoConflictNothingPartial | scripts/_coverage_report_model.py:119-131 | a document without conflicts and not itself partial holds no partial block and no partial tier anywhere its evidence is read from |
| CoverageResults.NoConflictOneCommit | scripts/_coverage_report_model.py:357-379 | a document without conflicts carries one commit at most, over document, blocks and outcomes |
| CoverageNames.SameNodeExactly | scripts/_coverage_report_schema.py:280-286 | two node ids are taken for one exactly when they agree from their first `::` on and their paths differ at most in slash direction and leading `./` |
| CoverageResults.LookupIn | scripts/_coverage_report_model.py:74-80 | finds exactly the outcomes of the runtime whose normalised node id is the target's |
| CoverageCollector.ResultSet.CollectCollections | scripts/_coverage_report_model.py:197-225 | adds exactly the collection evidence of the list and notes a failing one |
| CoverageCollector.ResultSet.CollectOutcomeRecords | scripts/_coverage_report_model.py:476-507 | appends one outcome per named record, partial when the record, its block or its runtime's block is |
| CoverageCollector.ResultSet.CollectTiers | scripts/_coverage_report_model.py:569-617 | appends the cases of every tier and the failure details nothing else reported, and notes a partial tier as a conflict |
| CoverageCollector.ResultSet.CollectOutcomes | scripts/_coverage_report_model.py:510-617 | appends everything one block reports, in order: records, tests, tiers |
| CoverageCollector.ResultSet.FinalizeIdentity | scripts/_coverage_report_model.py:357-379 | notes mixed commits and runs, a missing commit, and refuses the merge exactly when there is a conflict |
| CoverageCollector.RecordBlockConflicts | scripts/_coverage_report_model.py:337-354 | the block identities and the conflicts between them, with the partial mark per runtime |
| CoverageCollector.MarkBlocks | scripts/_coverage_report_model.py:251-283 | run ids, commits, fingerprints and partial marks of the blocks, gathered one by one |
| CoverageCollector.ResultSetFromDocument | scripts/_coverage_report_model.py:228-334 | the mutable result set ends as the normalisation function of the document, for all three document shapes |
| CoverageReport.EveryCaseReported | scripts/_coverage_report_build.py:593-641 | every required case is checked in every runtime it declares |
| CoverageReport.EvaluatedStatuses | scripts/_coverage_report_build.py:138-219 | a check ends as tested or with an incomplete status, never with anything else |
| CoverageReport.TestedStands | scripts/_coverage_report_build.py:138-219 | a tested check stands on one record: alone for its node id and runtime, accepted, not partial, collected, of the pinned build and a known commit, with every declared input and effect observed |
| CoverageReport.CompleteMeans | scripts/_coverage_report_build.py:466-670 | a COMPLETE report means that nothing in the document was partial and that every required case, in every mandatory runtime, stands on one accepted, non-partial, collected record of one and the same commit |
| CoverageMeaning.CompleteNothingPartial | scripts/_coverage_report_model.py:119-131 | behind a complete report no document, block or tier carries a partial mark or a status other than none, blank, PASS or passed |
| CoverageMeaning.AcceptedExactly | scripts/_coverage_report_build.py:77-98 | an outcome is accepted exactly when it is a pass the policy does not replace, or another word the policy lists |
| CoverageMeaning.OutcomeReported | scripts/_coverage_report_model.py:476-617 | every outcome of a runtime repeats an entry of the document that speaks for that runtime, its status, commit, effects and hashes as the entry shows them |
| CoverageMeaning.CompleteRestsOnEntries | scripts/_coverage_report_build.py:108-219 | behind a complete report every case rests, in each mandatory runtime, on an entry of the document for the same test, not partial, showing an accepted word, under the one commit, with every declared asset and effect |
| CoverageMeaning.CompleteNamesBuilds | scripts/_coverage_report_build.py:138-219 | behind a complete report every block of a mandatory runtime, and there is one, is of that runtime and of the build the policy names |
| CoverageMeaning.CompleteWasCollected | scripts/_coverage_report_build.py:108-135 | behind a complete report no collection failed and every case was collected in each mandatory runtime |
| CoverageMeaning.CompleteNamesOneCommit | scripts/_coverage_report_build.py:559-591 | behind a complete report no document, block or outcome names another commit |
| CoverageMeaning.CompleteWasAskedFor | scripts/_coverage_report_build.py:476-557 | a complete report has identified cases of known fixtures, roles and both runtimes, and exactly the expected pairing tests |
| CoverageMeaning.CompleteShowsFamilies | scripts/_coverage_report_build.py:232-358 | each effect family of a complete report is excluded or shown by mechanics cases that declare the effect, and one at least is shown |
| CoverageMeaning.LookupCounts | scripts/_coverage_report_model.py:74-80 | a lookup finds every matching outcome as often as it was collected |
| CoverageMeaning.BadDeclarationSays | scripts/_coverage_report_build.py:593-641 | one bad declaration of a case id makes every check of that id a catalog error, whatever was recorded |
| CoverageMeaning.RecordFailureSays | scripts/_coverage_report_build.py:138-165 | what a check says without results, without a record, with several, or with a partial or unaccepted one |
| CoverageMeaning.EvidenceFailureSays | scripts/_coverage_report_build.py:138-219 | what a check with one accepted record says about merge, build, commit, collection, assets and effect, in this order |
| CoverageMeaning.InputFailureSays | scripts/_coverage_report_build.py:404-463 | a wrong asset or effect is a mismatch and a missing one unidentified; so is a build that is another runtime's or not recorded |
| CoverageBuild.VerifiedMechanicsCaseIds | scripts/_coverage_report_build.py:232-260 | credits exactly the mechanics cases with a tested report in every mandatory runtime and no other report |
| CoverageBuild.GroupByCase | scripts/_coverage_report_build.py:244-254 | the runtimes present and the joint result of each mechanics case, gathered report by report |
| CoverageBuild.MechanicsStatus | scripts/_coverage_report_build.py:300-348 | the counters say complete exactly when the catalog is valid, some effect's first family is tested, and every effect's first family is tested or excluded |
| CoverageBuild.DimensionStatusOf | scripts/_coverage_report_build.py:349-358 | complete exactly when the dimension has reports and all are tested, missing exactly when it has none |
| CoverageBuild.SourceProblems | scripts/_coverage_report_build.py:559-591 | names a problem exactly when collections, partial marks, conflicts, commits or builds of the source stand against it |
| CoverageBuild.CatalogProblems | scripts/_coverage_report_build.py:476-557 | names a problem exactly when the catalog, its dimensions, runtimes, roles, fixtures or pairing selectors stand against it |
| CoverageBuild.CheckCases | scripts/_coverage_report_build.py:593-641 | the check reports are those of every case and runtime, and a late input or effect problem shows in some report's status |
| CoverageBuild.BuildReport | scripts/_coverage_report_build.py:466-670 | the step-by-step report says COMPLETE exactly when the declarative verdict does, with the check reports and both dimensions as specified |
| CoverageWitness.SmallDocumentComplete | scripts/_coverage_report_build.py:466-670 | a document with one passing entry per case and mandatory runtime under one commit is COMPLETE, whether its blocks report records, test rows or tier cases |

## Left out

- The emulator, the symbol tables, memory addressing, the bank and byte checks of ROM continuations, and hook registration: memory is an arbitrary byte-valued record chosen per event, and the move table is a sequence of rows.
- Thread ownership checks, event lists, `last_action`, `interaction_observation`, per-hook counters other than the two that gate the approach, and trade sequence numbers: they are diagnostics that no decision reads back, except that a trade driver's sequence numbers are kept as the flags they are used for.
- Error texts: every message is an enumerated fault or reason, without its interpolated values.
- JSON typing: a field is an optional value of its expected type, None where the source would find another type; a tier or test list that is not a list, and unhashable names, are not modelled. Statuses are compared as whole lower-case words.
- Hexadecimal text of party records: parties carry their bytes.
- The unknown checkpoint and non-object reports that both parents refuse at once: the checkpoint and the report are typed.
- Exceptions raised between two statements that do not themselves raise (memory errors, interrupts): only the failing operations of the source are modelled.
- The raise of `before_step`, `after_step` and `close` to their caller after an error: the owner's state is modelled, the caller is not.
- Floating point in throughput: rates are real numbers, so two arms tie exactly when their rates are equal.
- Digests are values of an uninterpreted function; only equality matters. Which hash algorithms exist and what their names mean is left out, and so are the CSV decoding of quoted names and the resolution of paths, which are parameters. Lower-casing covers ASCII letters.
- The file system, sockets, pipes, processes, signals and the shared cancellation flag: a failing write, flush, close, deadline or link call is a choice of the environment.
- The press-and-settle step of the route search, battles included, is a function from a position and a direction to a position; progress output and the farthest-position hint are left out.
- Catalog validation beyond the checks that name a case, its dimension, runtimes, fixture and selector, and the pinned tables of moves and effects: they enter as one flag each. The input-hash table of the gate's assets enters as the document's hashes.
- JUnit input, text and JSON rendering, command lines and the move-effect summary of the coverage report.
- Import-origin path checks and finders, walkthrough scripts, capacity gates and the menu probe: they rest on interpreter or game internals, or would only add easy members.
- CaptureProxy.CaptureLinkProxy.Advance: does not give the value of the last link call, which the proxy hands through unchanged.
- Checksum.RepairChecksums: does not model writing the output file or comparing its SHA-1.
- CoverageCollector.ResultSetFromDocument: keeps collections, conflicts and commits as sets, and collection errors as one flag, since the report asks only whether there are any.
- CoverageBuild.BuildReport: gives the verdict, the check reports and the two required dimensions; the statuses of further dimensions and the counters by status are not part of it, and of the problems listed only whether there are any.
- WorkerSelection.SelectPolicy: says when there is a reason and not how its text reads.
- BattleDriver.BattleOwnerDriver.Close: does not model which hooks could be removed, only whether removal failed.
