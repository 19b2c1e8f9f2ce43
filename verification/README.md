# Coaxial board and bootloader: a verified model

This project models the parts of the Coaxial 63100 firmware whose state is hardest to follow by
reading, and proves what they promise over whole runs:

- **The bootloader's core** (`Boot*.dfy`, `Bytes.dfy`, `Checksum.dfy`). An image streams into RAM in
  chunks of any order, its first word held back until a seal; a seal may keep a copy in flash behind
  a seal word programmed last; a gate runs at reset. The port is a memory of 32-byte words whose
  flash steps may fail and whose supply may be cut between any two steps.
- **The thrust allocator** (`Share*.dfy`, `Sums.dfy`). A box-constrained weighted least squares by an
  active set, with its own L D L^T, over arrays changed in place.
- **The gate stage** (`Gate*.dfy`). Host duties, the drive's ownership and an update interrupt share
  one set of preloaded compares, on the timer the native build runs: a repetition counter, shadow
  compares, edges.
- **The emulator's timer** (`Timer*.dfy`). A count worked out lazily, against one stepped tick by tick.
- **Rings, rails, calibration, memory** (`Ring*.dfy`, `Log*.dfy`, `Uart*.dfy`, `Rail*.dfy`,
  `Cal*.dfy`, `MemCore.dfy`). Rings under every interleaving, leases on a tick that wraps, a Q28
  table that mirrors its record, word-a-turn copies.

Each component has its steps as functions on a value of its state, the state machine they make, and
an object that changes that state in place, every method of which is proved to be its step; the
properties are proved of the machine, over every step and every run. Run `dafny verify
dfyconfig.toml` to check it all.

Where the code does not keep what it seems to promise, a lemma gives an input and another says
exactly when it does:

- A skew set between an overflow and its trigger, with the drive in direct mode, loses the triple
  that trigger hands in (`GateTrace.TripleLost`; exactly when, `GateTrace.TripleKept`).
- The stage takes an arm while the drive holds the compares, and writes zero into them: a direct
  triple is lost to one behind its trigger, a landed one is cut short by one anywhere in its period
  (`GateArm.ArmLost`; exactly when, `GateArm.ArmDirect`, `GateArm.ArmLanded`, and over whole runs
  `GateTrace.OneTrace`).
- A skew of zero, with which every op 9 begins, turns off the interrupt that a host's alternation and
  its counted hold live on: the alternation freezes on one triple (`GateReached.FrozenReached`), the
  hold never runs out (`GateReached.HoldFrozen`; exactly when, `GateTrains.HoldOutExactly`).
- The stage takes an arm under a host's alternation too: one before an overflow cuts that period's
  triple short, one between an overflow and its underflow leaves the next period neither triple
  (`GateReached.ArmedReached`; exactly which periods, `GateSwing.PeriodRuns`). A drive letting go
  under it, its flag left up, does both: zero, and the interrupt off (`GateReached.LetGoReached`).
  With the skew above these are all that breaks one that nothing ends (`GateSwing.AlternatesWhen`).
- A disarm and an arm between two triggers leave the drive's flag up over compares the stage has taken
  back (`GateWedge.WedgeReached`; exactly when, `GateWedge.HoldsWhile`), and what it hands in from
  there is never heard (`GateWedge.NeverHeard`).
- The dead-time refusal offers 535 ns; 535 is refused and 534 is the longest taken
  (`GateDead.LongestTaken`). A dead time set under a standing skew can leave the window
  (`GateReached.UnderSkewReached`; exactly when, `GateDead.DeadTimeUnderSkew`); the one run-time caller
  zeroes the skew first, and its requests never do (`GateDead.Op9Runs`).
- A go once taken stays up through a later erase (`BootLaws.StaleGo`; exactly when,
  `BootLaws.GoOutlived`), and a warm restart needs the header to name the offered size, which nothing
  before it asks (`BootMaster.WarmLost`; exactly when, `BootLaws.WarmRestart`).
- A lazy count started at or past its first flow reports an update at once, and stopping it drops an
  update flag not yet read (`TimerCore.StartCounts`, `TimerCore.Tim1.WriteCr1`).
- A calibrated reading falls somewhere for every gain that amplifies (`CalTable.AmplifyingWraps`;
  exactly when, `CalTable.RisesExactly`; reading by reading, `CalTable.AppliedWhen`).

## Model

| member | source | states |
|---|---|---|
| Checksum.Crc32 | boot/src/boot_core.c:731-742 | the loop over bytes and bits is the sum by definition, from any start value and over any bytes |
| Checksum.SumOfPieces | boot/src/boot_core.c:93-102 | the sum over two pieces one after the other is the sum over the whole, so word-by-word and two-piece sums agree |
| Checksum.SumInjective | boot/src/boot_core.c:731-742 | over the same bytes the sum never forgets its start value |
| Checksum.BurstDetected | boot/src/boot_core.c:731-742 | two images of one length that differ only inside four consecutive bytes never share a CRC-32 |
| Checksum.CheckValue | boot/src/boot_core.c:731-742 | the CRC-32 of the nine digits is CBF43926, the published check value |
| BootPort.Port.FlashErase | boot/src/boot_main.c:418-430 | ascending sector erases: all of the range's sectors on success; at every cut either nothing is gone or the first sector is |
| BootPort.Port.FlashProgram | boot/src/boot_main.c:468-503 | a word goes only onto flash that reads erased; one that does not, or that was asked for before since its sector's erase, whatever it reads, counts against the core; a failed word is as it was, written, or reads as zeros |
| BootPort.Port.Erase | boot/src/boot_main.c:530-538 | RAM erases whole words and never fails; flash by sectors |
| BootPort.Port.Program | boot/src/boot_main.c:540-548 | RAM takes any word, flash an erased one, nothing else any |
| BootCore.Boot.ImageCrc | boot/src/boot_core.c:93-102 | the sum in two pieces is the CRC of the completed image, the word kept back included |
| BootCore.Boot.StoreCrc | boot/src/boot_core.c:148-161 | the word loop's sum is the CRC of the store's bytes |
| BootCore.Boot.StoreSealed | boot/src/boot_core.c:165-182 | an image is named exactly when magic, type, size, shape and sum all hold of the bytes behind the seal |
| BootCore.Boot.ToRun | boot/src/boot_core.c:193-210 | RAM ends as the store's image word for word, flash untouched |
| BootCore.Boot.Persist | boot/src/boot_core.c:214-238 | took leaves the store whole with the image, or it already named its size and sum; every flash it passes through is the old store, an unsealed one, or the whole new one; no word asked for that is not erased or has been asked for since its erase |
| BootCore.Boot.RecordStands | boot/src/boot_core.c:253-266 | true exactly when the whole padded record stands in its sector |
| BootCore.Boot.ProgramRecord | boot/src/boot_core.c:494-511 | the record's sector erased and programmed, nothing outside it touched at any cut, each word asked for once |
| BootCore.Boot.EraseOp | boot/src/boot_core.c:339-379 | kept when held, copied when stored, else RAM erased and streaming begun; unheard offers change nothing |
| BootCore.Boot.ProgramChunk | boot/src/boot_core.c:383-406 | a chunk's words where they go but for the image's first, held back |
| BootCore.Boot.ChunkOp | boot/src/boot_core.c:408-437 | a chunk lands once; repeats and strays leave memory alone |
| BootCore.Boot.VerifyOp | boot/src/boot_core.c:450-466 | ok exactly when no chunk is missing and the image sums to the CRC offered |
| BootCore.Boot.SealOp | boot/src/boot_core.c:513-544 | record, first word, store, in that order; at every cut the flash is one a seal allows; no flash word asked for twice between two erases of its sector |
| BootCore.Boot.Ready | boot/src/boot_core.c:661-676 | the gate passes the handed image if held, else the store's if it can be copied and is held after |
| BootServe.Serve | boot/src/boot_core.c:615-636 | every op of the object is one step of the state machine the run theorems speak of, no flash word of it asked for twice without an erase between, every cut of a seal among the cuts the machine resets from |
| BootServe.ServeAll | boot/src/boot_core.c:615-636 | any run of requests, from whatever the last cut left and counting the words asked for before it, is a run of the machine over which no flash word is asked for unless erased, nor twice without an erase between |
| BootServe.Restart | boot/src/boot_core.c:661-676 | a reset on the flash as it stands is the machine's reset step and asks for no flash word |
| BootServe.Again | boot/src/boot_core.c:656-704 | a handover and a warm reset behind it: the slot carries the run image and the address, the reset is the machine's, and a sealed image whose header names its size is ready where it stands |
| BootRuns.StepKeeps | boot/src/boot_core.c:270-558 | verified means every chunk landed and the sum with the held-back word in place is the offered one; sealed means run size and sum name it; a streaming image's first word in RAM is erased |
| BootRuns.RunKeeps | boot/src/boot_core.c:270-558 | the same in every state of every run, resets and cuts included |
| BootStream.OfferBegins | boot/src/boot_core.c:325-379 | an accepted streaming erase starts with no chunk seen and RAM clear |
| BootStream.PlayStreams | boot/src/boot_core.c:408-437 | for any order, drops and repeats: held equals the distinct indices seen, the bitmap is theirs, the first arrival of each wins, unlanded room is still erased |
| BootStream.StreamDelivers | boot/src/boot_core.c:408-466 | once held is the chunk count RAM with the held-back word is the image, and verify says ok exactly when its CRC is the one offered |
| BootStream.SealDelivers | boot/src/boot_core.c:513-544 | a seal that took leaves RAM equal to the image byte for byte |
| BootStream.Delivers | boot/src/boot_core.c:325-544 | an erase taken that streams, any broadcasts of one image, a verify and a seal: verify is ok exactly when every chunk was heard and the image has the sum offered, and behind a seal that took RAM's prefix is the image |
| BootDelivery.StreamRuns | boot/src/boot_core.c:270-491 | from an erase that began a stream, over every run with any other ops between the chunks that does not end it: the chunks landed are the distinct ones heard, and once they are all RAM with the word held back is the image |
| BootDelivery.DeliversRun | boot/src/boot_core.c:408-544 | at any point of such a run verify is ok exactly when every chunk was heard, the sum is the one offered and no assign has taken the node back; and a seal that takes leaves the image in RAM byte for byte |
| BootDelivery.AssignEnds | boot/src/boot_core.c:299-321 | an assign to the node before it verified does end the stream: until an erase is heard or a reset no chunk lands, no memory moves, verify answers no |
| BootStore.ColdGate | boot/src/boot_core.c:656-676 | nothing handed over, the gate runs exactly what the flash says, whatever RAM held |
| BootStore.CutBoots | boot/src/boot_core.c:214-238 | cut between any two port steps of one seal, a cold boot finds the old image, the one being kept, or nothing; the store is unsealed, this seal's whole copy, or as it was |
| BootStore.RunSealed | boot/src/boot_core.c:165-238 | in every run, cuts anywhere, the seal word reads its magic only over the store the run began with untouched or over the whole image of the node whose persist wrote it, every chunk of it landed and its sum right when it did |
| BootStore.RunSums | boot/src/boot_core.c:165-238 | so a run begun unsealed never leaves a seal over bytes that do not sum to what it names |
| BootStore.StoredBoots | boot/src/boot_core.c:214-238 | a kept image boots cold byte for byte exactly when it passes the four tests and its header names its size |
| BootStore.KeptBoots | boot/src/boot_core.c:513-544 | after a seal with persist a cold boot runs the image, unless the store already named one of its size and sum |
| BootStore.RunBoots | boot/src/boot_core.c:165-238 | over any run with cuts anywhere, what boots cold at the end booted at the start or was verified by some node of the run |
| BootLaws.StreamingInvalid | boot/src/boot_core.c:104-129 | from a streaming erase to the seal RAM fails the four tests |
| BootLaws.SealedHolds | boot/src/boot_core.c:513-544 | a sealed node's RAM holds the image run_bytes and run_crc name |
| BootLaws.GoStarts | boot/src/boot_core.c:546-558 | a go with the session held on a sealed node puts the flag up exactly if RAM passes the tests, and RAM is then the verified image whole; any other go changes nothing |
| BootMaster.SessionGoes | boot/src/boot_core.c:270-281 | in every run a go that is up was taken on the way with the session of the last hold since the reset, on a sealed node whose RAM held a verified image, no reset behind it |
| BootMaster.RunObeys | boot/src/boot_core.c:270-321 | over every run the session is the last hold's and unit, position and flags those of the last assign to this board's own id in range, since the reset; the unit is 247 until then and 1 to 246 after; and the node is blank exactly until the first of either |
| BootMaster.WindowJump | boot/src/boot_main.c:733-737 | from a reset on, over every run, the node is blank if and only if no hold and no assign to its own id with a unit of 1 to 246 has come since its last reset: the window's jump is never open behind one, and with none it starts, where the gate found an image, that image whole, of its sum and past its tests |
| BootLaws.TestsAre | boot/src/boot_core.c:104-121 | the gate's tests on the image's bytes: stack pointer, odd reset vector inside RAM, magic, kind, size past the header; each a reason to refuse |
| BootPlain.OfferTaken | boot/src/boot_core.c:339-379 | an erase is heard exactly by an assigned node, for its kind, of a size RAM holds in as many chunks as that takes, and unheard changes nothing; heard, the image is held and verified if and only if it stands in RAM or a seal vouches for it, and then all of it is in RAM, else streaming with nothing landed |
| BootPlain.ChunkTaken | boot/src/boot_core.c:408-437 | a chunk of another length, place or time changes nothing but the count of those; one that has landed changes nothing; each place lands once |
| BootPlain.BitPlace | boot/src/boot_core.c:408-437 | a chunk's bit is bit index mod 8 of byte index / 8 of the bitmap |
| BootPlain.RecordTells | boot/src/boot_core.c:468-491 | a piece of the record is taken by an assigned node exactly if it ends within 2048 bytes, then lies in its place with the rest as it was and the record as long as the furthest piece; refused it changes nothing |
| BootPlain.VerifyTells | boot/src/boot_core.c:450-466 | a verify with a chunk missing is no, sum nought, and changes nothing; else it answers with the image's sum, yes exactly if that is the one offered, and only a yes moves the state |
| BootPlain.SealStores | boot/src/boot_core.c:513-544 | a seal that took keeps a copy exactly when its lowest flag bit asks for one the store does not already name, and then the image's bytes are the store's; else the store is left alone |
| BootPlain.SealAgain | boot/src/boot_core.c:513-544 | what a seal left is left alone by the next: no word of flash is written for a record in its sector or a copy kept |
| BootPlain.NamesWhat | boot/src/boot_core.c:165-182 | the store names an image if and only if the seal's bytes read its magic, this kind, a size and the sum of the bytes behind it, and those pass the tests |
| BootPlain.ColdRuns | boot/src/boot_core.c:656-676 | power applied and nobody calling, an image runs if and only if its seal vouches for it, it is at least 0x410 bytes, and its header names the seal's size; and it is those bytes |
| BootMaster.RecordLast | boot/src/boot_core.c:468-491 | over every run a byte of the record is what the last record op taken over it wrote, and it is in the record while no erase has been heard since |
| BootMaster.RecordSealed | boot/src/boot_core.c:494-544 | a seal that took leaves the record byte for byte in its sector, a persist after it included |
| BootMaster.UnitSurvives | boot/src/boot_core.c:684-704 | an address once assigned is handed on by every restart no master calls in on, however many; with none ever it is unit 0 |
| BootLaws.TimeoutStarts | boot/src/boot_main.c:715-738 | the timeout's jump starts the image the gate verified, its header naming its size |
| BootLaws.UnassignedKeeps | boot/src/boot_core.c:339-350 | until a unit is assigned no op writes RAM or flash |
| BootLaws.WarmRestart | boot/src/boot_core.c:661-704 | the gate passes a sealed image on after a warm restart if and only if its header names the size the erase offered, which sealing never asks |
| BootMaster.WarmLost | boot/src/boot_core.c:546-704 | from power up, a run in which an image whose header names another size is streamed, verified, sealed and started, and refused at the warm restart behind it |
| BootLaws.GoOutlived | boot/src/boot_core.c:546-558 | the go flag outlives every op; the image it was taken for stands exactly until a streaming erase |
| BootLaws.StaleGo | boot/src/boot_core.c:325-337 | and such an erase leaves the flag up over an invalid RAM |
| BootMaster.StaleReached | boot/src/boot_core.c:325-337 | from power up, a run to a flag still up over a RAM that fails the tests |
| ShareSolve.SolutionSolves | aero/src/aero_share.c:77-130 | with no pivot clamped the L D L^T solution satisfies the equations exactly, row by row |
| ShareSolve.OpenSolves | aero/src/aero_share.c:77-130 | the masked solve meets the original rows of the open rotors with the held ones at zero |
| ShareSolve.HeldStill | aero/src/aero_share.c:77-130 | a held rotor does not move |
| ShareSolve.NoStep | aero/src/aero_share.c:77-130 | no slope, no step, clamped or not |
| ShareCore.SlopeInto | aero/src/aero_share.c:58-68 | the loops compute g - H f |
| ShareCore.FactorInto | aero/src/aero_share.c:94-113 | the in-place factor is the recursive definition's, entry by entry, rows not yet made read as zero |
| ShareCore.SolveInto | aero/src/aero_share.c:77-130 | masking, factoring and both substitutions in place give the solution by definition |
| ShareCore.AlphaInto | aero/src/aero_share.c:178-186 | reaches and the step's length as defined |
| ShareCore.StepInto | aero/src/aero_share.c:187-197 | the thrusts moved, those at their end held there |
| ShareCore.ReleaseInto | aero/src/aero_share.c:199-211 | nothing having stopped the step, the held rotors with the steepest slope inward are freed |
| ShareCore.PassInto | aero/src/aero_share.c:170-212 | one pass over the arrays is one Pass of the active set |
| ShareCore.Lay | aero/src/aero_share.c:141-169 | the curvature is the weighted rows' Gram matrix and the pull their product with the wanted wrench |
| ShareCore.Share | aero/src/aero_share.c:132-220 | the active set's own thrusts after eight passes from the middle, inside every rotor's range whatever is asked, and the ends reported exactly |
| ShareCore.PassesKeep | aero/src/aero_share.c:170-212 | every pass keeps low <= f <= high and every held rotor at its end |
| ShareCore.ShareGives | aero/src/aero_share.c:132-220 | unclamped, the cost after the eight never ends above the middle's, and a pass that settled among them leaves no point of the box better by more than the slack |
| ShareSettle.ShareBest | aero/src/aero_share.c:132-220 | over a frame that tells its rotors apart: if what was let go costs no more passes than the rotors with room leave of the eight, the eight passes' thrusts lie in the ranges, miss the wanted wrench by no more than the middle does, and no thrusts in the ranges miss it by less, but for the tolerance a newton moved; wrench, ranges, middle and tolerance written out |
| ShareSettle.FirstFive | aero/src/aero_share.c:170-212 | with no rotor let go on the way one of the first five passes settles |
| ShareSettle.Settles | aero/src/aero_share.c:170-212 | among any number of passes greater than the rotors open at the start and the debt of those let go, one settles |
| ShareSettle.StopHolds | aero/src/aero_share.c:187-197 | a pass that stops short holds at least one open rotor more and lets none go |
| ShareSettle.WhoGoes | aero/src/aero_share.c:199-211 | a rotor is let go if and only if nothing stopped the step, it was held, the slope pulls it inward at least as hard as asked, and no held rotor harder |
| ShareSettle.CostIsMissed | aero/src/aero_share.c:132-169 | the cost is half the weighed squares of what lift and the three turns miss the wanted wrench by |
| SharePosed.NeverClamped | aero/src/aero_share.c:94-103 | with rows that take no thrusts to next to nothing no pivot of any pass is clamped, whichever rotors it holds |
| SharePosed.FormPivot | aero/src/aero_share.c:94-113 | each pivot behind unclamped ones is the quadratic form of a vector that ends in one |
| SharePass.AlphaBounds | aero/src/aero_share.c:178-186 | the step is at most every rotor's reach and at most one |
| SharePass.PassKeeps | aero/src/aero_share.c:170-212 | a pass keeps every thrust in its reach |
| SharePass.PassDescends | aero/src/aero_share.c:170-212 | an unclamped pass never raises the weighted cost |
| SharePass.SettledStays | aero/src/aero_share.c:170-212 | a pass that stops at no end and lets no rotor go leaves every later pass nothing to change |
| SharePass.SettledFor | aero/src/aero_share.c:170-212 | and so for any number more |
| SharePass.SettledBest | aero/src/aero_share.c:170-212 | and its thrusts cost at most any point of the box plus near times the distance to it |
| GateCore.Gate.Disable | board/src/board_pwm.c:136-160 | off whatever the state: not enabled, compares and duties zero, no train, no interrupt, the drive not holding them; both invariants kept |
| GateCore.Gate.Enable | board/src/board_pwm.c:257-282 | refused if and only if a break is latched and not bypassed, then nothing changes; else on, compares zero, the bridge following them |
| GateCore.Gate.SetAllFine | board/src/board_pwm.c:336-381 | taken exactly when a host may write and all three fit; the request kept with no residue, the interrupt on, every other train stopped, the compares as they were; refused nothing changes |
| GateCore.Gate.SetAll | board/src/board_pwm.c:395-443 | taken exactly when a host may write and all three fit; the compares and the duties are then those, every train is stopped, and the interrupt is on if and only if a skew stands; refused nothing changes |
| GateCore.Gate.SetAllCounted | board/src/board_pwm.c:445-461 | taken exactly when a host may write and all three fit; N periods then leave 2N interrupts, or 2N - 1 from the second half; refused nothing changes |
| GateCore.Gate.SetAlternate | board/src/board_pwm.c:468-514 | taken exactly when a host may write and both triples fit; the first is then the one written, the second the one to come; refused nothing changes |
| GateCore.Gate.SetDeadTime | board/src/board_pwm.c:713-753 | taken it reads back no shorter than asked and is the least count that does; refused nothing changes and no count that long fits beside the skew |
| GateCore.Gate.SetDeadTimeSkew | board/src/board_pwm.c:756-798 | taken exactly when both halves fit the window, which it keeps; the skew with its sign is then the one asked for, the interrupt on for one and DTG the dead time for none; refused nothing changes; the ownership invariant kept |
| GateCore.Gate.DriveOwn | board/src/board_pwm.c:516-552 | taking: the drive holds, every host train is off, the compares as they were; letting go: the bridge open, outputs off, compares zero, nobody's |
| GateCore.Gate.SetNext | board/src/board_pwm.c:554-585 | each leg held to the period; straight into compares and duties when direct, waiting with both as they were when not; the bridge following once a triple of the drive's has landed |
| GateCore.Gate.Dither | board/src/board_pwm.c:289-317 | of each phase the whole ticks written and the carry come to the request and the carry before, the carry under a tick, short of it only at the period; nothing moves with no dither |
| GateCore.Gate.OnUpdate | board/src/board_pwm.c:877-930 | what is in force stands and the half turns; a hold's last interrupt leaves zero and no train; the drive's waiting triple lands past an underflow; both invariants kept |
| GateCore.Gate.OnSample | board/src/board_drive.c:415-508 | a trip leaves the stage off; a triple on an enabled stage leaves the flag up and the triple, held to the period, in the compares or waiting; anything else lets go if the flag was up; the invariant kept |
| GateCore.Gate.Edge | board/native/native.c:370-390 | the compares come in force exactly when the repetition counter is out, and the half turns exactly when the interrupt is on too; both invariants kept |
| GateCore.Gate.Serve | board/src/board_pwm.c:136-930 | any event by the method that serves it is one step of the state machine |
| GateOwner.StepKeeps | board/src/board_pwm.c:67-96 | drive_owns implies the glue's flag, no dither, no alternation, no countdown; direct implies drive_owns, no skew, RCR 1, interrupt off; not direct implies RCR 0; a landing drive has the interrupt |
| GateOwner.InitialInv | board/src/board_pwm.c:660-711 | and so at the start |
| GateTrace.RunKeeps | board/src/board_pwm.c:516-585 | and in every state of every run of host, drive, break and timer steps |
| GateTrace.OnePeriod | board/src/board_pwm.c:842-873 | over a driven period with any host call but a disarm in it, arms included: what is in force at each point of it, and what the compares are left with |
| GateTrace.TripleWhole | board/src/board_pwm.c:257-282 | the triple in the compares is in force from its overflow to the next if and only if no arm is taken before that overflow nor, landed, at all in the period, or it is zero |
| GateTrace.OneTrace | board/src/board_pwm.c:554-585 | over any run of driven periods, skews and arms anywhere: every triple is whole and the next one stands behind it if and only if every period is sound; then, whichever the mode, the triple handed in after overflow k is in force exactly from overflow k+1 to k+2 |
| GateTrace.LegShown | board/src/board_pwm.c:567-585 | leg by leg, each period of a sound run shows what the drive asked for in the one before, whole where it fits the period it came with and that period's end where it does not |
| GateTrace.ModesAgree | board/src/board_pwm.c:554-585 | two sound runs handed the same triples show the same trace, one direct and one landed |
| GateTrace.TakingLands | board/src/board_pwm.c:516-533 | the first triple after taking the compares lands at the underflow behind it, arms between or not |
| GateTrace.TraceFromTaking | board/src/board_pwm.c:516-585 | so from the taking on: over sound periods the first triple is in force over the first of them and each one handed in over the next |
| GateTrace.DirectSurvives | board/src/board_pwm.c:756-798 | direct mode outlives host calls exactly when none of them sets a skew |
| GateTrace.TripleKept | board/src/board_pwm.c:773-789 | a triple replaces the one before it if and only if it is not the case that the drive was direct at the overflow and a skew was set before the trigger or an arm taken after it, or it equals what is left there |
| GateArm.ArmDirect | board/src/board_pwm.c:257-282 | the drive direct: a triple is whole exactly when no arm comes before its overflow, and the one handed in takes its place exactly when none comes behind its trigger |
| GateArm.ArmLanded | board/src/board_pwm.c:257-282 | the drive landing: the one handed in always takes its place, and the one in the compares is whole exactly when no arm comes in its period |
| GateArm.ArmLoses | board/src/board_pwm.c:257-282 | from any direct, enabled, unlatched stage one arm behind a trigger puts zero in force at the next overflow, the drive still holding |
| GateArm.ArmLost | board/src/board_pwm.c:257-282 | the same from the start |
| GateTrace.SkewSwallows | board/src/board_pwm.c:773-789 | with the drive direct any skew set between an overflow and its trigger loses that trigger's triple |
| GateTrace.DirectReached | board/src/board_pwm.c:860-873 | the drive is direct four steps from the start |
| GateTrace.TripleLost | board/src/board_pwm.c:773-789 | a reachable run in which the triple handed in is never in force |
| GateReturn.WatchKeeps | board/src/board_pwm.c:534-566 | what waits to land, and what has landed behind an open bridge, is the drive's own |
| GateReturn.OutputsReturn | board/src/board_pwm.c:558-566 | behind an open bridge the outputs come back for an arm, a host duty, or with a triple the drive handed in since it took the compares already in force |
| GateReturn.OutputsReturnRun | board/src/board_pwm.c:558-566 | the same at every step of every run from the start |
| GateWedge.HoldsWhile | board/src/board_drive.c:379-387 | from the drive holding the compares, while it goes on handing triples in its flag stays up, and it holds them if and only if no disarm has come |
| GateWedge.TakesBack | board/src/board_drive.c:379-387 | at the next armed trigger it holds them if and only if no disarm has come since it took them |
| GateWedge.WedgedRun | board/src/board_drive.c:379-387 | the flag up and the compares lost, no run of triggers that hand triples in gets them back |
| GateWedge.NeverHeard | board/src/board_drive.c:379-462 | there, two runs alike but for the triples handed in leave every register, compare and flag the same: nothing handed in reaches a compare |
| GateWedge.WedgeReached | board/src/board_drive.c:379-387 | five steps from the start: an arm, an overflow, a triple, a disarm, an arm |
| GateTrains.CountedStarts | board/src/board_pwm.c:445-461 | N periods leave 2N update interrupts, or 2N - 1 from the second half |
| GateTrains.HoldRuns | board/src/board_pwm.c:807-837 | arms, let-gos and skews under it or not: a hold runs down one an interrupt and out on its last, never another; until then its compares are its own or the zero an arm or a let-go wrote, and after it every compare is zero and none is written until a new request |
| GateTrains.HoldEnds | board/src/board_pwm.c:807-837 | with nothing turning the interrupt off it runs out within its interrupts' edges and one |
| GateTrains.HoldOutExactly | board/src/board_pwm.c:807-837 | it runs out if and only if as many edges of its own have come as it has interrupts left: those past the repetition counter and not behind what last turned the interrupt off, an accepted skew of zero or a let-go without a skew; an arm changes nothing it counts |
| GateTrains.StallStops | board/src/board_pwm.c:788-796 | a skew of zero asked for during a hold, or a let-go without a skew, turns its interrupt off |
| GateTrains.StalledHold | board/src/board_pwm.c:788-796 | and then it never runs out until a skew is set or a new request comes |
| GateReached.HoldFrozen | board/src/board_pwm.c:788-796 | from the start, the same hold with one such skew and without: over in a period more, or standing for ever |
| GateSwing.AlternateStarts | board/src/board_pwm.c:468-514 | an accepted pair of triples starts alternating, the first written, the interrupt on, whether the drive's flag is up or not |
| GateSwing.SettleRun | board/src/board_pwm.c:896-910 | by the second underflow the train is in step with the timer, whatever arms, let-gos and skews come on the way |
| GateSwing.SwingRun | board/src/board_pwm.c:896-910 | in step, over every run that does not end the train, what is in force is one of the two triples, or zero where it was loaded behind an arm or a let-go; and it changes exactly at the underflows behind an overflow that found the interrupt on |
| GateSwing.SwingsWhen | board/src/board_pwm.c:257-282 | what each edge shows is the two triples turn about, each its whole period, if every edge finds the compares not zeroed since they were written and every underflow an overflow that found the interrupt on; with the two apart and neither zero, only if |
| GateSwing.PeriodRuns | board/src/board_pwm.c:257-282 | one period runs its triple all through if and only if no arm taken or let-go falls in it before its overflow nor between the overflow that last wrote the compares and its underflow, or the triple is zero |
| GateSwing.AlternatesWhen | board/src/board_pwm.c:468-514 | from the request on: by the second underflow in step, and from there the two triples turn about, each its whole period, if - the two apart and neither zero, only if - no edge comes behind an arm or a let-go no write has followed and none of the overflows behind what last turned the interrupt off |
| GateSwing.FrozenRun | board/src/board_pwm.c:788-796 | the interrupt off, one triple stays in force until another skew is set, or zero past the first edge behind an arm or a let-go |
| GateReached.FrozenReached | board/src/board_pwm.c:756-798 | from the start: any number of periods turn about, and with one skew of zero on the way all run the same triple |
| GateReached.ArmedReached | board/src/board_pwm.c:257-282 | from the start: an arm before an overflow cuts the period's triple short with zero, one between an overflow and its underflow leaves the next period neither triple |
| GateReached.LetGoReached | board/src/board_pwm.c:530-552 | from the start: a drive whose flag outlived its compares lets go under a host's alternation, and zero is in force for every period after |
| GateSwing.DitherPhase | board/src/board_pwm.c:297-312 | one step's whole ticks and carry account for the request, the carry stays under a tick, the clip at ARR is not taken where the request fits it |
| GateSwing.DitherConserves | board/src/board_pwm.c:289-317 | over n steps, arms and let-gos between them or not, 65536 times the compares written plus the residue is n times the request if and only if no step is clipped, and none is while ARR has room for the request; the residue under 65536, one step every second interrupt |
| GateSwing.DitherAccounts | board/src/board_pwm.c:289-317 | with the ticks the clip took counted in, it is that always |
| GateSwing.FineStarts | board/src/board_pwm.c:336-381 | an accepted fine duty starts a dither whose request ARR has room for |
| GateSkew.SkewStands | board/src/board_pwm.c:773-789 | from a duty taken while a skew stands, or a skew taken, over every run that takes neither stage nor skew away: the interrupt stays on, every edge past the repetition counter turns the half, and DTG is the dead time with the skew in one half and against it in the other |
| GateSkew.SkewRuns | board/src/board_pwm.c:921-929 | the same from any stage with the interrupt on under a skew, dead times set on the way or not |
| GateBreak.OnRuns | board/src/board_pwm.c:257-282 | over every run the stage is on exactly as the arms taken, the disarms, the trips and the breaks leave it, and the latch as the breaks, clears and bypasses do |
| GateBreak.StartShows | board/src/board_pwm.c:660-711 | the board starts off, unlatched, its break watched |
| GateBreak.BreakShuts | board/native/native.c:225-236 | a break watched shuts the stage, and no run opens it again without both the latch taken away and an arm behind it |
| GateDuty.DutyRuns | board/src/board_pwm.c:587-602 | from the start over every run the duty the board reports is the one in the compares |
| GateDead.DeadTimeTaken | board/src/board_pwm.c:713-753 | a dead time taken is the least count at or above the floor and the request, and reads back no shorter than asked |
| GateDead.LongestTaken | board/src/board_pwm.c:740-745 | unskewed, taken if and only if 534 ns or less: the refusal's own text offers 535, which is refused |
| GateDead.DeadTimeUnderSkew | board/src/board_pwm.c:740-750 | under a standing skew the window is kept if and only if the shorter half clears the floor, which the call does not check |
| GateReached.UnderSkewReached | board/src/board_pwm.c:740-750 | from the start, a skew and then a dead time, both taken, put a dead time under the floor in DTG three edges on |
| GateDead.SkewHalves | board/src/board_pwm.c:921-929 | a skewed period's two halves come to twice the dead time asked for, the longer where the skew's sign says |
| GateDead.WindowStep | board/src/board_pwm.c:921-929 | with the callers' order every step leaves DTG between 5 counts and 127, both skewed halves included |
| GateDead.StartsInWindow | board/src/board_pwm.c:702-704 | the dead time the timer starts with is inside the window |
| GateDead.WindowRun | board/src/board_pwm.c:713-798 | and so over every run |
| GateDead.Op9Keeps | comms/src/cmd_gate_drivers.c:254-280 | the whole request, whatever runs between its calls: taken exactly when both halves fit and then read back, refused it leaves no skew |
| GateDead.Op9Runs | comms/src/cmd_gate_drivers.c:254-280 | from the start, behind the board's own two calls at boot with whatever the record holds, over any sequence of such requests with anything else between their calls, every DTG on the way and both skewed halves lie between 5 counts, the least that last 20 ns, and 127 |
| TimerClosed.ClosedIsTicked | board/emu/Coaxial63100_TIM1.cs:189-236 | counter, direction, flows and updates in closed form are those of a counter stepped tick by tick with its repetition counter out at the start, centred and edge-aligned |
| TimerClosed.NextIsNext | board/emu/Coaxial63100_TIM1.cs:244-263 | the alarm's time is the least at which the update events grow, and they grow by one |
| TimerClosed.NextRepeats | board/emu/Coaxial63100_TIM1.cs:244-263 | from one update event the next is a whole alarm period on |
| TimerClosed.UpdatesPast | board/emu/Coaxial63100_TIM1.cs:219-236 | the first flow is an update event, then every so many repetitions' flows, in ticks |
| TimerCore.ReadsAsTicked | board/emu/Coaxial63100_TIM1.cs:66-79 | a running timer's CNT, direction, flows and updates read at any tick are those of a counter stepped since its start that turns at ARR, or wraps past it, with RCR + 1 flows to an update event |
| TimerCore.RegistersCount | board/emu/Coaxial63100_TIM1.cs:178-236 | by the registers: centred, a flow every ARR ticks and the count up to ARR and down in turn, edge-aligned one every ARR + 1 and from zero again; and RCR + 1 flows exactly from one update event to the next |
| TimerCore.StartCounts | board/emu/Coaxial63100_TIM1.cs:211-242 | a count started at cnt has an update event behind it if and only if cnt is at or past the first flow |
| TimerCore.NextAhead | board/emu/Coaxial63100_TIM1.cs:244-263 | a tick on, the alarm is a tick nearer or a whole period off |
| TimerCore.Tim1.WriteCr1 | board/emu/Coaxial63100_TIM1.cs:85-97 | a start counts on from the frozen count and finds UIF up exactly at or past the first flow; a stop keeps the count and drops an update flag not yet read |
| TimerCore.Tim1.ClearUif | board/emu/Coaxial63100_TIM1.cs:98-106 | UIF clears and stays down until the next update event |
| TimerCore.Tim1.Generate | board/emu/Coaxial63100_TIM1.cs:107-116 | UG counts from zero and flags unless told not to |
| TimerCore.Tim1.WriteCnt | board/emu/Coaxial63100_TIM1.cs:117-126 | a running count restarts from the value |
| TimerCore.Tim1.WriteArr | board/emu/Coaxial63100_TIM1.cs:127-132 | the position stands and the flows are then the ARR written's, the alarm is set anew; what was cleared may be more than has come |
| TimerCore.Tim1.WriteDier | board/emu/Coaxial63100_TIM1.cs:133-149 | the flag and the count stand; the alarm runs and the line goes up exactly as the enable now says |
| TimerCore.Tim1.WriteRcr | board/emu/Coaxial63100_TIM1.cs:127-149 | the position and the flows stand, the update events are then one for every RCR + 1 of them, the alarm is set anew; what was cleared may be more than has come |
| TimerCore.Tim1.Schedule | board/emu/Coaxial63100_TIM1.cs:244-263 | the alarm runs exactly while counting with the interrupt enabled, set for the next update |
| TimerCore.Tim1.Tick | board/emu/Coaxial63100_TIM1.cs:265-275 | update events grow exactly when the alarm goes off, and the line keeps saying what the flag says |
| Ring.CountIs | board/src/board_log.c:102-109 | the indices give the fill, one slot stays free |
| Ring.PutHeld | board/src/board_log.c:87-98 | a record goes behind what is held or nothing changes |
| Ring.PutLeaves | board/src/board_log.c:87-98 | the slot the reader stands on is never written while a record is held |
| Ring.AdvanceHeld | board/src/board_log.c:133-138 | the tail stands on the oldest and passing it leaves the rest |
| Ring.SkipHeld | comms/src/dev_uart.c:177-191 | a tail set to a head seen earlier keeps what came since |
| LogRing.EnableKeeps | board/src/board_log.c:28-48 | enabling from any state starts the account anew |
| LogRing.StepKeeps | board/src/board_log.c:55-140 | every interleaving of pushes, copies and steps: read plus held is what found room, in order; serials number each source's pushes |
| LogRing.RunKeeps | board/src/board_log.c:55-140 | and so over every run |
| LogRing.AccountCloses | board/src/board_log.c:55-140 | accepted is taken plus held, what was taken is in order, every push is accepted or counted dropped |
| LogRing.GapsAreDrops | board/src/board_log.c:74-98 | between two records of a source the serial gap is one more than its drops between them, mod 256 |
| UartRing.EveryStep | comms/src/dev_uart.c:58-83 | under every interleaving, purges included, bytes go by in order, none overwritten or twice |
| UartRing.PurgeKeeps | comms/src/dev_uart.c:177-191 | a purge passes exactly what was held when it read the head |
| UartRing.StartsEmpty | comms/src/dev_uart.c:23-46 | a port just opened is empty and its account balanced, whatever its slots hold |
| UartRing.RunAccounts | comms/src/dev_uart.c:58-191 | accepted is read plus purged plus held over every run, and drops are the rest |
| RingCore.SampleLog.Push | board/src/board_log.c:55-100 | a push run through: refused unless its source's bit is set; thinned if and only if a gap is set and fewer cycles have passed since its source's last; else, with room, the newest record held is that source's and time's with each reading in its place and zero beyond, and without counted dropped |
| LogEvents.EveryPush | board/src/board_log.c:28-100 | over every run, from the calls alone: a push is let in exactly when its source is asked for and the gap has passed since its last, each source's records are its pushes' one for one in order with their own readings, times and numbers, and those thinned are counted |
| LogEvents.TakenCarry | board/src/board_log.c:121-140 | every record read carries source, time and readings of a push of its source, a later one a later push's; the serial says which, mod 256 |
| LogEvents.SpacedOut | board/src/board_log.c:63-71 | two pushes of one source let in one after the other are at least the gap apart, round 2^32 |
| UartQueue.RingIsQueue | comms/src/dev_uart.c:58-191 | over every interleaving of the interrupt, the reader and a purge the ring is a queue of at most 255 bytes: what waits, what has gone by in order and what was lost, by the arrivals alone |
| UartQueue.OpenedStands | comms/src/dev_uart.c:23-46 | a port just opened is the empty queue, whatever its slots hold |
| RingCore.SampleLog.Take | board/src/board_log.c:121-140 | the oldest up to as many as asked, in order, the rest left |
| RingCore.SampleLog.Enable | board/src/board_log.c:28-48 | emptied, every counter from zero, every source's first push free |
| RingCore.SampleLog.Fill | board/src/board_log.c:102-109 | the fill is the number of records held |
| RingCore.Port.RingPush | comms/src/dev_uart.c:58-70 | behind the rest, or dropped and counted with the rest as it was |
| RingCore.Port.RingPop | comms/src/dev_uart.c:73-83 | the oldest or none |
| RingCore.Port.Purge | comms/src/dev_uart.c:177-191 | nothing held after |
| RailState.StepKeeps | board/src/board_power.c:47-208 | the pin is on exactly when somebody holds the rail; a non-host hold is held exactly while its expiry stands; the host's never expires |
| RailState.RunKeeps | board/src/board_power.c:47-208 | over every run with polls at most half the tick's range apart |
| RailState.InitialInv | board/src/board_power.c:10-14 | and so at the start |
| RailState.PollEnds | board/src/board_power.c:170-187 | each lease ends at the first poll at or past its true end and never before, round the tick's wrap |
| RailState.LeaseRun | board/src/board_power.c:170-187 | a lease left alone is held over any run exactly until such a poll |
| RailState.CollectedWhen | board/src/board_power.c:176-183 | a poll collects a lease exactly when it is less than half a turn past its end |
| RailState.LatePollMisses | board/src/board_power.c:176-183 | a poll half a turn late finds the lease not yet due |
| RailState.PollHost | board/src/board_power.c:135-167 | the host's hold and the stage go at the first poll with the host unheard for more than ten seconds, once |
| RailState.NoSurge | board/src/board_power.c:34-77 | the rail never goes from off to on while the stage is enabled |
| RailState.EndIs | board/src/board_power.c:65-74 | a lease's tick is never the never-expires sentinel |
| RailLedger.TickIsTime | board/src/board_power.c:47-208 | over every run of timely polls the rail on the 32-bit tick is the rail in real time: a holder may always renew and a new hold is refused exactly under an enabled stage, each lease ends at the first poll three seconds on, the host's hold and the stage go at the first past ten seconds' silence, once, and the pin is on exactly while somebody holds it |
| RailLedger.InitialAgrees | board/src/board_power.c:10-14 | and they agree at the start, nobody holding it |
| RailCore.Power.Acquire | board/src/board_power.c:47-77 | taken if and only if rail and user exist and the user already holds it or the stage is off; then held with the pin on and its lease three seconds on, never the host's; refused nothing changes |
| RailCore.Power.Release | board/src/board_power.c:79-90 | the hold gone, true when the rail is off |
| RailCore.Power.ReleaseAll | board/src/board_power.c:197-208 | nobody holds it and nothing is leased |
| RailCore.Power.DropHostClaims | board/src/board_power.c:135-167 | the host quiet for long enough, and only then, its hold and its stage go, once; every other hold and lease stands and the pin still says whether anyone holds it |
| RailCore.Power.ExpireLeases | board/src/board_power.c:170-187 | the loop is the leases past their expiry let go in turn |
| CalTable.GainNear | board/src/board_cal.c:50-62 | an accepted gain under the ceiling is laid within one part in 2^28, toward no trim, and stays a positive factor |
| CalTable.ExactWithin | board/src/board_cal.c:490-497 | an unsaturated reading is within half a count and the size of raw - offset / 2^28 of exact arithmetic |
| CalTable.AppliedWhen | board/src/board_cal.c:490-497 | with the difference in 32 bits the reading is the exact one if and only if that fits 32 bits |
| CalTable.Identity | board/src/board_cal.c:490-497 | no trim, or an unknown index, leaves every reading as it is |
| CalTable.AppliedMonotone | board/src/board_cal.c:457-497 | for every accepted gain the reading rises with raw wherever neither difference nor result leaves 32 bits |
| CalTable.RisesExactly | board/src/board_cal.c:457-497 | for every accepted trim the reading rises with raw over all raws if and only if the gain does not amplify |
| CalTable.AttenuatingFits | board/src/board_cal.c:490-497 | a gain that does not amplify never leaves them |
| CalTable.AmplifyingWraps | board/src/board_cal.c:490-497 | an instance: at a gain of seven a larger raw reads negative, a smaller one positive |
| CalCore.Calibration.Lay | board/src/board_cal.c:50-62 | the table mirrors the record |
| CalCore.Calibration.SetChannel | board/src/board_cal.c:457-475 | one channel set or refused, the mirror kept, the others unchanged |
| CalCore.Calibration.Take | board/src/board_cal.c:186-206 | a usable record replaces the channels and the table follows; an unusable one changes nothing |
| CalCore.Calibration.Init | board/src/board_cal.c:208-219 | the record's channels where it is usable, no trim on any where it is not, the table following either way |
| CalCore.Calibration.Apply | board/src/board_cal.c:490-497 | a reading goes through the trim recorded for its channel |
| MemCore.Memcpy | board/src/board_mem.c:15-50 | every byte in place and nothing else touched, for every alignment, words only on word boundaries |
| MemCore.Memset | board/src/board_mem.c:52-79 | the bytes that value and nothing else touched |

## Left out

Modelling assumptions:

- Boot: a sector erase that fails has erased the whole sector or nothing; a torn sector is not modelled. A torn word reads as zeros, as the port's read gives it.
- Boot: no other event comes between a go and the jump twenty milliseconds of settling later, but for those `BootLaws.GoOutlived` speaks of; RAM steps never fail.
- Boot: "the image held" and "the image stored" are as the code has them, size and CRC; two images that share both are one to it. The cut theorems do not rest on the CRC.
- BootStream.PlayStreams: takes each chunk at the length the image has left for it. The op itself takes any length, as the code does: the comment on program_chunk says the last chunk is clipped to the size, the code programs what came, and a word past RAM's end is refused.
- Share: arithmetic is over the reals, so rounding, NaN and signed zeros are out; the mask helpers are Booleans. `ShareGives`, `PassDescends` and `SettledBest` suppose that no pivot is clamped to the least normal double, which `SharePosed.NeverClamped` shows of every frame that tells its rotors apart.
- ShareSettle.ShareBest: says nothing of a call whose releases use up its eight passes, for which the code promises a result in the ranges and no more, nor of a frame that cannot tell its rotors apart where a pivot is clamped on the way.
- Gate stage: each board call, interrupt and timer edge is one atomic step, so an interrupt that lands inside a call is not modelled; the update interrupt comes only at an edge, as the native timer runs it, so a flag left pending when the interrupt is turned on waits for the next edge.
- Gate stage: the timer is clocked with a period of at least 64 ticks, so the not-ready refusals and null-pointer refusals are out, as are the reads (state, duties) and the gate-short probe.
- Gate stage: TIM1's registers, the static state and the timer behind them are one record field of the object, updated a group of fields at a time in the order the code has them.
- Gate stage: the drive's law is a parameter of its trigger, which says drive with a triple and a period, rest, or trip; the active period the glue remembers is left out, a repeated period changing nothing.
- Timer: ticks are whole, and ARR, PSC and RCR stand between writes; the emulator's doubles, its frequency's rounding, the break, the gate pins and SR's other flags are out.
- Rings: a push is two steps, up to its masked store and the store, and two contexts never push for one source; the counters' own increments are atomic. Bytes in the UART's data register, which a purge also discards, are outside the ring.
- Rails: the set of users is a sequence of Booleans rather than one byte's bits, so the bit count and the state report are out; `RailState.LeaseRun` supposes polls at most half the tick's range apart, which `RailState.LatePollMisses` shows is needed.
- Calibration: a difference of raw and offset outside 32 bits, which C leaves undefined, is taken to wrap. The record is its channels; validity, CRC and the other fields are a parameter.
- Memory: addresses are indices into one byte array whose start is word-aligned.

Not modelled:

- The boot ops that only reply (who, missing, state, dump, stay), the request framing and the console lines.
- Register set-up, clock trees, pins, SPI, DMA and the CubeMX code.
- The drive law, thermal observer, daq, filters, the walking controller and the modbus link.
- aero.c and aero_turn.c, the ADC scaling, and the rest of the command tables.
- The Renode glue beyond the timer, the fake board, and the host programs.
