# Verification of the Daly BMS exporter

A Dafny 4.11 model of the parts of the exporter that can silently corrupt numbers, with proofs about
whole runs of them: the write-ahead flush of the charge and energy counters, the self-calibration of
the current sensor, the Modbus frame check, and the ingest path that feeds all three.
`dafny verify dfyconfig.toml` checks the project.

## How the model is laid out

- `Serials` – serial order (`BTreeMap` order), pair keys and their splitting.
- `Modbus`, `ShiftRegister`, `ModbusProofs` – hex, CRC-16 and the response frame of Read Holding
  Registers; error detection through the algebra of a linear feedback shift register
  (MODBUS over Serial Line V1.02, section 6.2.2; MODBUS Application Protocol V1.1b3, section 6.3).
- `LineFit`, `LeastSquares`, `Spread`, `ChargeInfluence` – the exponentially forgotten least-squares
  fit in six accumulators, refined from a list of weighted samples.
- `Calibration` (functions), `CalibratorObject` (the class, in place), `CalibratorRuns`,
  `ExactRecovery`, `Verdicts`, `Origin`, `DeviceHistory`, `DeviceTotals`, `PairHistory`, `PeerTruth`,
  `WindowBound` – the estimator and theorems about its runs. The histories (`DeviceHistory`,
  `DeviceTotals`, `PairHistory`) say from the frames alone what the estimator has accumulated.
- `Accounting` (functions), `MetricsObject` (the class, in place), `CounterFacts` – integration of
  frames, pending deltas, the flush and the restore.
- `Protocol` – the same accounting as a state machine whose steps interleave: frames, slots, the three
  phases of a flush, each stage of the durable write, every single counter increment, scrapes, clock
  ticks, deaths of the process, power losses, restarts. `FlushRefinement` ties the machine's small steps to the class.
- `MachineShape`, `CrashSafety`, `DirectorySync`, `Conservation`, `Throttle`, `Due`, `Ledger`,
  `Agreement`, `Books`, `TrueCharge`, `TrueEnergy`, `Offsets`, `Restarts`, `Feed` – theorems over every
  run of the machine.
- `Ingest` (functions), `ServerObject` (the class), `IngestFacts`, `Decoding`, `Admission`, `Serving` –
  entries, gate, posts. `Serving` ties posts to runs of the machine, so that its theorems, and those
  about the estimator's runs, speak of what was posted.

## Conventions

- `f64` is `real`. The exponential and the one-ULP nudge are function parameters, constrained by their
  laws only (`Exponential`, `Nudges`). A standard error is compared on its square.
- The disk is the content a reader sees and the set of contents a power loss may leave. A rename adds
  the new content and makes it the visible one; a successful directory fsync, or the kernel writing back
  on its own (`Settle`), leaves only it; a failed fsync leaves the set as it is. The death of the process
  alone changes nothing on disk; a restart reads what is visible and syncs nothing. A power loss picks
  one content of the set. `Env.settledRestarts` says whether restarts wait until one content is left.
- The accounting takes the calibrator's step as a parameter (`Config.observe`), so that theorems which do
  not depend on it say so. `Calibrates` pins it to the modelled calibrator; `Integrating` asks only that
  it integrates each device's own frames, which `Agreement.CalibratorIntegrates` proves of the modelled one.
- Scrapes do not take the mutex, so increments are separate steps with scrapes between them. The flush
  that ends a frame is a step of its own, so other steps may come between the two.
- Where the source iterates a `HashMap`, the model leaves the order open (any order of increments gives
  the same counters: `FlushRefinement.AnyOrderApplies`).
- Clock readings, serialization failures and the outcome of each write stage are parameters of the
  steps.

## Where the code and its documentation part

- `src/calibration.rs:33-38` calls capacity over window a bound on the slope error. It is not: while a
  device has integrated no more than the forgetting constant, charges within 0..capacity can move the slope
  by at least twice that (`WindowBound.WindowBoundFails`, on every stream whose samples allow a line).
  `ChargeInfluence.InfluenceIsSharp` gives the least bound that always holds, and `WindowBoundExactly`
  the condition on the samples under which the documented one does.
- `src/metrics.rs:1572-1573` says a failed directory fsync does not fail the write; the code does fail
  it, except when the path has no parent component or the filesystem refuses directory fsyncs
  (`src/metrics.rs:1598-1606`). In those two cases a power loss breaks the promise of
  `src/metrics.rs:1250-1252` (`DirectorySync.ProbeServes`).
- The same promise also breaks when the process dies between the rename and the directory fsync, is
  restarted at once (`packaging/daly-bms-exporter.service:10`), serves what it read, and power is lost
  before the rename is durable: nothing syncs the directory on the way up
  (`DirectorySync.UnsettledRestartServes`). `DirectorySync.CrashSafeExactly` shows these are the only
  two ways: the promise holds on every run if and only if every durable write ends with a directory
  fsync and restarts find the disk settled. Against deaths of the process alone it always holds
  (`CrashSafety.DeathAloneIsSafe`).
- `src/config.rs:207-226` warns when a ceiling is below what the limits allow. No warning means no cut;
  a warning does not mean one, since no register gives more than 3553.5 A or 6553.5 V
  (`IngestFacts.WarningIsCautious`). `IngestFacts.NeverCutsExactly` gives the exact condition.

## Model

| member | source | states |
|---|---|---|
| Modbus.Crc16 | src/modbus.rs:13-26 | the nested loop computes the byte-wise CRC, which `CrcIsBitSerial` ties to the wire's bits |
| ModbusProofs.CrcIsBitSerial | src/modbus.rs:13-26 | absorbing whole bytes equals feeding the frame's bits, least significant first, one by one into the shift register |
| ModbusProofs.UnshiftUndoesShift | src/modbus.rs:18-22 | the shift step has an inverse, so no two register contents merge |
| ModbusProofs.ResidueZero | src/modbus.rs:58-63 | a body followed by two bytes has CRC zero exactly when they are its CRC, low byte first |
| ModbusProofs.AcceptedIffResidueZero | src/modbus.rs:41-73 | a frame parses if and only if header and length fit and the CRC of the whole frame is zero |
| ModbusProofs.BurstRejected | src/modbus.rs:41-73 | any frame that differs from an accepted one only within sixteen consecutive bits is rejected |
| ModbusProofs.TwoAdjacentBytesRejected | src/modbus.rs:41-73 | damage confined to two adjacent bytes, header and CRC bytes included, is always rejected |
| ModbusProofs.DocumentedCrcs | src/modbus.rs:97-107 | the two CRCs of the protocol document come out |
| ModbusProofs.BytesRoundTrip | src/modbus.rs:110-118 | parsing inverts encoding for a register list if and only if it has at most 127 registers |
| ModbusProofs.ReencodeRestoresFrame | src/modbus.rs:64-73 | re-encoding the registers of an accepted frame with an even byte count gives back its bytes |
| ModbusProofs.HexRoundTrip | src/modbus.rs:42 | decoding the hex of any bytes gives the bytes |
| ModbusProofs.FrameRoundTrip | src/modbus.rs:110-126 | the hex frame of a register list parses back to it exactly when the list fits |
| Serials.PairKeyIsSymmetric | src/calibration.rs:432-438 | both members of a pair use one key, with opposite orientation |
| Serials.PairKeySplits | src/calibration.rs:432-438 | splitting the key of two alphanumeric serials gives them back, smaller first |
| Serials.PairKeyInjective | src/calibration.rs:432-438 | two pairs of alphanumeric serials share a key exactly when they are the same unordered pair |
| LeastSquares.AccumulatorsRefineSamples | src/calibration.rs:108-137 | after any sequence of decay, push and shift the six accumulators are the weighted sums of the sample list that history leaves |
| LeastSquares.FitMinimisesError | src/calibration.rs:142-174 | the returned line is the unique minimiser of the weighted squared error over all lines |
| LeastSquares.HistoryFit | src/calibration.rs:108-174 | so the fit read off the accumulators is that minimiser after any history of the estimator with forgetting factors in 0..1 |
| LeastSquares.StderrOfResiduals | src/calibration.rs:142-174 | the squared standard error is the residual error over degrees of freedom and spread; the floor at zero never acts |
| LeastSquares.R2OfResiduals | src/calibration.rs:142-174 | r2 is the explained share of the spread of y, co-spread squared is at most the product of spreads, and the clamp to 0..1 never acts |
| LeastSquares.SpreadNonNegative | src/calibration.rs:149-156 | the spread of x is never negative |
| LeastSquares.NoSpreadNoCospread | src/calibration.rs:149-156 | without spread of x there is no co-spread to divide |
| Spread.LineFromThreeSamples | src/calibration.rs:142-156 | in every run the spread is positive once a second sample is in, so a line is returned exactly from a total weight of three |
| ChargeInfluence.SlopeDifference | src/calibration.rs:33-41 | exchanging the charge series moves the slope by a weighted sum of the differences over the spread of x |
| ChargeInfluence.ConstantChargeIsInvisible | src/calibration.rs:33-41 | adding a constant to every charge reading leaves the slope alone |
| ChargeInfluence.InfluenceBounded | src/calibration.rs:33-41 | any two charge series within 0..cap give slopes at most cap times leverage over spread apart |
| ChargeInfluence.InfluenceIsSharp | src/calibration.rs:33-41 | a limit holds for all charge series within 0..cap if and only if it is at least that influence |
| ChargeInfluence.WindowBoundExactly | src/calibration.rs:33-38 | for given samples the documented capacity-over-window bound holds for all charges if and only if window times leverage is at most the spread |
| ChargeInfluence.TwiceTheWindowBound | src/calibration.rs:33-38 | never while all samples lie within one window: charges within 0..cap then move the slope by at least twice capacity over window, whatever the weights |
| CalibratorObject.Calibrator.Observe | src/calibration.rs:457-462 | one frame, in place: integration, peers, verdict, and the offset returned |
| CalibratorObject.Calibrator.Integrate | src/calibration.rs:465-502 | in-place integration, anchoring and re-origining of one device |
| CalibratorObject.Calibrator.UpdatePeers | src/calibration.rs:506-539 | the loop over recent peers feeds each pair's regression, the others untouched; what a pair then holds is `PairHistory.PairIsSampled` |
| CalibratorObject.Calibrator.Recompute | src/calibration.rs:542-607 | gate, veto, freeze and published list, in place; their meaning over runs is `DeviceTotals.VerdictFromFrames` |
| CalibratorObject.Calibrator.PeerReports | src/calibration.rs:614-659 | the loop lists every qualifying peer in serial order; what a report says is `PeerTruth.ReportsFromFrames` |
| CalibratorRuns.OwnFrame | src/calibration.rs:457-502 | a device's own frame moves its estimator by its integration step alone |
| CalibratorRuns.OtherFrame | src/calibration.rs:457-502 | another device's frame leaves this device untouched, verdict included |
| CalibratorRuns.Projection | src/calibration.rs:457-502 | in any interleaving a device's fit, x, span, integrals and capacity are those of its own frames alone |
| ExactRecovery.RunStaysExact | src/calibration.rs:465-502 | while every interval balances, all samples and the present point stay on one line of slope offset, through outages, missing readings and moves of the origin |
| ExactRecovery.OffsetRecovered | src/calibration.rs:142-174 | then, as soon as a line is returned, its slope is the offset and its residual zero |
| Origin.RecentringInvisible | src/calibration.rs:129-137 | the run with origin moves and the run that never moves it agree at every step on slope, r2, error, hold, disagreement and offset, x being total span in the latter |
| Origin.XStaysNearOrigin | src/calibration.rs:479-493 | after every anchored frame x is at most fifty time constants |
| Origin.PublicationCapDecidesNothing | src/calibration.rs:584-607 | calibrators that differ only in the publication cap have equal persisted state, holds and disagreements after every stream |
| Verdicts.PeerReportsComplete | src/calibration.rs:614-659 | the report lists each qualifying peer once, in serial order, and no other |
| Verdicts.PeerSymmetry | src/calibration.rs:614-659 | computed in one state, a's report lists b exactly when b's lists a, with negated relative offset and equal slope, r2 and disagreement; the lists two devices publish stem from different frames and need not agree |
| Verdicts.RestoreKeepsAdmittedPairs | src/calibration.rs:689-700 | a persisted pair survives exactly when both of its serials are admitted; with which regression is `Restarts.RestartTakesPairs` |
| Verdicts.GateDecides | src/calibration.rs:542-607 | the hold is lifted if and only if span, anchor, error and every peer, published or not, agree; then the clamped slope applies, else the offset stays; what is published is the prefix of the full list; the disagreement itself is `PeerTruth.ReportsFromFrames` |
| Verdicts.OffsetBounded | src/calibration.rs:560-583 | in every run of a fresh calibrator every applied offset is within the hard clamp |
| Verdicts.OffsetMovesOnlyWhenEligible | src/calibration.rs:542-607 | an offset changes only on its device's own frame with the hold lifted |
| Verdicts.AnchorErrorShrinks | src/calibration.rs:423-429 | at constant capacity a longer span never makes the anchor error worse |
| Verdicts.WarmupDoesNotReturn | src/calibration.rs:423-429 | while capacity does not grow, a device once past warm-up stays past it for the rest of the run |
| Verdicts.WarmedUpHold | src/calibration.rs:542-583 | an own frame reads warm-up exactly when there is a line and the device is not warmed up |
| DeviceTotals.RunHasTotals | src/calibration.rs:465-502 | in every run a device's integrated time, net charge, bleed and known capacity are the trapezoid sums, and the maximum, over the capped gaps between its own frames |
| DeviceTotals.VerdictFromFrames | src/calibration.rs:542-607 | the whole verdict from the frames: no line through the samples, too short or capacity too large, residuals too large, a peer disagreeing or none, in this order; without a hold the offset is the clamped slope, with one it stays |
| PairHistory.PairIsSampled | src/calibration.rs:506-539 | in every run a pair's regression is the weighted sums over its paired readings: smaller serial on x, larger on y, both within the skew, each weight the product of the exponentials of the hours between later meetings |
| PairHistory.DifferenceRecovered | src/calibration.rs:142-174 | if on every paired reading the larger serial reads delta more, any line the pair has is of slope 1, intercept delta, no error and r2 1 |
| PeerTruth.PublishedReportIsTruthful | src/calibration.rs:614-659 | with both charge balances exact and paired readings delta apart, a published report carries delta with its own sign and a disagreement of exactly what the two sensor offsets leave unexplained |
| PeerTruth.ExplainedNeverVetoed | src/calibration.rs:584-603 | when the offsets alone explain every difference, the worst disagreement is zero and no peer vetoes |
| PeerTruth.UnexplainedIsVetoed | src/calibration.rs:584-603 | and when they do not, a peer whose pair weighs enough is never overlooked, published or not: above the limit the correction is held |
| PeerTruth.ReportsFromFrames | src/calibration.rs:614-659 | whatever the readings, each published report is the line through the readings paired with that peer, heavy and straight enough, signed by serial order, measured against both devices' slopes |
| PeerTruth.PublishedFromFrames | src/calibration.rs:614-659 | the published list holds the first such devices in serial order, up to the cap, each with what its line leaves unexplained |
| PeerTruth.WorstFromFrames | src/calibration.rs:584-599 | whatever the readings, the worst disagreement is the largest over all devices whose paired readings give such a line, and none exactly when there is no such device |
| DeviceHistory.FitIsSampled | src/calibration.rs:465-502 | in every run a device's accumulators are the sums over its samples, aged, shifted and lowered by the charge reported |
| DeviceHistory.ReportedChargeInfluence | src/calibration.rs:33-41 | streams that differ only in reported charges within 0..cap give slopes no further apart than the influence |
| DeviceHistory.WeightsForgetExponentially | src/calibration.rs:479-486 | when every step is anchored, each weight is the exponential of its integrated age over tau |
| WindowBound.SamplesWithinSpan | src/calibration.rs:465-502 | in every run all samples of a device lie within its integrated span before the present point, through outages and moves of the origin |
| WindowBound.InfluenceAttained | src/calibration.rs:33-41 | the influence is attained by streams: the same frames with other charges reported within 0..cap end that far apart |
| WindowBound.WindowBoundFails | src/calibration.rs:417-429 | on every stream that has integrated at most the forgetting constant and allows a line, two such streams have slopes at least twice the documented anchor error apart |
| MetricsObject.Metrics.Admit | src/metrics.rs:832-851 | admits a tracked serial or one there is room for, reserving its slot, and refuses all others unchanged |
| MetricsObject.Metrics.AccumulateCoulombs | src/metrics.rs:1009-1110 | calibration first, on the raw reading; then deltas, baselines and clamp count, in place; what the deltas amount to is `Ledger.CountersAreSums` |
| MetricsObject.Metrics.BeginFlush | src/metrics.rs:1273-1354 | idle, throttled, writing or serialization failure: the state each leaves, and the payload and snapshot when a write starts; exactly when one starts is `Due.BeginWritesExactly` |
| MetricsObject.Metrics.RequeuePending | src/metrics.rs:1421-1427 | the snapshot is added back to what accumulated meanwhile |
| MetricsObject.Metrics.ApplyPending | src/metrics.rs:1394-1417 | the nested increments add exactly the snapshot, in any order of devices |
| MetricsObject.Metrics.EndFlush | src/metrics.rs:1371-1391 | counters and freshness rise only on success; a failure puts every delta back; the attempt is stamped either way |
| MetricsObject.Metrics.FlushUnpersisted | src/metrics.rs:1260-1271 | without a state file deltas are exported at once |
| MetricsObject.Metrics.FlushCoulombState | src/metrics.rs:1259-1391 | a whole flush; what it leaves of each counter is `Due.FlushOutcome` |
| MetricsObject.Metrics.RestoreCoulombs | src/metrics.rs:1181-1236 | counters, slots and calibrator of the first serials up to the cap, from the file; what comes back of the calibrator is `Restarts.RestartBringsBack` |
| CounterFacts.AppliedReads | src/metrics.rs:1394-1417 | each counter rises by its positive part of the snapshot, and a series exists afterwards exactly if it did or rose |
| CounterFacts.TakeThenRequeue | src/metrics.rs:1344-1352 | taking everything pending and putting it back is no change |
| FlushRefinement.AnyOrderApplies | src/metrics.rs:1394-1417 | single increments, in whatever order, end in the counters with the snapshot applied |
| FlushRefinement.SuccessfulFlushRefines | src/metrics.rs:1259-1391 | the machine's small steps of an undisturbed successful flush leave exactly the class's state |
| FlushRefinement.FailedFlushRefines | src/metrics.rs:1259-1391 | and those of a failed one too, whether it fails before the rename or at the directory fsync |
| FlushRefinement.FlushExportsAll | src/metrics.rs:1240-1245 | a successful forced flush, from any idle state of any run, exports all the process started with and integrated |
| FlushRefinement.StopLosesNothing | src/metrics.rs:1240-1245 | so a process that stops after it restarts, on whatever the disk holds, at or above all of that |
| MachineShape.StepKeepsShape | src/metrics.rs:1247-1391 | every step keeps amounts non-negative, slots within the cap, snapshots within the slots, and `writing` set exactly while a flush is under way |
| MachineShape.FrameEffect | src/metrics.rs:1009-1110 | a frame adds its deltas to its own slot's queue and leaves counters, flags and other slots alone |
| CounterFacts.RestoredReads | src/metrics.rs:1207-1226 | a restored counter reads the file's total, if positive, for the serials restored and nothing for others |
| Restarts.RestartTakesPairs | src/calibration.rs:689-700 | a restart takes the file's accumulators of each pair whose serials are both restored, and of no other |
| Restarts.RunTracks | src/metrics.rs:1229-1234 | in every run the calibrator knows only devices and pairs of devices that have a slot |
| Restarts.RestartBringsBack | src/metrics.rs:1181-1236 | over runs: a process restarted on the file a write made has of every device and every pair exactly what the calibrator had when that write began |
| Admission.FirstSerialsComeBack | src/metrics.rs:1207-1216 | a serial of the file comes back exactly when fewer than the cap come before it |
| MachineShape.StepKeepsMemory | src/metrics.rs:1247-1391 | only frames and restarts change the calibrator, a slot's readings or what was integrated |
| CrashSafety.StepKeepsInv | src/metrics.rs:1247-1391 | every step keeps all that was served at or below counters, and counters with what is being applied at or below every content the disk may hold |
| CrashSafety.CrashSafeMonotonicity | src/metrics.rs:1247-1258 | in every run whose restarts find the disk settled, deaths, power losses, failed stages and scrapes between increments included, no content the disk may hold is below a value ever served, and no restart lowers a counter |
| CrashSafety.DeathAloneIsSafe | src/metrics.rs:1247-1258 | without power losses the visible file is never below a value ever served, with or without directory fsyncs, wherever the process dies and however soon it restarts |
| DirectorySync.ProbeServes | src/metrics.rs:1598-1606 | a concrete run without a directory fsync serves a value the disk may not hold |
| DirectorySync.UnsettledRestartServes | src/metrics.rs:1598-1606 | a concrete run with directory fsyncs: death after the rename, restart, scrape, power loss; the disk holds nothing of what was served |
| DirectorySync.CrashSafeExactly | src/metrics.rs:1574-1608 | crash safety holds on every run from an empty disk if and only if every durable write ends with a directory fsync and every restart finds the disk settled |
| Conservation.StepConserves | src/metrics.rs:1259-1427 | every step keeps exported plus queued plus in flight equal to restored plus integrated |
| Conservation.ConservationOverRuns | src/metrics.rs:1259-1427 | so in every run, and after r restarts no counter is more than r nudges above the deltas ever integrated, however many files were written |
| Throttle.WritesAreThrottled | src/metrics.rs:1290-1294 | unforced writes start at least the interval after every earlier write, failed ones included, and a window of length L holds at most L / interval + 1; that they do start then is `Due.BeginWritesExactly` |
| Throttle.OneWriteAtATime | src/metrics.rs:1276-1278 | a flush that finds one under way changes nothing |
| Throttle.FreshnessIsHonest | src/metrics.rs:1280-1289 | whenever a step claims freshness, also at an unchanged clock reading, every disk content covers the counters and nothing is in flight; a flush that finds nothing to write claims it only with every integrated delta exported |
| Throttle.NothingElseStamps | src/metrics.rs:1280-1391 | no other step of a running process moves the freshness |
| Due.AttemptsAreStamped | src/metrics.rs:1371-1376 | in every run the stamp of the last attempt is the clock when this process last learned a write's outcome, good or bad |
| Due.BeginWritesExactly | src/metrics.rs:1276-1295 | in every run a flush that finds none under way and serializes starts a write if and only if it is forced, or a nonzero delta is queued and no attempt was made yet or the last is a full interval ago |
| Due.DueFlushExports | src/metrics.rs:1259-1391 | so a due flush whose stages succeed raises each counter by exactly what was queued for it, in whatever order, and leaves nothing queued |
| Due.FlushOutcome | src/metrics.rs:1259-1391 | a flush of the object exports all of a counter's queue or nothing, exactly when due and written, and stamps exactly the attempts |
| Due.UnpersistedExports | src/metrics.rs:1260-1271 | without a state file everything queued is exported |
| Due.RestartIsFresh | src/metrics.rs:1185-1189 | a restart claims freshness with every counter at the visible file's total and nothing queued |
| Ledger.CountersAreSums | src/metrics.rs:1053-1094 | in every run all nine counters of a device are the trapezoid sums over its readings: each direction on its own counter, energy with a voltage at both ends, each endpoint corrected by its own offset, each amount under its ceiling |
| Ledger.CutIsCounted | src/metrics.rs:1055-1108 | a frame counts as clamped exactly when a side of its interval exceeds its ceiling |
| Agreement.SameNet | src/metrics.rs:1053-1057 | the counters' trapezoid and the calibrator's integral of an interval are the same net charge |
| Agreement.SameBleed | src/metrics.rs:1078-1087 | and the same bleed |
| Agreement.CalibratorIntegrates | src/calibration.rs:457-502 | the modelled calibrator moves one device's integrals and baseline by its own frame, and nothing of another |
| Agreement.CountersAndCalibratorAgree | src/metrics.rs:47-51 | from an empty disk, uncut and un-nudged, every file has each device's net charge and bleed equal to the calibrator's running integrals beside them, across failed writes, deaths, power losses and restarts |
| Books.CorrectedCharges | src/metrics.rs:1058-1066 | the calibrated net of an interval is the raw net less the mean of the two offsets over its length |
| Books.RunRemembers | src/metrics.rs:1089-1094 | in every run the offset a slot remembers is the one the calibrator has in force |
| Books.CalibratedBooks | src/metrics.rs:1027-1094 | over a whole uncut run calibrated net charge is raw net charge less the sum of those corrections |
| Ledger.CalibratedEnergyBooks | src/metrics.rs:1067-1077 | over any uncut run calibrated net energy is raw net energy less, per interval with both voltages, the mean of offset times voltage over its hours |
| Books.UncalibratedBooks | src/metrics.rs:1027-1094 | while no offset has been in force, calibrated and raw counters are equal, energy and ceilings included |
| TrueCharge.AppliedIsTheOffset | src/calibration.rs:542-607 | with an exact balance the offset in force is zero before the first application and exactly the sensor's from then on |
| TrueCharge.CalibratorIsItsRun | src/metrics.rs:1027-1044 | the calibrator inside an uninterrupted process is a fresh one run over the frames that reach it |
| TrueCharge.CalibratedCountersAreExact | src/metrics.rs:1027-1094 | from the first application on, calibrated net charge is exactly the charge truly gained plus what was bled |
| TrueCharge.ExportedCountersAreExact | src/metrics.rs:1027-1094 | and so is the exported calibrated net charge, between any two moments with nothing queued or in flight |
| TrueEnergy.CalibratedEnergyIsExact | src/metrics.rs:1067-1077 | from the first application on, calibrated net energy grows by exactly the energy of the true current, interval by interval |
| Feed.FrameIsHanded | src/metrics.rs:1027-1042 | in every run a frame with a current, of a device with a slot or room for one, is one observation of the calibrator: its raw readings, the clock, and the capacity last configured in this process if positive; any other frame is none |
| Offsets.OffsetsStayClamped | src/calibration.rs:560-583 | in every run from files within the clamp no offset leaves it, in memory, in a file being written or anywhere on disk, across deaths, power losses and restarts |
| Offsets.OffsetMovesOnOwnFrame | src/calibration.rs:542-607 | in any state a step other than a restart moves the offset in force only if it is the device's own frame, all conditions met, and then to the clamped slope |
| Offsets.RestartTakesStoredOffset | src/calibration.rs:689-700 | a restart takes the stored offset as it is, also one outside a clamp that has since been tightened |
| ServerObject.Server.HandleEntry | src/server.rs:135-196 | command, block, response, gate: the first failure names the drop and leaves everything untouched |
| ServerObject.Server.Telemetry | src/server.rs:83-132 | serial, cap, then entries in order, each decoded or counted by reason; a refused post counts at least once |
| IngestFacts.DroppedEntriesLeaveNoTrace | src/server.rs:117-132 | a batch leaves the state its accepted entries alone leave, plus one count per dropped entry by reason |
| IngestFacts.GarbageLeavesNoTrace | src/server.rs:117-196 | the same over any stream of posts |
| IngestFacts.EveryEntryIsCountedOnce | src/server.rs:96-132 | every entry is decoded or dropped exactly once, a refused empty post as one drop |
| Decoding.JudgedByBytes | src/server.rs:135-196 | what becomes of an entry, from its bytes: request, block, response length, header, CRC and gate, the first failure naming the drop; the values of an accepted frame at the BMS's addresses, high byte first, in tenths |
| Decoding.CountedByBytes | src/server.rs:117-196 | a drop counts by its reason and does nothing else; an accepted entry counts by the block its request names |
| Decoding.NotHexIsDropped | src/server.rs:135-147 | what is not hex is dropped, the request before the response |
| Decoding.DamageIsDropped | src/modbus.rs:41-73 | an accepted response damaged within sixteen consecutive bits is dropped, under the reason its length, header or CRC gives |
| Decoding.UpperCaseReads | src/modbus.rs:42 | a frame in upper-case hex reads the same |
| Admission.OnlyWelcomeGetIn | src/server.rs:83-132 | after any posts only well-formed, allowed serials have a slot or were seen, and no more than the cap |
| Admission.WelcomeGetsIn | src/server.rs:83-132 | and every such serial does get in while there is room or it is in; any other post only counts its entries, at least one, as dropped, for its serial or else for the cap |
| Serving.ServedCountersAreSums | src/server.rs:83-196 | from posts to counters: whatever was posted and however flushes went, the calibrator is the machine's over the accepted frames in order, and each counter with its queue is the sum over its device's intervals |
| Serving.ServedCalibratorIsItsRun | src/server.rs:83-196 | after any posts the calibrator is a fresh one run over the accepted frames that carry a current, all of acceptable serials, so that the theorems about the estimator's runs hold of whatever is posted |
| Serving.UnpersistedCountersAreSums | src/metrics.rs:1260-1271 | without a state file the counters themselves are those sums, after any posts |
| Serving.FrameIsFlushed | src/metrics.rs:1105-1110 | with one, the flush that ends each integrated frame exports the whole queue exactly when due and its stages succeed, and otherwise leaves the counters |
| IngestFacts.ServedAllPasses | src/decode.rs:269-284 | after any stream every baseline holds a frame that passed the gate and that registers can give |
| IngestFacts.RawCeilingsNeverCut | src/metrics.rs:1053-1077 | with ceilings at what the largest decodable readings and the gap allow, no accepted frame's raw charge or energy is ever cut, inside any post after any posts |
| IngestFacts.NeverCutsExactly | src/config.rs:207-226 | over everything that can be posted, no accepted frame is cut if and only if the ceilings reach what the largest decodable readings under the limits give, or no voltage passes the gate; the cut pair is two accepted entries of one post |
| IngestFacts.WarningSuffices | src/config.rs:207-226 | without the loader's warning no frame is cut, and for limits that are themselves decodable readings the warning is exact |
| IngestFacts.WarningIsCautious | src/config.rs:207-226 | limits above every reading draw the warning under ceilings that never cut |

## Left out

- Floating-point rounding, NaN and infinities: `real` throughout; the finite checks of the gate and of the nudge have no counterpart.
- Gauges, alarm bits, ASCII fields, device info, cell and temperature lists, the calibration reports' gauges: exported for display and read by nothing modelled here, except the rated capacity, which is kept.
- HTTP routing, the async runtime, tracing, the Prometheus registry and text format, YAML loading, write-error counters: reduced to maps of numbers and to step outcomes.
- JSON bodies that do not parse: dropped before any state is read.
- Unreadable or corrupt state files: the process then starts as on an empty disk; not a run of the machine.
- Files with more serials than the cap: `RestoredReads` says what is restored of them, but runs of the machine start on files within it.
- A rename that reports failure but takes effect, and a lost temp-file fsync: the durable write is taken at its word stage by stage.
- MetricsObject.Metrics.FlushUnpersisted: one atomic step, although the source releases the lock before it raises the counters; no file exists for them to run ahead of.
- DeviceHistory.WeightsForgetExponentially: only when every step is anchored, since x advances on frames that do not age the fit.
- Agreement.CountersAndCalibratorAgree: needs the nudge to be the identity; with it the file's totals are each up to one nudge higher per restart, as `ConservationOverRuns` bounds.
- TrueCharge.CalibratedCountersAreExact: within one process (and likewise `ExportedCountersAreExact`), because a restart loses the interval across it in counters and calibrator alike.
- TrueEnergy.CalibratedEnergyIsExact: within one process too, for the same reason.
- PairHistory.PairIsSampled: from a fresh calibrator, since when a pair last met is not persisted: the first meeting after a restart does not age the pair. Serials are as the endpoint accepts them, as keys of others could collide.
- IngestFacts.RawCeilingsNeverCut: raw charge and energy only; the offset can push the calibrated current past the gate's limit, and the balance current is never gated.
- Throttle.WritesAreThrottled: per process, as the stamp of the last attempt is not persisted.
- Progress of a forced flush while another is under way: it returns, so only safety is stated.
