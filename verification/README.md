# Octave player: equalizer and playback proofs

A Dafny model of the parts of Octave where state outlives a single call: the server's audited rollback
of equalizer state, the client's dual-bank equalizer, the two-element playback deck with the play
history it feeds, the ParametricEQ text format, and a few smaller algorithms around them. To verify it,
run `dafny verify dfyconfig.toml` with Dafny 4.11.

## How the model is laid out

- **Rollback** (`Rows`, `EqualizerCore`, `RollbackLaws`). State vectors are sequences of rows with an
  id. `RollbackDiff`, `AfterImageMatches` and `RollbackInverse` are functions; `ApplyRollbackInverse` is
  the step-by-step method. The Unicode key that profiles are sorted by is a parameter `nameKey`.
- **Equalizer graph** (`EqualizerDsp`, `DspLaws`, `EqualizerBank`, `BankLaws`, `SignatureText`,
  `GainAutomation`, `EqualizerSwitch`, `SwitchActions`, `SwitchLaws`, `AudioGraph`). `EqualizerSwitch` is a step machine: audio time advances, the context
  suspends or resumes, a finish timer fires however late, an element is tapped with or without success, a
  request is made. `AudioGraph.EqualizerGraph` is the class whose methods update the module's variables
  in place; each is proved equal to a step function. Gain envelopes follow the event semantics of
  `AudioParam` (section 1.6 of the Web Audio API, version 1.1). Filter magnitudes, `dbToLinear` and the
  swept grid's powers are function parameters.
- **Deck** (`Deck`, `DeckLaws`, `DeckSound`, `PlaybackDeck`). A step is a store call, an element event, a fade tick or a
  `play()` promise that resolves or is rejected, in any order and at any time; what the elements show at
  that moment (position, duration, buffering, preferences) is an arbitrary environment. The callbacks to
  the store are appended to a log, which is what conservation is stated about.
- **Player session** (`PlayRecords`, `PlayOrder`, `PlayerSession`, `SessionActions`, `SessionLaws`,
  `SessionGuards`, `SessionTruth`, `SessionLimits`, `SessionEnds`, `LateLookups`). `PlayerSession` puts the store and its
  deck into one state machine: queue, index, shuffle, repeat, both play guards, the source lookups in
  flight, and the deck's own state, log and promises. A `loadAndPlay` is either one step with its
  `playNow` or a step of its own whose lookup may arrive later, be overtaken, or never come; the guard is
  cleared when a track is selected, not when it starts. `SessionLaws` proves that no listen is submitted
  twice and `SessionLimits` exactly when a selection without its `playNow` breaks that; `SessionGuards`
  says on every run when the guard is set, `SessionEnds` which listens have been submitted once they
  end, `LateLookups` what becomes of a listen begun by a late lookup, and `SessionTruth` that the store
  shows what is heard. `PlayRecorder` and `PlayerQueue` are the imperative forms.
- **ParametricEQ text** (`Decimals`, `Patterns`, `ParametricEq`, `ParametricEqLaws`, `ParametricEqLimits`,
  `ParametricEqRoundTrip`). A number is identified with its shortest round-trip decimal. Literals are read
  exactly and then rounded by a parameter `round` of which only two facts are used: it yields numbers, and
  it leaves numbers alone. The two line patterns are lists of pieces with a declarative meaning (the line
  is some concatenation of fitting pieces); the scanner is proved to find that match whenever there is one.
- **Smaller cores** (`DiscGroups`, `ResolvedEvents`, `StoreActions`, `RouteDebounce`).

What each operation does is stated a second time, independently of its definition and with limits, orders
and messages as plain numbers and texts, in `BankLaws`, `DspLaws`, `DeckSound`, `ParametricEqLimits`,
`SessionActions`, `StoreActions` and `SwitchActions`.

Where a property is false of the code, the model keeps the code and states when it does hold:

- Rollback keeps references intact: `RollbackLaws.RollbackIntegrity`, with `CheckAloneLeavesDangling`.
- At most one play per listen: `SessionLaws.AtMostOnePlayPerListen` where every selected track is played;
  `SessionLimits.ExactlyHarmless` for a selection whose source lookup is slow or refused, with the runs
  `RefusedLookupCountsTwice` and `StaleIndexCountsTwice`; `PlayRecords.CountedOnceIffQueued` for one swap.
- Every countable listen is submitted by its end: `SessionEnds.FallbackOnEveryRun` and `HandoffOnEveryRun`;
  a listen begun by a late lookup is shut out exactly if the threshold was crossed since its selection
  (`LateLookups.ArrivalDecides`, `LateListenOnEveryRun`), with the run `LateLookupShutsOut`.
- The look-ahead foretells the advance, and skipping back undoes it: `PlayOrder.AdvanceIsForetold`,
  `PlayOrder.PreviousUndoesAdvance`.
- The order of resolution events does not matter: `ResolvedEvents.OrderMattersExactly`.
- A scope change forgets everything before it: `ResolvedEvents.ChangeForgets`.

Lemmas carry `{:induction false}` wherever Dafny would otherwise try automatic induction.

## Model

| member | source | states |
|---|---|---|
| EqualizerCore.ApplyRollbackInverse | server/src/equalizer_core.rs:112-150 | The result holds the touched rows of the before-image and the untouched ones of the current state, each as often as they do, and every other field of the current state but a touched default; rules stand by falling priority then rising id, profiles by name key, character by character, then rising id |
| EqualizerCore.TouchedLookups | server/src/equalizer_core.rs:45-76 | An id is in the diff exactly when the two snapshots look it up differently |
| EqualizerCore.SameReferences | server/src/equalizer_core.rs:152-165 | Equal reference lists mean the same rules at the same revisions select the profile, and both states default to it or neither does |
| EqualizerCore.TargetProfiles | server/src/equalizer_core.rs:118-127 | In the rolled-back state a touched profile is looked up in the before-image and every other one in the current state |
| EqualizerCore.TargetRules | server/src/equalizer_core.rs:128-137 | The same for device rules |
| EqualizerCore.ProfileOrderIsOrder | server/src/equalizer_core.rs:141-145 | The canonical order of profiles is total and transitive and ties only rows with one id |
| EqualizerCore.RuleOrderIsOrder | server/src/equalizer_core.rs:146-148 | The same for device rules |
| EqualizerCore.TargetInOrder | server/src/equalizer_core.rs:141-148 | The rolled-back rules stand by falling priority and then by rising id, the profiles by name key and then by rising id |
| EqualizerCore.TextLeIsEarlier | server/src/equalizer_core.rs:141-145 | Name keys are compared like texts: at the first place where they differ, or where one ends |
| EqualizerCore.ReferencesExactly | server/src/equalizer_core.rs:152-165 | References are equal exactly when both states default to the profile or neither, and the same rules select it, at the same revisions and as often, in whatever order they stand |
| EqualizerCore.CheckIs | server/src/equalizer_core.rs:80-108 | The check passes exactly when the format is the same, every touched row is looked up as it was left, touched settings are as they were left, and every touched profile is used alike |
| EqualizerCore.DiffIs | server/src/equalizer_core.rs:45-76 | The diff names exactly the profiles and rules that the two snapshots look up differently, and settings that differ |
| Rows.OverlayLookup | server/src/equalizer_core.rs:118-137 | Retain-and-extend answers each lookup from exactly one of its two sources |
| Rows.SortedByLookups | server/src/equalizer_core.rs:141-148 | Lookups determine a canonically sorted vector of distinct ids, order included |
| RollbackLaws.RollbackIntegrity | server/src/equalizer_core.rs:80-165 | After a passing check the rollback leaves no dangling reference if and only if every undiffed profile that a restored rule or default names still exists |
| RollbackLaws.CheckAloneLeavesDangling | server/src/equalizer_core.rs:105-107 | A concrete state that passes the check and is left with a dangling default |
| RollbackLaws.RollbackOverwritesOnlyAfterImage | server/src/equalizer_core.rs:80-150 | Whatever a passing rollback changes still carried the after-image; untouched rows are kept and the result is canonical with unique ids |
| RollbackLaws.EditsOverlay | server/src/equalizer_core.rs:112-150 | Edits that avoid the diffed rows, applied to the before-state, give the before-state on touched ids and the edited after-state elsewhere |
| RollbackLaws.RollbackCommutesWithEdits | server/src/equalizer_core.rs:45-150 | After any later edits that avoid the diffed rows, rolling back equals applying those edits to the before-state; the check passes exactly when the references to diffed profiles are unchanged |
| RollbackLaws.RollbackIsInverse | server/src/equalizer_core.rs:45-150 | Rolled back at once, a canonical before-state comes back as the identical sequences, and any before-state by lookups and default |
| RollbackLaws.RollbackIsUndoable | server/src/equalizer_core.rs:45-150 | The rollback's own diff is the original diff, and applying its inverse gives the current state back |
| EqualizerDsp.UniqueSorted | app/src/equalizer/dsp.ts:69-79 | The loop returns an ascending list whose neighbours are further apart than the tolerance and which has a point within tolerance of every input |
| EqualizerDsp.DedupCovers | app/src/equalizer/dsp.ts:69-79 | Every value dropped by the deduplication lies within tolerance of a kept one |
| EqualizerDsp.BuildFrequencyGrid | app/src/equalizer/dsp.ts:82-103 | The grid strictly ascends inside [10, Nyquist) and covers every in-range candidate within tolerance |
| EqualizerDsp.GridIsGrid | app/src/equalizer/dsp.ts:82-103 | The grid as a function of the bands and the rate is what the loop promises, for every input |
| EqualizerDsp.CentresAreSampled | app/src/equalizer/dsp.ts:82-103 | The centre of every enabled band below Nyquist lies within tolerance of a grid point |
| EqualizerDsp.FirstIncompatible | app/src/player/audioGraph.ts:192-301 | The first enabled band at or above Nyquist, and none exactly when every enabled band is below it |
| EqualizerDsp.CalculateEqualizerResponse | app/src/equalizer/dsp.ts:143-188 | The per-frequency loops compute preamp plus the enabled bands' responses and one common trim |
| EqualizerDsp.HeadroomHolds | app/src/equalizer/dsp.ts:143-188 | With automatic headroom no applied value exceeds 0 dB; a trim is applied exactly when the untrimmed curve does, and then the curve peaks at -1 dB |
| DspLaws.ToleranceIs | app/src/equalizer/dsp.ts:74 | Two frequencies are one grid point within a ten-billionth, or a hundred-millionth of a hertz |
| DspLaws.GridHas2048 | app/src/equalizer/dsp.ts:82-103 | Without a count the grid has 2048 points of the sweep |
| DspLaws.ResponseIs | app/src/equalizer/dsp.ts:143-188 | The response at each frequency is the preamp and the enabled bands, and no other, together, and the applied one that with the trim; it is zero everywhere, with the first offending position, when a band does not fit |
| EqualizerBank.BoundedPercent | app/src/player/audioGraph.ts:535-538 | A percentage in 0..100: non-finite counts as 0 and halves round up |
| EqualizerBank.BuildPlan | app/src/player/audioGraph.ts:192-301 | The bank built for a request: Flat for bypass, unsupported profiles and bands at Nyquist, otherwise the filter chain with preamp and trim |
| BankLaws.SupportedIsVersion1 | app/src/player/audioGraph.ts:130-153 | A profile is supported exactly at format 1 with 1 to 32 peaking bands in order and every value within its limits, written as numbers |
| BankLaws.PlanIsFlatExactly | app/src/player/audioGraph.ts:192-220 | The bank is Flat exactly when nothing is asked, the profile is not supported, or an enabled band reaches half the rate; which of them is told, and of the last the first band |
| BankLaws.PlanIsChain | app/src/player/audioGraph.ts:228-249 | A bank that sounds has one peaking filter for each enabled band and none for any other, with its own frequency, gain and q, in band order; then a low shelf at 120 Hz just if there is bass, then a high shelf at the lower of 8 kHz and two fifths of the rate just if there is treble, each with the gain of its percentage; nothing else |
| BankLaws.ChainAdds | app/src/player/audioGraph.ts:266-274 | The response of a chain is the sum of the responses of its filters |
| BankLaws.PeakIsLoudest | app/src/player/audioGraph.ts:262-275 | The reported peak is the loudest point of preamp and filters on the grid, or the preamp without one |
| BankLaws.TrimIsExact | app/src/player/audioGraph.ts:276-282 | A trim is applied exactly if headroom is wanted and the peak is above 0 dB, brings the peak to exactly -1 dB, and the input gain is that of preamp and trim together |
| BankLaws.PercentsAreCut | app/src/equalizer/dsp.ts:25-28 | Percentages are cut off at 0 and 100 for the signature and the shelves |
| EqualizerBank.AggregateResponse | app/src/player/audioGraph.ts:262-275 | The filter-by-filter buffer equals the chain's response at every grid point |
| EqualizerBank.FlatSignatureIsFlatBank | app/src/equalizer/dsp.ts:38-67 | The signature is flat exactly under the bypass or no-profile-no-tone condition of the bank |
| EqualizerBank.SameProfileJson | app/src/equalizer/dsp.ts:38-67 | Profiles with one signature agree on every audible field |
| EqualizerBank.SignatureIsSound | app/src/equalizer/dsp.ts:38-67 | Normalized requests with one signature get one and the same bank on every device and at every sample rate |
| SignatureText.BodyIsInjective | app/src/equalizer/dsp.ts:50-66 | Distinct strings are escaped differently, even with text after them |
| SignatureText.TextIsInjective | app/src/equalizer/dsp.ts:50-66 | No two arrays of numbers, strings, flags, nulls and arrays are written alike |
| SignatureText.SameTextSameSignature | app/src/equalizer/dsp.ts:38-67 | Two requests have the same signature text exactly if they have the same signature |
| SignatureText.SameTextSamePlan | app/src/equalizer/dsp.ts:38-67 | Normalized requests with one signature text get one and the same bank on every device |
| EqualizerBank.BankHeadroom | app/src/player/audioGraph.ts:262-282 | With tone or automatic headroom, preamp, trim and filters never exceed 0 dB, nor -1 dB once a trim was applied, at every frequency of the grid built from the bands, which has one within tolerance of each enabled centre |
| GainAutomation.PastIsForgotten | app/src/player/audioGraph.ts:395-404 | Past automation events matter only through the value they left |
| GainAutomation.FadeShapes | app/src/player/audioGraph.ts:395-404 | Closed forms of the two scheduled envelopes |
| GainAutomation.SwitchNeverOverlaps | app/src/player/audioGraph.ts:395-404 | The two envelopes are never both non-zero, stay in [0, 1], start at full and nothing and end the other way round |
| GainAutomation.AssignAfterFadeIn | app/src/player/audioGraph.ts:362-363 | Assigning 1 past the midpoint of the fade-in leaves the gain at 1 for good |
| GainAutomation.AssignAfterCancel | app/src/player/audioGraph.ts:331-334 | With the schedule cancelled, an assignment settles the value for good |
| EqualizerSwitch.RequestOf | app/src/player/audioGraph.ts:527-544 | The derived request keeps the profile and takes each percentage from its own argument, rounded and within 0 to 100; unless told, it is bypassed exactly without a profile and tone |
| EqualizerSwitch.SettleRests | app/src/player/audioGraph.ts:328-338 | Settling leaves only the incoming bank, at full gain |
| EqualizerSwitch.CompleteRests | app/src/player/audioGraph.ts:350-372 | So does completing a switch whose fade is over |
| EqualizerSwitch.ReplaceRests | app/src/player/audioGraph.ts:340-348 | Immediate replacement leaves only the new bank, with nothing parked |
| EqualizerSwitch.BeginSwitches | app/src/player/audioGraph.ts:374-413 | Beginning a switch connects exactly two banks under the next token, with its timer outstanding; no earlier timer carries it as long as tokens only grow, which every step keeps |
| EqualizerSwitch.SwitchServes | app/src/player/audioGraph.ts:374-413 | A switch from sound banks leads to its request |
| EqualizerSwitch.TakePendingServes | app/src/player/audioGraph.ts:364-371 | Taking up the parked request keeps leading to the wanted signature |
| EqualizerSwitch.FireServes | app/src/player/audioGraph.ts:350-372 | So does a finish timer, whenever it fires |
| EqualizerSwitch.ForceFlatHolds | app/src/player/audioGraph.ts:415-432 | Forcing Flat leaves one Flat bank, no transition and nothing parked |
| EqualizerSwitch.EnsureContextKeeps | app/src/player/audioGraph.ts:434-466 | Creating the audio context, or failing to, keeps the invariant |
| EqualizerSwitch.TapKeeps | app/src/player/audioGraph.ts:472-494 | So does attaching an element, or failing to |
| EqualizerSwitch.SetRequestKeeps | app/src/player/audioGraph.ts:527-569 | So does a request |
| EqualizerSwitch.NextKeeps | app/src/player/audioGraph.ts:328-569 | Every step keeps the invariant |
| SwitchActions.BankSays | app/src/player/audioGraph.ts:176-189 | A bank reports its own request and plan, and is unsupported only when built Flat after a failed attachment |
| SwitchActions.PendingSays | app/src/player/audioGraph.ts:110-127 | Before there is a graph listeners are told of Flat, pending, or unsupported after any failure |
| SwitchActions.SwitchIs | app/src/player/audioGraph.ts:374-413 | Suspended, a request replaces the bank at once; during a switch it is parked in place of any other; otherwise a switch to it begins, for a twenty-fifth of a second, under the next token with its timer armed |
| SwitchActions.TimerIs | app/src/player/audioGraph.ts:350-372 | A timer of another switch does nothing; its own comes back while more than two milliseconds of the fade remain, and otherwise hands over and takes up the parked request |
| SwitchActions.ForceFlatIs | app/src/player/audioGraph.ts:415-432 | Forcing Flat leaves one Flat bank at full gain, nothing parked, and tells of an unsupported equalizer and the wanted profile |
| SwitchActions.ContextIs | app/src/player/audioGraph.ts:434-466 | The context is made once, with a Flat bank at full gain; when it cannot be made or set up the equalizer is unavailable, which is told |
| SwitchActions.TapIs | app/src/player/audioGraph.ts:472-494 | An element is tapped once; from the second on the wanted request is switched to unless one has failed, and a failure makes the graph Flat for good |
| SwitchActions.AskIs | app/src/player/audioGraph.ts:545-569 | A request that sounds like the last only replaces it; another is announced until two elements are tapped, makes the graph Flat again after a failure, and is switched to otherwise |
| SwitchLaws.RunKeepsInv | app/src/player/audioGraph.ts:328-569 | The invariant holds in every reachable state |
| SwitchLaws.LatestRequestWins | app/src/player/audioGraph.ts:350-413 | On every run the last of parked, incoming and active carries the signature of the last request |
| SwitchLaws.AtMostTwoBanks | app/src/player/audioGraph.ts:328-413 | On every run one bank is connected at rest and two during a switch, whose outgoing side is the active bank; a parked request implies a switch |
| SwitchLaws.OutputsNeverOverlap | app/src/player/audioGraph.ts:374-413 | During a switch of any run the two outputs are never both audible, and after its end only the incoming bank sounds, at full gain |
| SwitchLaws.FailureMeansFlat | app/src/player/audioGraph.ts:415-494 | After a failed attachment every reachable state is Flat at rest and reports it |
| SwitchLaws.StaleTimerIsIdle | app/src/player/audioGraph.ts:350-353 | The timer of an earlier switch changes nothing |
| SwitchLaws.TokensAreFresh | app/src/player/audioGraph.ts:374-413 | On every run a switch that begins has a token that no timer or switch before it carried |
| SwitchLaws.SuspendedFireWork | app/src/player/audioGraph.ts:350-372 | A timer that finds the context suspended completes the switch and the parked request at once |
| SwitchLaws.AtMostTwoMoreTransitions | app/src/player/audioGraph.ts:350-413 | After the final request at most two more transitions complete, and with none left the bank of that request sounds |
| SwitchLaws.TimerMakesProgress | app/src/player/audioGraph.ts:350-413 | A switch is never stranded: its own timer is outstanding and completes it once the fade is over or the context is suspended |
| AudioGraph.EqualizerGraph.BuildBank | app/src/player/audioGraph.ts:192-301 | The new bank is wired with its preset gain and nothing else changes |
| AudioGraph.EqualizerGraph.SettleTransition | app/src/player/audioGraph.ts:328-338 | The in-place updates are those of the settling step |
| AudioGraph.EqualizerGraph.ReplaceBankImmediately | app/src/player/audioGraph.ts:340-348 | The in-place updates are those of the replacement step |
| AudioGraph.EqualizerGraph.FinishTransition | app/src/player/audioGraph.ts:350-372 | The in-place updates are those of the finishing step |
| AudioGraph.EqualizerGraph.SwitchBank | app/src/player/audioGraph.ts:374-413 | The in-place updates are those of the switching step |
| AudioGraph.EqualizerGraph.ForceFlatUnsupported | app/src/player/audioGraph.ts:415-432 | The in-place updates are those of the Flat step |
| AudioGraph.EqualizerGraph.EnsureAudioContext | app/src/player/audioGraph.ts:434-466 | The in-place updates are those of context creation |
| AudioGraph.EqualizerGraph.AttachElement | app/src/player/audioGraph.ts:472-494 | The in-place updates are those of the attaching step |
| AudioGraph.EqualizerGraph.SetEqualizerProfile | app/src/player/audioGraph.ts:527-569 | The in-place updates are those of the request step |
| AudioGraph.EqualizerGraph.Dispatch | app/src/player/audioGraph.ts:328-569 | One turn of the event loop is one step of the state machine and keeps the invariant |
| DeckLaws.PlayNowKeeps | app/src/player/deck.ts:208-266 | Playing a track keeps the deck invariant |
| DeckLaws.PlayNowStarts | app/src/player/deck.ts:208-266 | The requested track becomes current, its element plays from its source, and nothing is armed or parked |
| DeckSound.PlayNowCuts | app/src/player/deck.ts:208-241 | Without a fade the requested track plays at once on the same element, from its source, with its own gain, at full fade and with no ramp |
| DeckSound.PlayNowFades | app/src/player/deck.ts:214-266 | With a fade it starts silently on the other element, to fade in over at most a second and a half once it plays, while the outgoing one plays on, fades out and is dropped unreported |
| DeckLaws.SyncPreloadKeeps | app/src/player/deck.ts:273-297 | Preloading keeps the invariant and leaves the active element alone |
| DeckLaws.FinalizeKeeps | app/src/player/deck.ts:506-524 | Finishing a retirement keeps the invariant and leaves the active element alone |
| DeckLaws.GaplessSwapKeeps | app/src/player/deck.ts:413-443 | A gapless swap keeps the invariant though it clears the retirement itself |
| DeckLaws.GaplessSwapLogs | app/src/player/deck.ts:413-443 | The swap is announced before the retirement it reports |
| DeckLaws.CrossfadeStartedKeeps | app/src/player/deck.ts:471-503 | A crossfade whose promise resolves, in time or late, keeps the invariant |
| DeckLaws.NextKeeps | app/src/player/deck.ts:208-557 | Every step in every environment keeps the invariant |
| DeckLaws.RolesOverEveryRun | app/src/player/deck.ts:208-557 | On every run the retiring element is the other one, retiring excludes a preload, a parked preload implies a retirement, and only the retiring element fades out |
| DeckLaws.HandoffsAreConserved | app/src/player/deck.ts:413-524 | Without reset or destroy, swaps minus retirements is one while a notifying retirement is outstanding and none otherwise; each swap precedes its own retirement |
| DeckLaws.SlotsSwapOnce | app/src/player/deck.ts:367-503 | No preloaded slot is swapped in twice, however promises resolve |
| DeckLaws.LateCrossfadeIsIdle | app/src/player/deck.ts:471-503 | When `ended` has beaten a crossfade, its late promise at most pauses the element that is not active |
| DeckLaws.OthersLeaveActiveAlone | app/src/player/deck.ts:273-557 | Preloading, cleanup, late promises, errors and position updates never pause, mute, retune or reload the active element |
| DeckLaws.RetirementEnds | app/src/player/deck.ts:506-557 | The fade-out's last tick silences and stops the element and reports a natural handoff once |
| DeckLaws.ParkedPreloadIsApplied | app/src/player/deck.ts:506-524 | A preload parked during the fade is applied as requested to the freed element |
| DeckLaws.CrossfadeWindow | app/src/player/deck.ts:445-469 | A crossfade lasts all that remains, within the preferred length and half of a track that is long enough, and more than a tenth of a second |
| DeckSound.PreloadIs | app/src/player/deck.ts:273-297 | A preload is ignored on a destroyed deck, cleared without item or source, left alone if armed, parked during a fade-out, and otherwise loaded silent and stopped on the element that is not active |
| DeckSound.PauseStops | app/src/player/deck.ts:309-312 | Pausing stops the active element as loud as it is and ends a fade-out |
| DeckSound.ResetEmpties | app/src/player/deck.ts:326-340 | A reset empties and stops both elements, ends every fade, forgets every preload, and leaves the active element at full fade |
| DeckSound.EndSwapsOrFallsBack | app/src/player/deck.ts:367-443 | At the end, with gapless on and a standby armed and buffered, that plays at once at full fade as the current track, swap before retirement; otherwise only the end is announced |
| DeckSound.OtherEvents | app/src/player/deck.ts:367-401 | The end of the other element ends its fade-out; an error of the active one is announced, of a retiring one ends its fade-out, of a standby drops its preload |
| DeckSound.TimeStartsCrossfade | app/src/player/deck.ts:361-365 | A position update starts a crossfade exactly once per boundary, while the element plays and a standby can take over, when all that remains, more than a tenth of a second, fits the preferred length and half of a track of ten seconds or more, with neither side an episode nor the two consecutive under smart albums |
| DeckSound.CrossfadeSettles | app/src/player/deck.ts:471-503 | A crossfade that starts in time swaps the roles with one fading in and the other out; too late it stops the stray start unless that is active by now; refused it opens the boundary again |
| DeckSound.StartSettles | app/src/player/deck.ts:238-264 | A refused start is announced, a refused gapless one asks for recovery while it matters, and a fade-in begins only on the element still active |
| DeckSound.TickMoves | app/src/player/deck.ts:539-557 | A tick puts the fade where it belongs and ends a fade-in that is over |
| DeckSound.RetirementSays | app/src/player/deck.ts:506-518 | A natural handoff is reported at its position, as complete if ended or within a second of a known end |
| DeckSound.OneIsHeard | app/src/player/deck.ts:208-557 | On every run the active element is at full fade, fading in, or about to once it plays, unless it has refused to play since; and the other one is silent, fading out, or has played to its end |
| PlaybackDeck.PlaybackDeck.constructor | app/src/player/deck.ts:150-189 | The deck adopts the second element if that is playing and the first otherwise, at full gain, and meets its invariant |
| PlaybackDeck.PlaybackDeck.PlayNow | app/src/player/deck.ts:208-266 | The in-place updates are those of the playing step |
| PlaybackDeck.PlaybackDeck.SyncPreload | app/src/player/deck.ts:273-297 | The in-place updates are those of the preloading step |
| PlaybackDeck.PlaybackDeck.Pause | app/src/player/deck.ts:309-312 | The in-place updates are those of the pausing step |
| PlaybackDeck.PlaybackDeck.Resume | app/src/player/deck.ts:315-318 | The in-place updates are those of the resuming step |
| PlaybackDeck.PlaybackDeck.Reset | app/src/player/deck.ts:326-340 | The in-place updates are those of the resetting step |
| PlaybackDeck.PlaybackDeck.Destroy | app/src/player/deck.ts:343-350 | The in-place updates are those of the destroying step |
| PlaybackDeck.PlaybackDeck.HandleTime | app/src/player/deck.ts:361-365 | The in-place updates are those of the position step |
| PlaybackDeck.PlaybackDeck.HandleEnded | app/src/player/deck.ts:367-384 | The in-place updates are those of the ended step |
| PlaybackDeck.PlaybackDeck.HandleError | app/src/player/deck.ts:386-401 | The in-place updates are those of the error step |
| PlaybackDeck.PlaybackDeck.GaplessSwap | app/src/player/deck.ts:413-443 | The in-place updates are those of the gapless swap |
| PlaybackDeck.PlaybackDeck.StartCrossfade | app/src/player/deck.ts:471-480 | The standby starts silently and its promise is outstanding |
| PlaybackDeck.PlaybackDeck.OnCrossfadeStarted | app/src/player/deck.ts:480-503 | The in-place updates are those of the resolved crossfade |
| PlaybackDeck.PlaybackDeck.FinalizeRetiring | app/src/player/deck.ts:506-524 | The in-place updates are those of the finished retirement |
| PlaybackDeck.PlaybackDeck.OnRampTick | app/src/player/deck.ts:539-557 | The in-place updates are those of the fade tick |
| PlaybackDeck.PlaybackDeck.Dispatch | app/src/player/deck.ts:208-557 | One turn of the event loop is one step of the state machine and keeps the invariant |
| PlayRecords.SwapShowsItemIffQueued | app/src/player/store.ts:411-418 | After a swap the store shows the swapped-in item exactly when it is still queued |
| PlayRecords.CallbackIs | app/src/player/store.ts:402-449 | What each callback submits: the shown track past half a minute or half its length, not completed; at the end without a standby, completed; the retired one, completed if it reached the end, unless a guard names it; each once, with id, listen and milliseconds |
| PlayRecords.UpdatesCountOnce | app/src/player/store.ts:600-616 | However many position updates, an open guard lets through exactly one play, of the shown track, and none unless one crosses the threshold |
| PlayRecords.SwappedListenCounts | app/src/player/store.ts:402-437 | The exact number of plays of a swapped-in listen: one for the threshold, of the shown track, and one for the retirement unless a guard names its track |
| PlayRecords.CountedOnceIffQueued | app/src/player/store.ts:402-437 | For any position updates during and after a swapped-in listen, any retirement position and either kind of session, it is submitted at most once exactly when its track is still queued, or nothing countable at the armed index crosses the threshold, or the retirement may not count or is taken for one already counted |
| SessionLaws.NextKeeps | app/src/player/store.ts:234-451 | Every step of store and deck keeps the play count invariant, except selecting a track without playing it, which keeps it exactly if it is harmless |
| SessionLaws.RunKeepsInv | app/src/player/store.ts:234-451 | The invariant holds after every run of harmless steps from any state that meets it |
| SessionLaws.AtMostOnePlayPerListen | app/src/player/store.ts:588-616 | On every run of the player in which selected tracks are played, or left unplayed only harmlessly, at most one play is submitted per listen, across threshold, migrated guard and retirement, whatever happens to the queue |
| SessionLaws.ActKeeps | app/src/player/store.ts:358-455 | Every element event, fade tick, promise and pause, with the callbacks it makes, keeps the invariant and moves only deck, guards and index |
| SessionLaws.PlayKeeps | app/src/player/store.ts:713-719 | A `playNow` of the shown track begins a listen that meets the invariant, whether or not the guard is set, as long as a set guard names that track |
| SessionLaws.ToggleKeeps | app/src/player/store.ts:292-312 | Turning shuffle on or off keeps the invariant, the armed slots' positions included |
| SessionLaws.SwapKeeps | app/src/player/store.ts:402-407 | Migrating the guard at a swap keeps the count of the outgoing and of the incoming listen |
| SessionGuards.HandedOffListenCounts | app/src/player/store.ts:426-437 | A natural handoff submits its listen exactly if the item may count, the listen was not shut out when it was swapped out, and the guard does not name its track for the listen under way |
| SessionGuards.FallbackListenCounts | app/src/player/store.ts:439-449 | The end without a standby submits the listen exactly if the shown track may count and the listen is not shut out by a guard set before it began |
| SessionGuards.NextTold | app/src/player/store.ts:588-724 | Every step of store and deck: the guard is set exactly by a countable record and cleared exactly by a selection or a swap; a listen begins shut exactly when its lookup comes late and finds the guard set |
| SessionGuards.GuardsOverEveryRun | app/src/player/store.ts:588-724 | On every run, whatever is selected and never played, the guard is set exactly if a countable position or end has come since the last selection or swap, and a listen is shut exactly if a late lookup began it in that time |
| SessionEnds.FallbackOnEveryRun | app/src/player/store.ts:439-451 | On every run from launch, a listen that ends without a standby has then been submitted exactly if it was before, or the shown track and session count and no late lookup shut it out |
| SessionEnds.HandoffOnEveryRun | app/src/player/store.ts:402-437 | On every run from launch without harmful selections, a listen whose natural end is reported has then been submitted exactly if it was before, or item and session count, no late lookup had shut it out when it was swapped out, and the guard does not name its track for the listen under way |
| LateLookups.NextBarred | app/src/player/store.ts:588-724 | A listen that guards and owed retirement cannot submit stays so over every step but a selection without its `playNow` |
| LateLookups.ArrivalDecides | app/src/player/store.ts:706-719 | The guard a late lookup finds set names its own track; the listen it begins then cannot be submitted on any run until another selection is left unplayed, and otherwise it can, unless it is of an episode |
| LateLookups.LateListenOnEveryRun | app/src/player/store.ts:706-719 | On every run from launch, the listen a late lookup begins can still be submitted exactly if nothing countable has crossed the threshold since the last selection or swap, episodes aside |
| LateLookups.LateLookupShutsOut | app/src/player/store.ts:706-719 | A run from launch of harmless steps: the playing track is reselected, crosses the threshold before its lookup succeeds, and the listen then begun is never submitted |
| SessionLaws.StepReports | app/src/player/deck.ts:208-557 | Of the callbacks of one step only the first can be a load or a swap, a swap is of the armed slot and disarms it, and slots are armed by preloading alone |
| SessionActions.StepIs | app/src/player/store.ts:234-451 | What every step does to queue, index, shuffle, repeat, guards and deck; what is armed is dropped at once with gapless off or nothing next when shuffle or repeat change |
| SessionActions.SwapMoves | app/src/player/store.ts:411-418 | A swap moves the index to the armed place if the item still stands there, else to its first place in the queue, else to the armed place after all |
| SessionActions.SelectIs | app/src/player/store.ts:694-708 | Selecting moves the index and opens the guard, only with a track there and a deck |
| SessionActions.ArriveIs | app/src/player/store.ts:712-719 | A late lookup plays its track exactly if that is the one shown |
| SessionTruth.NextTells | app/src/player/store.ts:234-451 | Every step that plays what it selects keeps the store showing what is heard, slots queued and guards exact |
| SessionTruth.StoreShowsWhatIsHeard | app/src/player/store.ts:234-451 | On every run in which selected tracks are played, the store shows the track heard or nothing, armed and parked slots are of queued tracks unless the queue has been emptied, and the guard is set exactly when the listen has been submitted |
| SessionLaws.HarmlessIsSafe | app/src/player/store.ts:694-724 | Selecting a track whose `playNow` does not follow is safe exactly when the track may not count or is the one heard and not yet submitted, no submitted listen is left to retire, and the armed slots stay in order |
| SessionLimits.UnsafeCountsTwice | app/src/player/store.ts:588-616 | From every unsafe state with an open guard and a track shown, some run in which every further selection is played submits a listen twice |
| SessionLimits.ExactlyHarmless | app/src/player/store.ts:694-724 | In any state that meets the invariant, selecting a track without playing it is harmless exactly when no run from there on, its further selections played, submits a listen twice |
| SessionLimits.RefusedLookupCountsTwice | app/src/player/store.ts:706-723 | A run from launch: the current track is reselected after its threshold, the lookup is refused, and its listen is submitted twice |
| SessionLimits.StaleIndexCountsTwice | app/src/player/store.ts:411-418 | A run from launch: the queue is replaced while a track is armed, the lookup is refused, and the swapped-in listen is submitted twice |
| PlayRecords.PlayRecorder.SubmitPlay | app/src/player/store.ts:588-597 | Episodes and sessions without a user submit nothing; otherwise one play is added, with its id, its position to the nearest millisecond, none below zero, and whether it was completed |
| PlayRecords.PlayRecorder.RecordPlayOf | app/src/player/store.ts:600-606 | Records once per guard |
| PlayRecords.PlayRecorder.MaybeRecordPlayOf | app/src/player/store.ts:609-616 | Records only past 30 seconds or half the track |
| PlayRecords.PlayRecorder.Swapped | app/src/player/store.ts:402-407 | The guard migrates to the retiring listen |
| PlayRecords.PlayRecorder.Retired | app/src/player/store.ts:426-437 | Submits the retired listen unless a guard names it |
| PlayRecords.PlayRecorder.Selected | app/src/player/store.ts:707-708 | Selecting a track clears the guard |
| PlayRecords.PlayRecorder.On | app/src/player/store.ts:358-455 | One callback, or a `playNow`, is one step of the recorder; a `playNow` leaves the guards alone |
| Decimals.ReadLiteralIs | app/src/equalizer/format.ts:8 | A text is at most one match of the number pattern, and reading finds it exactly when there is one |
| Decimals.PrintIsExact | app/src/equalizer/format.ts:189-192 | The printed literal denotes exactly the number printed, in every notation, but for the sign of zero |
| Decimals.ValueIs | app/src/equalizer/format.ts:40-59 | A decimal is its signed mantissa, times ten for each one in its exponent |
| Decimals.LiteralValue | app/src/equalizer/format.ts:8 | A literal is worth its signed digits, with as many places as its fraction is long, moved by its exponent |
| Decimals.NotationIs | app/src/equalizer/format.ts:189-192 | Numbers from a millionth to below ten to the 21 are printed plainly, others with an exponent, each with just the places and digits it needs |
| Decimals.NumberRoundTrip | app/src/equalizer/format.ts:40-59 | Reading the printed text gives the number back, negative zero as zero |
| Decimals.TextIsShort | app/src/equalizer/format.ts:189-192 | A printed number has at most 25 characters |
| Patterns.ScanIsMatch | app/src/equalizer/format.ts:8-13 | For a separated pattern the scanner finds groups exactly when the pattern matches with those groups, so a backtracking engine can return nothing else |
| Patterns.FilterIsSeparated | app/src/equalizer/format.ts:10-13 | In the filter pattern no run can begin where the run before it could go on |
| Patterns.PreampIsSeparated | app/src/equalizer/format.ts:9 | The same for the preamp pattern |
| Patterns.FilterGroupsFit | app/src/equalizer/format.ts:10-13 | Every match of the filter pattern has six groups, each fitting its place |
| Patterns.PreampGroupFits | app/src/equalizer/format.ts:9 | Every match of the preamp pattern has one group, a number |
| ParametricEq.ExecIsMatch | app/src/equalizer/format.ts:89-105 | The two exec calls return exactly what the patterns match |
| ParametricEq.KindsAreDisjoint | app/src/equalizer/format.ts:86-105 | Comments, preamp lines and filter lines exclude one another |
| ParametricEq.ErrorsEndTheRun | app/src/equalizer/format.ts:84-172 | Nothing after the first error changes it |
| ParametricEq.ParseLine | app/src/equalizer/format.ts:86-171 | What one line does to preamp, numbers and bands, or which error it raises |
| ParametricEq.ParseEqualizerText | app/src/equalizer/format.ts:65-187 | The loop computes the fold of the lines: a whole profile or the first error with its line |
| ParametricEq.SerializeEqualizerText | app/src/equalizer/format.ts:195-208 | A text exactly when every value is finite and every band peaking, otherwise the error of the first offender |
| ParametricEqLaws.StepIs | app/src/equalizer/format.ts:86-171 | A line is taken exactly when what it says is admitted by the lines before it |
| ParametricEqLaws.TakeIs | app/src/equalizer/format.ts:84-172 | Items taken one after the other are summed up, and are refused exactly when they are not good or too many |
| ParametricEqLaws.RunIs | app/src/equalizer/format.ts:84-172 | After any number of lines the parser has exactly their preamp, numbers and bands, or they are not good |
| ParametricEqLaws.AcceptsExactly | app/src/equalizer/format.ts:65-187 | A text is accepted exactly when it is within the limits, every line is a comment, preamp or filter in range, there is at most one preamp, no number twice, and 1 to 32 bands; the result is read off the lines |
| ParametricEqLimits.AcceptsByTheNumbers | app/src/equalizer/format.ts:65-187 | A text is accepted exactly when it is at most 65536 bytes and 512 lines long, every line says nothing or is a preamp or filter within its limits, no two clash, and 1 to 32 are filters |
| ParametricEqLimits.PreampItemIs | app/src/equalizer/format.ts:89-103 | A line is taken as a preamp exactly when it reads as a number from -30 to 12 |
| ParametricEqLimits.FilterItemIs | app/src/equalizer/format.ts:105-163 | A line is taken as a filter exactly when its number is from 1 to 2^53 - 1, its kind PK, its frequency from 10 to 20000, its gain from -24 to 24 and its q from 0.1 to 30, and the band has these values |
| ParametricEqLimits.PreampGrammar | app/src/equalizer/format.ts:9 | The preamp pattern matches exactly the lines of the written-out grammar |
| ParametricEqLimits.FilterGrammar | app/src/equalizer/format.ts:10-13 | The filter pattern matches exactly the lines of the written-out grammar, with these groups |
| ParametricEqLimits.CommentsChangeNothing | app/src/equalizer/format.ts:86-87 | Blank lines, and lines whose first character that is not blank is a number sign or a semicolon, change nothing |
| ParametricEqLimits.LineFaults | app/src/equalizer/format.ts:86-171 | Which error each line raises, in which order, and that it names its line |
| ParametricEqLimits.TextFaults | app/src/equalizer/format.ts:65-177 | The error of a text: its size, then its number of lines, then the first line at fault, and last that there is no filter |
| ParametricEqLimits.LinesAre | app/src/equalizer/format.ts:76 | The lines joined with their line ends give the text; no line holds a line feed or a carriage return of its line end |
| ParametricEqLimits.BytesAre | app/src/equalizer/format.ts:66 | The size is that of the text in UTF-8 |
| ParametricEqLimits.TrimIs | app/src/equalizer/format.ts:86 | Trimming takes away the white space on both sides and nothing else |
| ParametricEqRoundTrip.PreampLineMatches | app/src/equalizer/format.ts:198 | The printed preamp line matches its pattern with the printed number |
| ParametricEqRoundTrip.BandLineMatches | app/src/equalizer/format.ts:203-205 | A printed band line matches the filter pattern with exactly its printed fields |
| ParametricEqRoundTrip.SplitLines | app/src/equalizer/format.ts:75-76 | Splitting joined lines gives the lines back |
| ParametricEqRoundTrip.SerializedIs | app/src/equalizer/format.ts:195-208 | The printed text has one line per band besides the preamp line and stays far below the size limit |
| ParametricEqRoundTrip.SerializeParseRoundTrip | app/src/equalizer/format.ts:65-208 | Printing a valid profile and parsing the text succeeds and returns its preamp and bands, numbered 1..n, with negative zero as zero |
| ParametricEqRoundTrip.ParsedIsValid | app/src/equalizer/format.ts:65-187 | Every accepted text gives a profile within all limits, of 1 to 32 bands numbered 1..n |
| ParametricEqRoundTrip.ParseSerializeParse | app/src/equalizer/format.ts:65-208 | For every accepted text, parsing the printed form of its profile gives the same profile |
| ParametricEqRoundTrip.PrintingIsCanonical | app/src/equalizer/format.ts:195-208 | Printing what was parsed from a printed text gives that text again |
| DiscGroups.StableSortIsOne | app/src/routes/Album.tsx:114-121 | The sort lists the tracks by ascending number, those without one last, ties in input order |
| DiscGroups.StableSortIsUnique | app/src/routes/Album.tsx:114-121 | That order is the only one, whatever algorithm sorts |
| DiscGroups.FillBuckets | app/src/routes/Album.tsx:100-106 | The map holds one non-empty bucket per disc met, in input order, and its keys are listed once each |
| DiscGroups.GroupTracksByDisc | app/src/routes/Album.tsx:99-125 | Discs strictly ascend and none is missing; each group starts where those before it end and lists exactly its disc of the album, a track without a disc number being on disc 1, by track number, those without one last, and otherwise in album order |
| DiscGroups.GroupIsStable | app/src/routes/Album.tsx:112-121 | Within a group tracks ascend by number, those without one last, ties in input order |
| DiscGroups.GroupCounts | app/src/routes/Album.tsx:99-125 | A group holds every track of its disc as often as the album does, and no other |
| DiscGroups.OrderedIsPermutation | app/src/routes/Album.tsx:261-262 | The flattened order is a permutation of the album |
| DiscGroups.StartIndexIsWhere | app/src/routes/Album.tsx:122-123 | A group is the stretch of the flattened order that begins at its start index |
| PlayOrder.AdvanceIsForetold | app/src/player/store.ts:671-748 | The look-ahead index and the advance agree exactly when there is a current position and, under repeat-one, a track at it |
| PlayOrder.PreviousUndoesAdvance | app/src/player/store.ts:265-276 | Skipping back undoes skipping ahead exactly within the first three seconds and unless repeat-one is on away from the start |
| PlayOrder.PreviousIs | app/src/player/store.ts:265-276 | Skipping back restarts past three seconds, else plays the track before, or at the start the last one under repeat-all and the first one again otherwise |
| PlayOrder.AdvanceIs | app/src/player/store.ts:671-691 | Advancing plays the same track under repeat-one, else the next, or at the end the first under repeat-all and stops otherwise |
| PlayOrder.NextIndexIs | app/src/player/store.ts:741-748 | What is looked ahead to, in every mode, at the end and without a current position |
| PlayOrder.RepeatOffPlaysTheRest | app/src/player/store.ts:671-691 | Without repeat the run visits the rest of the queue in order and stops |
| PlayOrder.RepeatAllGoesRound | app/src/player/store.ts:671-691 | With repeat-all the run never stops and each track follows the one before it, round the end |
| PlayOrder.RepeatAllVisitsEach | app/src/player/store.ts:671-691 | With repeat-all, n advances visit each position once and return to the start |
| PlayOrder.ShuffleInPlace | app/src/player/store.ts:826-830 | The descending swaps in the array compute the shuffle function of the picks |
| PlayOrder.ApplyShuffle | app/src/player/store.ts:818-833 | The start track, when in range, followed by the shuffled others |
| PlayOrder.ShuffleKeepsTracks | app/src/player/store.ts:818-833 | Whatever the random outcomes the result is a permutation with the start track in front |
| PlayOrder.EveryOrderIsReachable | app/src/player/store.ts:826-830 | Every order of the tracks is the outcome of some random choices |
| PlayOrder.PicksAreDetermined | app/src/player/store.ts:826-830 | Different choices give different orders of distinct tracks, so no order is favoured |
| PlayOrder.EveryShuffleIsReachable | app/src/player/store.ts:818-833 | Behind the start track every order of the others can come out |
| PlayOrder.PlayerQueue.LoadAndPlay | app/src/player/store.ts:694-706 | An index without a track changes nothing |
| PlayOrder.PlayerQueue.AdvanceQueue | app/src/player/store.ts:671-691 | The store's fields and what the deck is told after an advance |
| PlayOrder.PlayerQueue.SkipBack | app/src/player/store.ts:265-276 | The index and what the deck is told after skipping back, with the restart past three seconds |
| PlayOrder.PlayerQueue.ToggleShuffle | app/src/player/store.ts:292-312 | The tracks and the current track stay; the order changes only when shuffling is turned on away from the start |
| PlayOrder.PlayerQueue.PlayQueue | app/src/player/store.ts:234-242 | The chosen track plays, shuffled to the front or where it is, over a permutation of the tracks |
| ResolvedEvents.EventsDeliver | app/src/equalizer/store.ts:233-250 | What the store shows after a run of events is what they deliver in turn |
| ResolvedEvents.DeliverIsNewest | app/src/equalizer/store.ts:80-86 | In any order and multiplicity, events end at the largest generation of the current scope; other scopes and unparsable generations never enter |
| ResolvedEvents.OrderDoesNotMatter | app/src/equalizer/store.ts:233-250 | Two deliveries of the same events end the same |
| ResolvedEvents.OrderMattersExactly | app/src/equalizer/store.ts:233-250 | All deliveries of one set of events end the same exactly when the accepted events of the largest generation are all equal |
| ResolvedEvents.RunKeepsInv | app/src/equalizer/store.ts:190-386 | On every run the store is loading exactly while its newest load is in flight |
| ResolvedEvents.OnlyTheNewestLoadInstalls | app/src/equalizer/store.ts:190-366 | Until the next load or scope change, whatever calls are answered in whatever order, the snapshot is that of the last step allowed to set it, the newest load or a write that holds no ticket, but for preferences shown early |
| ResolvedEvents.OvertakenLoadIsIdle | app/src/equalizer/store.ts:190-218 | An overtaken load changes nothing, whether it succeeds or fails |
| ResolvedEvents.LoadInstalls | app/src/equalizer/store.ts:198-213 | The newest load installs snapshot, conflicts and resolution, without the profile and with a message exactly when the format is marked newer or is synced and not version 2 |
| StoreActions.EventIs | app/src/equalizer/store.ts:233-250 | An event is shown with its output exactly if it has the scope shown and a larger generation; it ends an audible preview, reported as stopped, and keeps the draft |
| StoreActions.LoadsEndOnce | app/src/equalizer/store.ts:190-218 | On every run a load is in flight from its beginning to its one end |
| StoreActions.WritesAreAnsweredOnce | app/src/equalizer/store.ts:355-366 | On every run each preference write is answered at most once, and what a refused one puts back is what a write of the run had found |
| ResolvedEvents.ChangeForgets | app/src/equalizer/store.ts:268-386 | After a scope change and until the next load, a resolution is shown exactly if a mutation, preference write or manual override was answered since, and of the scope of the last one; a snapshot is shown exactly if one was written and not taken away by a refused preference write; no older load or event brings anything back |
| ResolvedEvents.EqualizerStore.AcceptResolvedEvent | app/src/equalizer/store.ts:233-250 | The fields after an event, and nothing changed unless it is of this scope and newer |
| ResolvedEvents.EqualizerStore.BeginLoading | app/src/equalizer/store.ts:190-192 | A load takes a new ticket |
| ResolvedEvents.EqualizerStore.FinishLoading | app/src/equalizer/store.ts:198-213 | Installs only with the newest ticket, without a profile for unsupported formats |
| ResolvedEvents.EqualizerStore.FailLoading | app/src/equalizer/store.ts:213-217 | Reports only with the newest ticket |
| ResolvedEvents.EqualizerStore.InstallOverride | app/src/equalizer/store.ts:368-386 | The answer to a manual override is installed without a ticket |
| ResolvedEvents.EqualizerStore.BeginSettingPreferences | app/src/equalizer/store.ts:355-357 | The preferences are shown at once and the snapshot found is kept |
| ResolvedEvents.EqualizerStore.FinishSettingPreferences | app/src/equalizer/store.ts:358-361 | The fresh snapshot is installed without a ticket |
| ResolvedEvents.EqualizerStore.RefusePreferences | app/src/equalizer/store.ts:362-365 | The snapshot found at the start is put back |
| ResolvedEvents.EqualizerStore.ResetForScopeChange | app/src/equalizer/store.ts:268-284 | Clears every field and takes a new ticket |
| RouteDebounce.RouteDebouncer.Hint | app/src-tauri/src/lib.rs:89-92 | The timer keeps the number of its hint, modulo 2^64 |
| RouteDebounce.RouteDebouncer.TimerFires | app/src-tauri/src/lib.rs:93-101 | A timer refreshes exactly when the hints since its own are a multiple of 2^64 |
| RouteDebounce.OnlyTheNewestRefreshes | app/src-tauri/src/lib.rs:89-102 | The newest hint's timer always refreshes and one overtaken by fewer than 2^64 hints never does |
| RouteDebounce.RefreshesExactly | app/src-tauri/src/lib.rs:93-101 | A timer refreshes exactly if the hints since its own are none or a multiple of 2^64 |
| RouteDebounce.RefreshesAscend | app/src-tauri/src/lib.rs:89-102 | On any run of fewer than 2^64 hints the timers that refresh do so in the order of their hints, each at most once |
| RouteDebounce.BurstRefreshesOnce | app/src-tauri/src/lib.rs:89-102 | After a burst, in whatever order its timers fire, exactly the last hint's timer refreshes |

## Left out

- SessionLaws.AtMostOnePlayPerListen: a run is one binding of a deck; what the guards hold when `_bind` replaces a deck is not carried over. The environment may fire any element event at any time, so runs include orders that browsers do not produce.
- The fallback's `advance` and the reload in `onRecover` are load steps that may follow their callback; `armPreload` drops what is armed at once in its own steps and when shuffle or repeat change, and arms in a later step that repeats its check.
- SessionTruth.StoreShowsWhatIsHeard: a selection that is not played shows another track than the one heard by its nature, so these runs have none.
- Decimals.NumberRoundTrip: IEEE rounding is a parameter; that a double prints as its shortest decimal and that this decimal rounds back to it is the hypothesis `Rounds`, met by at least one rounding (`SomeRoundingRounds`).
- Real numbers stand for doubles in the rollback state, the frequency grid and the responses: no rounding, no NaN there, but for the rounding of grid frequencies to 32 bits, which is a parameter of the device. Percentages and profile values at the equalizer's entry may be non-finite.
- `peakingMagnitude`, `dbToLinear`, the sweep's powers, `fadeInGain` and `fadeOutGain` are parameters or symbolic shapes.
- `canonical_casefold` and its Unicode tables: `profile_name_key` is a parameter.
- Name uniqueness, revision bumps and audit rows on rollback belong to the database layer, which is not part of this model.
- SignatureText.SameTextSamePlan: assumes of each number that its shortest decimal is its exact value (`IsDecimal`), as for the imported text. Strings hold no lone surrogates.
- `buildBank` throwing part-way through `attach`, and the sample rate and profile name shown in diagnostics.
- Master volume, replay gain values, seeking, resume positions and episode progress of the deck and store.
- Callbacks run as steps of their own: `syncPreload(null)` called from within `onSwapped` follows the swap instead of interrupting it.
- `armPreload` keeps an old preload armed while the new next track is not local; the deck's laws hold for whatever slot is armed, so the model does not say which.
- A late `play()` promise of a manual skip may restart the fade-in of the element that is active again; the frame law for the active element lists this step as acting on it.
- Lone surrogates in imported text: strings are sequences of Unicode scalar values. Error messages beyond their code and line, and `profileNameFromFile`.
- Album headers, per-disc numbering on screen and everything else React renders.
- The list of outputs, the `saving` flag, the error cleared when a mutation starts, and the preview fields that a finished mutation clears in the equalizer store.
- The 650 ms delay itself: a timer may fire at any later time.
- Lyrics search, recents, favourites, notifications, downloads: little state of their own outlives a call.
