# Measurement and decision core of SurgeGuard: a verified model

SurgeGuard turns the tracks of people seen by a camera into crowd measurements, a Crowd Stability Index, queue and zone
flow, forecasts and staffing advice. This project models the stateful arithmetic behind those figures, plus the login rate
limiter of the backend, and proves what the code's documentation says about them for all inputs and all runs.

The model follows the program file by file. What the program computes by expressions is a function here; what it does by
updating objects step by step is a class whose methods are proved to refine a specification function on its state; what is
promised over whole runs is a lemma about that function folded over the inputs. Ghost histories stand beside the bounded
queues and counters, so that "everything since the last reset" can be talked about.

Modules, by the part of the system they belong to:

- Zone transitions (`zones/transitions.py`): `Movements` (the book of one track and the pairing rule), `Transitions` (the
  whole tracker as a state machine over frames), `Projection` (one frame of the tracker is one step of each track),
  `Pruning`, `Conservation`, `TransitionTheorems`, `TransitionWindows`, `ZoneTotals`, `FirstSettling`, `ZoneStays` (what
  the frames alone say of each stay), `Pairing` (what the log alone says of each pair), `Remembered`, `ZoneReports`,
  `RecordOrder`, `PruningReports`, `OrderWitness`, and the imperative `ZoneTransitionTracker`.
- Queue flow (`queue/zone_flow.py`): `ZoneFlow`, `QueueStays`, and the imperative `ZoneFlowTracker`.
- Geometry (`queue/_spatial.py`): `Polygon`, `PolygonMeaning`, `PrincipalAxis`, `PrincipalDirection`, `Spacing`.
- Crowd analysis (`analysis/grid_crowd_analyzer.py`): `GridAnalyzer`, `GridMeaning`, `SpeedBaseline`, `Medians`.
- Stability (`stability/`): `Curves`, `Indicators`, `IndicatorReadings`, `StabilityIndex`, `Trend`, `Smoothing`,
  `Hysteresis`, `Assessor`, `AssessorRuns`; and from the decision engine `PriorityGate` and `PrimaryCauses`.
- Forecasting (`forecast/`): `Observations`, `Growth`, `Forecast`.
- Staffing and the site: `Allocator`, `Pressure`, `Headcount`.
- `Pipeline`: the analysis pipeline of one camera, put together from the analyser, the assessor and the zone tracker.
- `RateLimit`: the backend's login limiter.
- Shared: `Common`, `Choose`, `Window`, `Logs`, `Reals`.

Conventions. Time is a `real` number of seconds (minutes where the program counts minutes) and arithmetic is exact.
Numeric floors that the program writes as constants are kept (1e-12 and 1e-9 in the principal axis and the percentage
change, 1e-12 at the horizon, 1e-6 for a standing track), and so are the tolerances of its `math.isclose` comparisons of curve
knots and of the sum of weights. Square root and exponential are function values of which only the defining laws are assumed
(`Reals.IsSqrt`, `Reals.IsExp`). What the program rejects with `ValueError` on construction is a `requires` here; an answer
of `None` or an exception is an `Option`. Zone ids are integers, as they are only compared. The zones a person is inside
form a set in the program; every frame gives them as a sequence in an order left open, so all results hold for every order.
Login times may be read twice within one call, as the program does.

Where the code and its documentation part ways:

- Pruning in the transition tracker is meant to age out only movements that can no longer pair, and so to change no
  answer. Track by track that is proved. The order in which *different* tracks' movements of one frame are recorded can
  change, because a forgotten track that comes back moves to the end of the dictionary: `OrderWitness.PruningCanReorder`
  is a concrete run. `RecordOrder.RecordKeptIff` gives the exact condition, on the tracker's own dictionary: in every frame
  the tracks that leave a zone stand in it in the order in which they were first settled. Whenever it holds the reports
  agree too (`PruningReports.ReportFollowsRecord`), and it holds on every run in which no forgotten track comes back.
- The principal axis falls back to the first coordinate when its candidate vector is at most 1e-12 long, said to happen
  only for isotropic spread, where linearity is near zero. A short line along the second coordinate also has so short a
  candidate: `PrincipalDirection.ShortLineAcross` is reported at right angles to itself, with a linearity of one.
  `PrincipalDirection.DirectionVariesMostIff` says exactly when the direction reported is the principal one; with a floor
  of zero the fallback would be for isotropic spread and nothing else (`PrincipalDirection.NoCandidateIffIsotropic`).
- A curve is said to pass through its knots; knots with equal measurements are accepted, and then it does so exactly when
  they have equal pressures (`Curves.ThroughAllIffConsistent`).
- The allocator's configuration accepts a minimum service rate of zero or less; every plan then divides by zero
  (`Allocator.PlanFailsIffNoMinimum`).
- The allocator's configuration says that a close margin of 1.0 would reopen a counter on the next window; 1.0 is
  accepted, and `Allocator.FollowedPlanIsStable` shows that on unchanged measurements no margin does that.
- Departures are back-dated, so the rolling queues of both flow trackers may hold stale entries behind a fresh one. The
  results say what is in them exactly: a suffix of the history.

## Model

| member | source | states |
|---|---|---|
| TransitionTheorems.PruningLosesNothing | ai/surgeguard_ai/zones/transitions.py:281-304 | after any frames at any spacing, each track's sequence of counted entries, departures and recorded transitions is that of a tracker that never discards anything |
| TransitionTheorems.EntriesConserved | ai/surgeguard_ai/zones/transitions.py:228-279 | over every run each counted entry is in exactly one of: one transition, the waiting list, expired |
| TransitionTheorems.DeparturesConserved | ai/surgeguard_ai/zones/transitions.py:228-279 | the same for each departure |
| TransitionTheorems.PresencesConserved | ai/surgeguard_ai/zones/transitions.py:198-214 | per track and zone, presences begun less presences ended are the present ones, over every run |
| TransitionTheorems.TransitionsSound | ai/surgeguard_ai/zones/transitions.py:228-266 | every transition ever recorded leads to another zone, entered strictly after the stay in the first one began (`ZoneStays.PresencesDated` says what that time is), with its gap between minus the overlap and the largest gap, dated at the later of the two and with that gap or zero as its transit time |
| ZoneStays.StaysAreTold | ai/surgeguard_ai/zones/transitions.py:162-215 | over every run, pruned or not, a track is present in a zone if and only if the frames say that it stays there (seen inside, or out of sight for less than the grace period), since when and last seen when they say; and the beginnings and ends logged for it there are those of the frames, ends dated back |
| ZoneStays.PresencesDated | ai/surgeguard_ai/zones/transitions.py:198-214 | by the log alone: each presence dates from the last event that began a stay in its zone, one found at the start from the first time of the session; every departure carries the time of the beginning it ends |
| Pairing.PairingIsGreedy | ai/surgeguard_ai/zones/transitions.py:228-260 | by the log alone, over every run: each entry is paired at once with the latest departure waiting that the rule allows, each departure with the earliest entry, whenever there is one; nothing else is paired; and no pair the rule allows is left waiting |
| Remembered.ForgottenIffSpent | ai/surgeguard_ai/zones/transitions.py:281-304 | after every frame exactly those tracks are remembered that were seen within the grace period or of which something is present or pending, with the time last seen, and nothing pending is too old to pair |
| ZoneTotals.ZonePopulationConserved | ai/surgeguard_ai/zones/transitions.py:162-215 | per zone and over every run, baseline presences plus entries less exits are the current presences of all tracks |
| TransitionWindows.WindowsAreSuffixes | ai/surgeguard_ai/zones/transitions.py:281-306 | each rolling window is the suffix of the whole history from its first entry inside the window, so nothing in the window is missed although departures are back-dated |
| PruningReports.ReportsUnchanged | ai/surgeguard_ai/zones/transitions.py:281-306 | on runs where no track comes back that the tracker has forgotten since the last rewind, it records and reports exactly what one that keeps everything does |
| PruningReports.ReportFollowsRecord | ai/surgeguard_ai/zones/transitions.py:308-368 | whenever the records are the same with and without pruning, so are the reports, median transit times included |
| ZoneReports.ZoneReportIs | ai/surgeguard_ai/zones/transitions.py:308-342 | the report of each zone: everybody seen inside, the entries and departures of the log within the window, and their rates per minute of the time observed since the last restart, or of the window |
| ZoneReports.RouteReportIs | ai/surgeguard_ai/zones/transitions.py:343-368 | there is a report for each route taken within the window and for no other, with the number of transitions, their rate and their median transit time |
| RecordOrder.RecordKeptIff | ai/surgeguard_ai/zones/transitions.py:268-304 | throughout a run, entries, departures and transitions are recorded in the same order with and without pruning if and only if in every frame the tracks due to leave a zone stand in the tracker's own dictionary in the order in which they were first settled since the last rewind |
| FirstSettling.KeeperIdsAreFirstSettled | ai/surgeguard_ai/zones/transitions.py:181-215 | a tracker that never forgets lists its tracks in the order in which the frames first settled them since the last rewind |
| RecordOrder.ActShows | ai/surgeguard_ai/zones/transitions.py:162-215 | what one frame writes is one block of events for each arriving track and then one for each leaving track, in dictionary order; pruning writes nothing visible |
| OrderWitness.PruningCanReorder | ai/surgeguard_ai/zones/transitions.py:281-304 | a concrete run on which the recorded order across tracks differs with pruning |
| Projection.ActView | ai/surgeguard_ai/zones/transitions.py:162-215 | one frame of the whole tracker is, for each track, one step of that track alone |
| Pruning.FrameAgrees | ai/surgeguard_ai/zones/transitions.py:228-304 | one frame gives the same visible events with and without pruned books, which go on acting alike |
| Conservation.StepLawful | ai/surgeguard_ai/zones/transitions.py:198-279 | one frame neither loses nor invents a movement, whichever policy |
| Choose.BestThroughFilter | ai/surgeguard_ai/zones/transitions.py:228-260 | discarding items that cannot be candidates changes neither the partner chosen nor what is left |
| Choose.BestIsFirstLargest | ai/surgeguard_ai/zones/transitions.py:230-240 | the strict-improvement scan returns the first largest candidate, and none only if there is none |
| ZoneTransitionTracker.Tracker.Observe | ai/surgeguard_ai/zones/transitions.py:162-215 | the mutable tracker does exactly one step of the state machine and reports on the state it leads to: occupancy, counts and rates of each zone, and count, rate and median transit time of each route taken |
| ZoneTransitionTracker.GroupTransits | ai/surgeguard_ai/zones/transitions.py:343-355 | the dictionary-filling loop gives for each route taken, and for no other, its transit times in order |
| ZoneTransitionTracker.Tracker.PairEntry | ai/surgeguard_ai/zones/transitions.py:228-243 | the in-place pairing of an entry is the specified one: latest feasible departure, or wait |
| ZoneTransitionTracker.Tracker.PairExit | ai/surgeguard_ai/zones/transitions.py:245-260 | the in-place pairing of a departure is the specified one: earliest feasible entry, or wait |
| ZoneTransitionTracker.Tracker.EndAbsentPresences | ai/surgeguard_ai/zones/transitions.py:268-279 | every track's absences past the grace period become back-dated departures, in dictionary order |
| ZoneTransitionTracker.Tracker.PruneTracks | ai/surgeguard_ai/zones/transitions.py:281-304 | pruning discards exactly the specified items and idle tracks |
| ZoneTransitionTracker.Tracker.Reset | ai/surgeguard_ai/zones/transitions.py:217-224 | reset re-establishes the initial state |
| ZoneTransitionTracker.SettledTracks | ai/surgeguard_ai/zones/transitions.py:181-196 | tracks old enough, a repeated id overwriting in place |
| Window.PopStale | ai/surgeguard_ai/zones/transitions.py:281-304 | the pop loop leaves what is left after dropping the stale front |
| Window.DropWhileResumes | ai/surgeguard_ai/zones/transitions.py:281-304 | pruning as one goes is pruning once at the end |
| Window.FreshSurvives | ai/surgeguard_ai/queue/zone_flow.py:186-192 | no fresh entry is ever popped, wherever in the queue it stands |
| ZoneFlow.PeopleConserved | ai/surgeguard_ai/queue/zone_flow.py:94-166 | over every run since the reset, arrivals less served less abandoned are the occupants |
| ZoneFlow.ArrivalsAlternate | ai/surgeguard_ai/queue/zone_flow.py:121-166 | each id's events alternate, starting with an arrival |
| ZoneFlow.DepartureIffAbsent | ai/surgeguard_ai/queue/zone_flow.py:143-166 | a present track is logged as leaving if and only if some absence lasts the grace period; shorter dropouts give neither a departure nor a second arrival |
| ZoneFlow.WindowIsSuffix | ai/surgeguard_ai/queue/zone_flow.py:186-192 | after each frame the deque is the suffix of the history from its first event in the window |
| ZoneFlow.NothingInWindowMissed | ai/surgeguard_ai/queue/zone_flow.py:186-212 | no event in the window is missed although the deque is unsorted |
| ZoneFlow.ServedWithinRadius | ai/surgeguard_ai/queue/zone_flow.py:168-184 | a departure is served if and only if no service end is known, the queue has no extent, or the last position was within the radius of it |
| ZoneFlow.StayFromArrival | ai/surgeguard_ai/queue/zone_flow.py:121-166 | over every run, the stay of a track still here is measured from its last logged event, which is its arrival, and never from after now; dropouts shorter than the grace period never restart it |
| QueueStays.StaysAreTold | ai/surgeguard_ai/queue/zone_flow.py:94-184 | over every run, who is present, since when and where last seen, and every arrival and departure logged with its time and kind, is what the frames say of each track on its own |
| ZoneFlowTracker.Tracker.Observe | ai/surgeguard_ai/queue/zone_flow.py:94-141 | the mutable tracker does one step of the specified machine |
| ZoneFlowTracker.Tracker.FinaliseDepartures | ai/surgeguard_ai/queue/zone_flow.py:143-166 | sustained absences, and only they, become back-dated classified departures |
| ZoneFlowTracker.Tracker.Counts | ai/surgeguard_ai/queue/zone_flow.py:201-212 | the counting loop returns the numbers of each kind of event held |
| ZoneFlowTracker.Tracker.Rates | ai/surgeguard_ai/queue/zone_flow.py:228-248 | counts per minute of the observed part of the window |
| ZoneFlowTracker.RateIs | ai/surgeguard_ai/queue/zone_flow.py:214-248 | a rate times the seconds observed since the last restart, or the window when that is shorter, is sixty times the count; it is zero before there is a second |
| ZoneFlowTracker.Tracker.DwellSeconds | ai/surgeguard_ai/queue/zone_flow.py:250-267 | the mean of the capped stays and the longest of them, none exactly when nobody is present |
| ZoneFlowTracker.StayIs | ai/surgeguard_ai/queue/zone_flow.py:250-267 | over every run the stay of everybody present is the time since it began, capped at the ceiling |
| Growth.BaselineIsWholeHistory | ai/surgeguard_ai/forecast/growth.py:97-109 | the constant-space mean is the exponentially weighted mean of all rates, the variance is the weighted sum of squared deviations from that final mean, and it is never negative |
| Growth.WeightsSumToOne | ai/surgeguard_ai/forecast/growth.py:97-109 | the weights (1-a)^(n-1), a(1-a)^(n-i) sum to one |
| Growth.AbnormalUpward | ai/surgeguard_ai/forecast/growth.py:136-169 | against one baseline, anything growing at least as fast as something abnormal is abnormal |
| Growth.VerdictIff | ai/surgeguard_ai/forecast/growth.py:136-169 | exactly when a rate gets which verdict: abnormal at the threshold number of spreads above the mean and at the least rate, once there are samples enough; the spread is the root of the variance but no less than 0.25 |
| Growth.AlarmPersists | ai/surgeguard_ai/forecast/engine.py:151-172 | from an abnormal rate r0 on, while measured rates stay at or above r0 the baseline is frozen and every one is abnormal |
| Growth.TrainingRaisesLittle | ai/surgeguard_ai/forecast/growth.py:136-169 | once a baseline exists, a training step raises the mean by at most alpha times the larger of min rate less mean and z times the floored deviation |
| Growth.GrowthDetector.Update | ai/surgeguard_ai/forecast/growth.py:81-109 | the update keeps mean and variance equal to their whole-history definitions |
| Growth.GrowthDetector.Reset | ai/surgeguard_ai/forecast/growth.py:111-116 | the untrained state and an empty history |
| Observations.RunIsResampled | ai/surgeguard_ai/forecast/observations.py:73-127 | over every irregular run the buckets are a resampling of exactly the readings since the last rewind, none lost or repeated |
| Observations.ResamplingUnique | ai/surgeguard_ai/forecast/observations.py:73-106 | there is only one way to cut readings into buckets by the rules, so the series is a function of the readings |
| Observations.SealsIff | ai/surgeguard_ai/forecast/observations.py:73-106 | a reading closes the bucket exactly from an interval past its first reading on, drops everything when it lies before it, and joins it otherwise |
| Observations.SeriesSpaced | ai/surgeguard_ai/forecast/observations.py:117-127 | sample times are at least one interval apart |
| Observations.SampleBetween | ai/surgeguard_ai/forecast/observations.py:117-127 | a sample's value lies between the smallest and largest reading of its bucket |
| Observations.SamplesAre | ai/surgeguard_ai/forecast/observations.py:117-127 | a sample's value times its readings is their sum, and its time the end of the interval its first reading opened |
| Observations.ReadingsConserved | ai/surgeguard_ai/forecast/observations.py:73-127 | readings in samples plus readings in the open bucket are all readings since the rewind |
| Observations.ValuesConserved | ai/surgeguard_ai/forecast/observations.py:73-127 | samples times readings plus the open bucket add up to everything read since the rewind |
| Observations.BoundedSeriesSuffices | ai/surgeguard_ai/forecast/observations.py:177-205 | keeping a bounded number of samples changes no answer within the span they cover |
| Observations.ObservationBuffer.Observe | ai/surgeguard_ai/forecast/observations.py:73-106 | one reading changes the buckets as specified; the running total and count, the bounded deque and the gap flag stay what the buckets say; sealing is reported truthfully |
| Observations.ObservationBuffer.Seal | ai/surgeguard_ai/forecast/observations.py:117-127 | the deque becomes the last maximal number of samples including the new one |
| Observations.ObservationBuffer.ChangeOverLast | ai/surgeguard_ai/forecast/observations.py:177-205 | the scan compares the latest sample with the first at or after the cutoff, or declines |
| Forecast.RateUnderstates | ai/surgeguard_ai/forecast/engine.py:123-149 | the windowed rate has the sign of the true slope between the samples compared, and between half of it and all of it |
| Forecast.ShortHistoryExact | ai/surgeguard_ai/forecast/engine.py:123-149 | while the history is no longer than the growth window there is a rate and it is exactly the slope over all of it |
| Forecast.RateIff | ai/surgeguard_ai/forecast/engine.py:123-149 | on the samples alone: there is a rate if and only if the history spans the least window and the first sample no further back than the window is another one than the latest and at least half that far back; the rate times the window is the change since it |
| Forecast.DenseSeriesHasRate | ai/surgeguard_ai/forecast/engine.py:123-149 | a series whose neighbours are at most half a window apart always has a rate over the whole window, however long it grows |
| Forecast.SurgeKeepsAlarm | ai/surgeguard_ai/forecast/engine.py:93-172 | over any run of readings, once r0 is abnormal and all later measured rates are at least r0, the baseline stays frozen and each rate is abnormal |
| Forecast.ZoneState.Observe | ai/surgeguard_ai/forecast/engine.py:93-178 | buffer and baseline together advance as specified: train on a sealed sample's windowed rate unless it is abnormal |
| Forecast.ZoneState.MeasureRate | ai/surgeguard_ai/forecast/engine.py:123-149 | the windowed rate, shrinking the window to the history |
| Smoothing.ForgetsByTime | ai/surgeguard_ai/stability/smoothing.py:71-90 | two averages fed the same samples differ by exactly exp(-elapsed / tau), written out, times their initial difference, however the time is subdivided |
| Smoothing.SubdivisionIrrelevant | ai/surgeguard_ai/stability/smoothing.py:71-90 | a steady reading moves the average the same whether sampled once or many times on the way |
| Smoothing.TimeConstant | ai/surgeguard_ai/stability/smoothing.py:71-90 | of the distance to a steady reading exp(-t / tau) is left after t seconds however it was sampled, so exp(-1) after one time constant |
| Smoothing.InHull | ai/surgeguard_ai/stability/smoothing.py:71-90 | the average never leaves the range of the accepted samples |
| Smoothing.OnlyAcceptedCount | ai/surgeguard_ai/stability/smoothing.py:71-90 | samples that do not advance the clock leave no trace, and elapsed time telescopes to last less first accepted timestamp |
| Smoothing.ExponentialSmoother.Update | ai/surgeguard_ai/stability/smoothing.py:71-90 | the mutable smoother is the specified average of all samples since the reset |
| Smoothing.ExponentialSmoother.FillFraction | ai/surgeguard_ai/stability/smoothing.py:66-69 | the share of the time constant observed so far, capped at one exactly when all of it has been |
| Smoothing.BandHysteresis.Offer | ai/surgeguard_ai/stability/smoothing.py:136-170 | the counters report what the definition on the whole history of bands says |
| Smoothing.BandSteadiness | ai/surgeguard_ai/stability/smoothing.py:109-170 | status changes are at least the smaller window count apart |
| Smoothing.BandChangesBounded | ai/surgeguard_ai/stability/smoothing.py:109-170 | in n windows, for every n from one on, the status changes at most (n-1)/that many times |
| Smoothing.StatusChangesIff | ai/surgeguard_ai/stability/smoothing.py:109-170 | the status gets worse exactly at the window at which the escalation count of windows in a row agree on one worse band, better exactly when the de-escalation count agree on one better band, and becomes that band |
| Smoothing.StatusMonotone | ai/surgeguard_ai/stability/smoothing.py:136-160 | a lower index is never a milder status |
| Smoothing.EvenBands | ai/surgeguard_ai/stability/smoothing.py:136-160 | the five bands are twenty wide, worse ones lower, the last closed at the top |
| Hysteresis.CountersRefineHistory | ai/surgeguard_ai/stability/smoothing.py:136-170 | held state and candidate count are functions of the history: the definition's answer, and the length of the tail run |
| Hysteresis.ChangeIffRunReached | ai/surgeguard_ai/stability/smoothing.py:136-170 | the held state changes at a window if and only if the tail run of another observation just reaches the required length |
| Hysteresis.ChangeIffLatestAgree | ai/surgeguard_ai/stability/smoothing.py:136-170 | without counters: the held state changes at a window if and only if as many latest observations as it needs are all the same other one |
| Hysteresis.ChangesApart | ai/surgeguard_ai/stability/smoothing.py:136-170 | changes are at least the least required length apart |
| Hysteresis.ChangesBounded | ai/surgeguard_ai/stability/smoothing.py:136-170 | at most (n-1)/least changes in n windows |
| PriorityGate.PrioritySteadiness | ai/surgeguard_ai/intelligence/decision_engine.py:187-224 | priority changes are at least the configured number of windows apart |
| PriorityGate.PriorityChangesBounded | ai/surgeguard_ai/intelligence/decision_engine.py:187-224 | in n windows, for every n from one on, the priority changes at most (n-1)/that many times |
| PriorityGate.PriorityChangesIff | ai/surgeguard_ai/intelligence/decision_engine.py:187-224 | the priority becomes another one exactly at the window at which the configured number in a row agree on it |
| PriorityGate.Stabiliser.Stabilise | ai/surgeguard_ai/intelligence/decision_engine.py:187-224 | the gate returns what the definition on the history of priorities says |
| Curves.MonotoneIffRising | ai/surgeguard_ai/stability/config.py:46-71 | with strictly increasing measurements the curve is monotone if and only if the knots' pressures do not fall |
| Curves.CurveMonotone | ai/surgeguard_ai/stability/config.py:46-71 | with any accepted knots whose pressures do not fall, the curve never falls |
| Curves.PressureInRange | ai/surgeguard_ai/stability/config.py:46-71 | pressures stay between 0 and 100 |
| Curves.ThroughKnots | ai/surgeguard_ai/stability/config.py:46-71 | the curve passes through the knot that decides at each measurement: the first knot at the start, the last at the end, the first of its measurement in between; with different measurements through every knot |
| Curves.ThroughAllIffConsistent | ai/surgeguard_ai/stability/config.py:46-71 | it passes through every accepted knot if and only if knots with one measurement have one pressure |
| Curves.CurveIs | ai/surgeguard_ai/stability/config.py:56-71 | the curve at every measurement: level outside the knots, at a knot that of the one that decides, and in proportion between two |
| Curves.CurveUnique | ai/surgeguard_ai/stability/config.py:56-71 | that leaves one pressure at each measurement |
| Curves.DefaultCurvesMonotone | ai/surgeguard_ai/stability/config.py:80-104 | the two default curves are valid and monotone |
| Indicators.IndicatorsRise | ai/surgeguard_ai/stability/indicators.py:66-206 | no indicator of a window that is worse in every respect is calmer |
| Indicators.ConflictRises | ai/surgeguard_ai/stability/indicators.py:151-180 | flow conflict rises with the opposing share and with density pressure together |
| Indicators.EgressRises | ai/surgeguard_ai/stability/indicators.py:114-148 | the worst exit decides, and fuller exits never read as calmer |
| Indicators.MotionRises | ai/surgeguard_ai/stability/indicators.py:86-111 | slower against the same baseline never reads as calmer |
| IndicatorReadings.ReadingsAre | ai/surgeguard_ai/stability/indicators.py:66-206 | what the five readings of a window are: peak density on the curve of its kind of camera; the shortfall of the speed in percent of the baseline; the fullest known exit in percent of the ceiling; the opposing share in percent of its ceiling, of which the floor counts at no density pressure and all at full; a rise in percent of the ceiling, 0 exactly without one and 100 exactly from the ceiling on |
| StabilityIndex.WeightsRenormalised | ai/surgeguard_ai/stability/weighted_assessor.py:171-205 | renormalised weights sum to one, or to zero when nothing with a weight was measured |
| StabilityIndex.IndexIsConvex | ai/surgeguard_ai/stability/weighted_assessor.py:96-134 | the raw index is 100 less a pressure between least and greatest measured one, so the clamp never acts; there is none exactly when no weight was available |
| StabilityIndex.IndexIs | ai/surgeguard_ai/stability/weighted_assessor.py:96-134 | 100 less the index, times the configured weight measured, is the sum of configured weights times pressures measured; there is no index exactly without a weight |
| StabilityIndex.IndexNeverRises | ai/surgeguard_ai/stability/weighted_assessor.py:96-134 | after one trend history and one speed history the index never rises when peak density (through density, flow and rate at once), opposing share or exit ratio rises or median speed falls, although the slower speed also lowers the baseline it is measured against |
| StabilityIndex.IndexFollowsIndicators | ai/surgeguard_ai/stability/weighted_assessor.py:96-134 | against any two baselines that do not make motion calmer, the index of the worse window is no higher |
| StabilityIndex.IndexInRange | ai/surgeguard_ai/stability/weighted_assessor.py:96-134 | every window's index is in 0 to 100 unclamped, and exists unless density has no weight |
| Trend.RetainedIsWindow | ai/surgeguard_ai/stability/weighted_assessor.py:209-230 | the density history is exactly what was accepted within the window before the last accepted time |
| Trend.RateSpan | ai/surgeguard_ai/stability/weighted_assessor.py:232-242 | a reported rate is a slope over at least the minimum span and at most the window |
| Trend.RateIs | ai/surgeguard_ai/stability/weighted_assessor.py:209-242 | there is a rate exactly when the earliest accepted reading within the window and the last one are the least span apart, and it is the slope between them |
| Trend.RateRisesWithDensity | ai/surgeguard_ai/stability/weighted_assessor.py:209-242 | a denser reading never gives a lower rate, and availability does not depend on density |
| Assessor.SmoothedInRange | ai/surgeguard_ai/stability/weighted_assessor.py:96-134 | over every run the smoothed index stays in 0 to 100 |
| AssessorRuns.RunIsStaged | ai/surgeguard_ai/stability/weighted_assessor.py:96-134 | over every run the trend sees the peak of every window, the average every index, and the gate every average |
| AssessorRuns.ReportIs | ai/surgeguard_ai/stability/weighted_assessor.py:96-134 | what is reported of a window: its own index, which is that of the readings its crowd and the trend rate make; the latest average; the band held after all averages; and whether that changed; nothing exactly without an index |
| Assessor.WeightedStabilityAssessor.AssessWindow | ai/surgeguard_ai/stability/weighted_assessor.py:96-134 | one window advances trend, average and hysteresis as specified; without a measurable indicator only the trend, and no assessment is given |
| Assessor.WeightedStabilityAssessor.UpdateTrend | ai/surgeguard_ai/stability/weighted_assessor.py:209-230 | the history and rate after a reading, ignoring one out of order |
| Assessor.WeightedStabilityAssessor.WeighAll | ai/surgeguard_ai/stability/weighted_assessor.py:171-205 | the appending loop builds the specified readings |
| Assessor.WeightedStabilityAssessor.Reset | ai/surgeguard_ai/stability/weighted_assessor.py:136-140 | reset re-establishes the initial state of trend, average and hysteresis |
| PrimaryCauses.CausesExplainIndex | ai/surgeguard_ai/intelligence/decision_engine.py:468-494 | causes are in descending order, all positive, one for each contributing reading, and sum to 100 percent; none without pressure |
| PrimaryCauses.CausesAreReadings | ai/surgeguard_ai/intelligence/decision_engine.py:468-494 | each cause is one available reading with its pressure and its contribution in percent of the total |
| PrimaryCauses.WeighedSound | ai/surgeguard_ai/contracts/stability.py:61-97 | the readings of every index satisfy what that result needs |
| PrincipalAxis.VarianceIsForm | ai/surgeguard_ai/queue/_spatial.py:144-150 | the covariance matrix gives the projected variance of the points in every direction |
| PrincipalAxis.DeviationsCancel | ai/surgeguard_ai/queue/_spatial.py:142-145 | the centre is the mean: deviations cancel |
| PrincipalAxis.SigmasBoundEveryDirection | ai/surgeguard_ai/queue/_spatial.py:149-176 | every direction's variance lies between the squares of the two reported lengths, the major one no smaller; no root of a negative number is taken |
| PrincipalAxis.SigmasShareSpread | ai/surgeguard_ai/queue/_spatial.py:149-176 | the squares of the two lengths add up to the variances along any two directions at right angles and multiply to the determinant of the covariance |
| PrincipalAxis.DirectionIsEigenvector | ai/surgeguard_ai/queue/_spatial.py:155-169 | outside the fallback the direction is a unit eigenvector for the larger eigenvalue |
| PrincipalAxis.DirectionIsPrincipal | ai/surgeguard_ai/queue/_spatial.py:155-176 | with a candidate vector above the floor no unit direction has larger projected variance |
| PrincipalAxis.FallbackOnlyIsotropic | ai/surgeguard_ai/queue/_spatial.py:162-167 | when the fallback fires all directions vary within 2e-12 of each other, an absolute bound |
| PrincipalDirection.DirectionVariesMostIff | ai/surgeguard_ai/queue/_spatial.py:155-176 | for every three points or more, the reported direction has the largest projected variance if and only if the candidate is above the floor or the coordinates are uncorrelated and the first varies at least as much |
| PrincipalDirection.NoCandidateIffIsotropic | ai/surgeguard_ai/queue/_spatial.py:162-167 | the candidate vanishes if and only if all directions vary alike |
| PrincipalDirection.ShortLineAcross | ai/surgeguard_ai/queue/_spatial.py:102-176 | a perfect line of a given range of lengths is reported at right angles to itself, with linearity one and no variance along the direction reported |
| PrincipalAxis.LinearityUnclamped | ai/surgeguard_ai/queue/_spatial.py:102-115 | linearity is in 0 to 1 without its clamp |
| Polygon.PointInPolygon | ai/surgeguard_ai/queue/_spatial.py:33-61 | the previous-vertex loop decides the crossing-parity definition |
| Polygon.Contains | ai/surgeguard_ai/analysis/grid_crowd_analyzer.py:443-455 | the next-vertex loop decides the same definition, so both tests agree on every outline and point |
| PolygonMeaning.InsideIffFan | ai/surgeguard_ai/queue/_spatial.py:33-61 | for every outline, convex or not, crossing itself or not: off the borders of its fan, a point is inside if and only if an odd number of the triangles of the fan from the first vertex hold it |
| PolygonMeaning.InsideTriangle | ai/surgeguard_ai/queue/_spatial.py:33-61 | a point strictly on one side of all three edges of a triangle is inside, one strictly on different sides of two is not, however the triangle is drawn |
| PolygonMeaning.CutOff | ai/surgeguard_ai/queue/_spatial.py:33-61 | for every point, borders included: inside the whole exactly when inside one but not both of the parts a diagonal cuts off |
| PolygonMeaning.InsideRectangle | ai/surgeguard_ai/queue/_spatial.py:33-61 | a rectangle holds its left and lower border and not the other two |
| Polygon.RotationIrrelevant | ai/surgeguard_ai/queue/_spatial.py:33-61 | the answer does not depend on the starting vertex |
| Polygon.OrientationIrrelevant | ai/surgeguard_ai/queue/_spatial.py:33-61 | nor on the drawing direction |
| Polygon.StraddlesEven | ai/surgeguard_ai/queue/_spatial.py:33-61 | the number of edges straddling the ray's line is even |
| Polygon.OneCrossing | ai/surgeguard_ai/analysis/grid_crowd_analyzer.py:443-455 | the two interpolation formulas give the same crossing point |
| Spacing.GapsMeasureTheQueue | ai/surgeguard_ai/queue/_spatial.py:179-196 | gaps are non-negative, one fewer than people, and sum to the extent of the projections |
| Spacing.GapsAreBetweenNeighbours | ai/surgeguard_ai/queue/_spatial.py:179-196 | put in order, the distances along the axis differ by the gaps, one by one |
| Spacing.CoherenceUnclamped | ai/surgeguard_ai/queue/_spatial.py:223-247 | heading coherence is in 0 to 1 without its clamp |
| Spacing.CoherenceIs | ai/surgeguard_ai/queue/_spatial.py:223-247 | none exactly with fewer than two that move; otherwise, times their number, the length of the sum of their unit headings |
| Spacing.SameHeadingCoheres | ai/surgeguard_ai/queue/_spatial.py:223-247 | it is one when everything moving heads the same way |
| Spacing.HeadingCoherence | ai/surgeguard_ai/queue/_spatial.py:223-247 | the loop computes the specified resultant, skipping standing tracks |
| GridAnalyzer.GridCountsEverybody | ai/surgeguard_ai/analysis/grid_crowd_analyzer.py:125-172 | wherever they stand, everybody is in exactly one grid cell |
| GridMeaning.CellHolds | ai/surgeguard_ai/analysis/grid_crowd_analyzer.py:167-172 | a person is counted in a cell if and only if its part of the width and of the height holds the foot point, the outer ones also holding what lies beyond |
| GridAnalyzer.GridPeakIsLargest | ai/surgeguard_ai/analysis/grid_crowd_analyzer.py:87-92 | peak density is some cell's density or zero, and no cell is denser |
| GridMeaning.DensityIs | ai/surgeguard_ai/analysis/grid_crowd_analyzer.py:147-156 | a density times the area of a cell is the number of people in it, and that number itself without an area |
| GridMeaning.OccupanciesAre | ai/surgeguard_ai/analysis/grid_crowd_analyzer.py:294-372 | each zone in order, with people inside over clear width times persons per metre for entries and exits of known width, and nothing for others |
| GridAnalyzer.CountGrid | ai/surgeguard_ai/analysis/grid_crowd_analyzer.py:137-142 | the binning loop counts exactly the people of each cell |
| GridAnalyzer.GridCrowdAnalyzer.AnalyzeFrame | ai/surgeguard_ai/analysis/grid_crowd_analyzer.py:87-112 | one window's measurements and the state left behind are the specified ones |
| GridMeaning.CrowdIs | ai/surgeguard_ai/analysis/grid_crowd_analyzer.py:87-112 | each figure of a window: metric exactly with a cell area, the largest density of any cell, the median speed of those with a velocity, and the baseline that already contains it |
| GridAnalyzer.GridCrowdAnalyzer.CellAreaOf | ai/surgeguard_ai/analysis/grid_crowd_analyzer.py:174-182 | the cached answer is always the area the camera's calibration gives |
| GridMeaning.AffineCellArea | ai/surgeguard_ai/analysis/grid_crowd_analyzer.py:184-220 | without perspective each cell has its equal part of the frame scaled to the ground, whichever way that is turned; there is none exactly when the plane is seen edge on |
| GridMeaning.ProjectIs | ai/surgeguard_ai/analysis/grid_crowd_analyzer.py:417-429 | a corner times its depth is its projection, and there is none exactly within 1e-12 of the horizon |
| GridAnalyzer.GridCrowdAnalyzer.RecordSpeed | ai/surgeguard_ai/analysis/grid_crowd_analyzer.py:276-281 | a sample is appended and the stale front dropped |
| GridMeaning.HistoryIsOfMedians | ai/surgeguard_ai/analysis/grid_crowd_analyzer.py:222-281 | over every run the speed history is that of the median speeds of the frames in which anybody has a velocity |
| GridMeaning.VelocitiesAre | ai/surgeguard_ai/analysis/grid_crowd_analyzer.py:382-391 | the velocities counted are those on the ground where a calibrated camera has them, and those in the image otherwise |
| GridMeaning.MovingIs | ai/surgeguard_ai/analysis/grid_crowd_analyzer.py:247-253 | moving are those who move at all and no slower than the configured part of the median |
| GridAnalyzer.GridCrowdAnalyzer.Reset | ai/surgeguard_ai/analysis/grid_crowd_analyzer.py:114-121 | the speeds are forgotten and the cache kept |
| SpeedBaseline.HistoryIsWindow | ai/surgeguard_ai/analysis/grid_crowd_analyzer.py:276-281 | at any times, also when they run backwards, the history is the suffix of all samples since the reset from the first one not older than the window before the latest time seen |
| SpeedBaseline.SlowerIsSmallerPart | ai/surgeguard_ai/analysis/grid_crowd_analyzer.py:276-292 | after one history a slower window is a smaller part of its baseline, although its own speed is in the baseline too |
| SpeedBaseline.RatioRises | ai/surgeguard_ai/analysis/grid_crowd_analyzer.py:283-292 | a sample divided by the median it is part of rises with the sample, for odd and even numbers of samples |
| GridMeaning.BaselineIs | ai/surgeguard_ai/analysis/grid_crowd_analyzer.py:283-292 | there is a baseline exactly from the least number of samples on, and it is their middle one or half-way between the two middle ones |
| Medians.MedianSplits | ai/surgeguard_ai/analysis/grid_crowd_analyzer.py:283-292 | at least half the samples are at or below the baseline and at least half at or above |
| Medians.MedianIsMiddle | ai/surgeguard_ai/analysis/grid_crowd_analyzer.py:283-292 | the median is the middle one of the same samples in ascending order, or half-way between the two middle ones |
| Medians.MedianRobust | ai/surgeguard_ai/analysis/grid_crowd_analyzer.py:283-292 | a minority of stray frames cannot carry the baseline out of the range of the others |
| Medians.MedianScaled | ai/surgeguard_ai/analysis/grid_crowd_analyzer.py:283-292 | when each sample is at most k times its counterpart, so is the median |
| Allocator.PlanIsLeastSufficient | ai/surgeguard_ai/resources/allocator.py:60-127 | when all counters suffice the plan opens to the least sufficient number, closes to it with margin, or observes because the current number suffices; otherwise no number suffices and it asks for all |
| Allocator.ClearsIffSuffices | ai/surgeguard_ai/resources/allocator.py:142-182 | an option clears the target if and only if c*r >= min rate and c*r*(target+horizon) >= Q+(arrivals-abandonment)*horizon |
| Allocator.EvaluateIsOption | ai/surgeguard_ai/resources/allocator.py:142-182 | what an option says: the queue left at the horizon or nobody; a wait that times the service rate is that queue and a load that times it is the arrivals, both exactly from the least rate on |
| Allocator.WaitNonIncreasing | ai/surgeguard_ai/resources/allocator.py:142-182 | more counters never lengthen the projected queue or wait |
| Allocator.SearchFindsLeast | ai/surgeguard_ai/resources/allocator.py:195-226 | the ladder search finds the least sufficient number of counters |
| Allocator.ClosesWheneverSafe | ai/surgeguard_ai/resources/allocator.py:226-251 | with fewer counters sufficing, closing is proposed if and only if the least number keeps the wait within the target times the close margin |
| Allocator.FollowedPlanIsStable | ai/surgeguard_ai/resources/allocator.py:60-127 | after applying any recommendation the same measurements recommend no change |
| Allocator.CurrentIsActive | ai/surgeguard_ai/resources/allocator.py:77-103 | the do-nothing option is the projection at the active counters, also when more are active than exist |
| Allocator.PlanOptions | ai/surgeguard_ai/resources/allocator.py:60-127 | a plan lists such an option for every number of counters in order, and its change is the recommended number less the active one |
| Allocator.PlanFailsIffNoMinimum | ai/surgeguard_ai/resources/allocator.py:72-83 | some option divides by zero if and only if the minimum service rate is not positive |
| Pressure.CrossingIsFirst | ai/surgeguard_ai/site/pressure.py:82-118 | for strictly increasing horizons the minute returned is on the threshold, the curve is at or below it before and above it from then to the first point above it; none is returned if and only if the whole curve stays at or below |
| Pressure.CrossingOnPath | ai/surgeguard_ai/site/pressure.py:82-118 | for any horizons, the minute returned is that of the place on the forecast path that is on the threshold, the path being at or below it before and above it from there to the first point above it; none is returned if and only if the whole path stays at or below |
| Pressure.NeverBeforeNow | ai/surgeguard_ai/site/pressure.py:82-100 | with ascending horizons, equal ones included, that minute is not before now nor outside its segment, so the floor at now is idle |
| Pressure.AnswerIsFirstCrossing | ai/surgeguard_ai/site/pressure.py:34-118 | the whole answer, at any horizons: none exactly without a forecast; without a counter past target exactly when somebody waits; otherwise exceeded exactly when the queue is past its target now, or the first place past it, or none |
| Pressure.FindTimeToPressure | ai/surgeguard_ai/site/pressure.py:21-118 | the scanning loop with early return computes the specified answer, in all its branches |
| Headcount.HeadcountBrackets | ai/surgeguard_ai/site/headcount.py:32-101 | for every assignment of people to cameras with areas disjoint, the number of different people lies between value and upper bound |
| Headcount.ValueIsAttained | ai/surgeguard_ai/site/headcount.py:51-65 | the value is the best lower bound: some assignment has exactly that many people |
| Headcount.UpperIsAttained | ai/surgeguard_ai/site/headcount.py:51-65 | the upper bound is the best one: with cameras that share no view, exactly that many people give the same counts |
| Headcount.LabelIs | ai/surgeguard_ai/site/headcount.py:32-101 | no data exactly when no camera contributes, adjusted for overlap exactly when two that do watch one area |
| Headcount.ListsAre | ai/surgeguard_ai/site/headcount.py:32-101 | the cameras named as contributing are those that contribute, those named as missing are enabled and do not |
| Headcount.GroupingPartitions | ai/surgeguard_ai/site/headcount.py:24-29 | grouping loses and duplicates no camera and keeps their order |
| Headcount.GroupByArea | ai/surgeguard_ai/site/headcount.py:24-29 | the dictionary-filling loop builds that partition |
| Headcount.CombineHeadcount | ai/surgeguard_ai/site/headcount.py:32-101 | the combined report, including the one without data |
| Pipeline.SeamNonInterference | ai/surgeguard_ai/pipeline/analysis_pipeline.py:246-264 | after any prefix, once a frame number does not advance, every later crowd, stability and zone-flow output is that of a fresh pipeline |
| Pipeline.SeamSplitsRun | ai/surgeguard_ai/pipeline/analysis_pipeline.py:246-264 | the outputs over a recording with a seam are those of its parts analysed on their own |
| Pipeline.StretchDecides | ai/surgeguard_ai/pipeline/analysis_pipeline.py:135-264 | at every frame of every recording analyser, assessor and zone tracker have seen exactly the frames since the number last failed to advance, and the output is that of those three run over them, zone flow over the assessed ones |
| Pipeline.AdvancingKeepsAll | ai/surgeguard_ai/pipeline/analysis_pipeline.py:246-264 | over a recording whose numbers always advance nothing is ever forgotten |
| Pipeline.FrameIs | ai/surgeguard_ai/zones/transitions.py:181-196 | zone flow is told of every track with its age and exactly the zones whose polygon holds its foot point |
| Pipeline.AnalysisPipeline.ProcessFrame | ai/surgeguard_ai/pipeline/analysis_pipeline.py:135-196 | one frame advances analyser, assessor and zone tracker as specified; a failed assessment stops before zone flow |
| Pipeline.AnalysisPipeline.NoteFrame | ai/surgeguard_ai/pipeline/analysis_pipeline.py:246-264 | everything is discarded exactly when the frame number does not advance |
| Pipeline.AnalysisPipeline.Reset | ai/surgeguard_ai/pipeline/analysis_pipeline.py:227-239 | all stages return to their initial state except the cell-area cache |
| RateLimit.KeptDecides | backend/app/auth/rate_limit.py:40-68 | the bounded memory gives the full log's answer, now and at any later time |
| RateLimit.PermitsFrom | backend/app/auth/rate_limit.py:40-45 | the wait returned is the least delay after which the full log permits a try |
| RateLimit.Verdict | backend/app/auth/rate_limit.py:40-45 | a key is refused exactly when the full log holds the maximum of failures in the window, and until the oldest kept one leaves it |
| RateLimit.LoginRateLimiter.Check | backend/app/auth/rate_limit.py:40-45 | the answer of the mutable limiter, against the unbounded log |
| RateLimit.LoginRateLimiter.RecordFailure | backend/app/auth/rate_limit.py:47-52 | one more failure in the log, while only the youngest maximum number is kept |
| RateLimit.LoginRateLimiter.Prune | backend/app/auth/rate_limit.py:58-68 | aged failures, and keys left without any, are dropped without touching the log |
| RateLimit.LoginRateLimiter.Reset | backend/app/auth/rate_limit.py:54-56 | the key starts afresh |

## Left out

- ZoneTransitionTracker.Tracker.Observe: the report's headings, their coherence and the number of people moving are not modelled.
- PruningReports.ReportsUnchanged: a sufficient condition; the exact one, and the reports that follow from it, are `RecordOrder.RecordKeptIff` and `PruningReports.ReportFollowsRecord`.
- Allocator.PlanIsLeastSufficient: requires a positive minimum service rate; without one there is no plan (`Allocator.PlanFailsIffNoMinimum`).
- Forecast.ZoneState.Observe: the last sample's value, kept for display, is not modelled.
- GridAnalyzer.GridCrowdAnalyzer.AnalyzeFrame: mean density, zone densities and headings are not modelled, and the share of people going against the majority enters as a function.
- Assessor.WeightedStabilityAssessor.AssessWindow: the confidence of an assessment, a product of shares, is not modelled.
- Pipeline.AnalysisPipeline.ProcessFrame: the queue, forecast, evidence and decision stages and their failures are not modelled; the stages modelled do not read their results.
- Pipeline.SeamNonInterference: compares crowd, stability and zone-flow outputs only, those of the stages modelled.
- Pipeline.SeamSplitsRun: likewise.
- Presences and pending movements of the transition tracker are values inside the tracker's dictionaries, not objects of their own; aliasing between them is not modelled.
- Zone and crowd headings and angles in general.
- The pipeline with optional stages absent.
- Holt fitting, prediction intervals, formation scoring, confidence products, evidence ranking, decision rules, hotspot scoring and site alerts: mostly one-branch members.
- Texts for operators: rationales, explanations, labels.
- Floating-point rounding and the microsecond resolution of times.
- Cameras, detectors, the web application, its database and accounts, the frontend and the microcontroller code.
