# Orbic microphone visualiser — a Dafny model of its core logic

Orbic samples the microphone in the browser, estimates the loudness and the
dominant frequency of each animation frame, labels the frame with a mood
(Calm, Active, Alert or Normal) and draws a glowing orb. The user can save
the current read-outs as a "pulse" in a gallery of at most 200 entries.

Almost all of `app.js` is DOM, canvas and Web Audio plumbing. This project
models the deterministic logic inside it and proves what that logic promises:

- `Mood` (`mood.dfy`) — the precedence chain of `updateUI`, which maps the
  volume, the peak frequency and the calm threshold to a label. The constant
  0.08 and the 2000 Hz and 800 Hz limits are taken from the source.
- `Signal` (`signal.dfy`) — the mean square of the normalised time-domain
  samples, which `rmsFromTimeDomain` takes the square root of. It is computed
  by the source's loop over reals and proved equal to an integer sum of
  `(b - 128)^2` over `n * 128^2`. The module also holds the first-maximum
  scan of `calcPeakFreq` (a loop with invariants), the bin-to-Hz mapping, and
  `calcPeakFreq` itself over an optional analyser.
- `Display` (`display.dfy`) — the clamping of the volume and frequency bars in
  `updateUI`, the calm-threshold input that moves the volume bar's maximum,
  and how the clamped values relate to the mood label.
- `Gallery` (`gallery.dfy`) — `createPulse` and `clearAllPulses` on an
  immutable newest-first list, plus the replay of any sequence of these
  operations.
- `Particles` (`particles.dfy`) — the particle-pool resize at the top of
  `drawOrb`.
- `Session` (`session.dfy`) — the `running` guards of `startMic`, `stopMic`
  and `runLoop`. A session is the record `{running, resourcesOpen}`, and a
  page adds a flag that says whether a frame callback is pending.

Platform inputs are parameters:
- the analyser's buffers and sample rate;
- `Date.now()`, as the `now` argument of `CreatePulse`;
- the outcome of the microphone request (`Granted` or `Denied`);
- the user's confirmation for clearing;
- the freshly drawn random particles, as a function `spawn` from index to
  particle.

The pulse list in the model is the list the source holds after
`loadPulses`. It may be longer than 200 when the stored data is longer. In
that case `createPulse` still pops only once, so the model keeps that length
rather than cutting the list to 200.

## Model

| member | source | states |
|---|---|---|
| Mood.Classify | app.js:102-106 | Calm exactly when vol < calm, whatever the frequency. Active exactly when vol >= calm and (freq > 2000 or vol > 0.08), so Active beats Alert. Alert exactly when vol >= calm, vol <= 0.08 and 800 < freq <= 2000. Normal covers the rest. The initial Neutral label is never the result. |
| Mood.ClassifyMonotone | app.js:102-106 | A louder or higher-pitched input never gets a calmer label (Calm < Normal < Alert < Active). |
| Mood.ClassifyAntitoneInCalm | app.js:103 | Raising the calm threshold never gives a more agitated label. |
| Mood.ClassifyExamples | app.js:102-106 | Worked cases: (0.001, 5000 Hz) is Calm, (0.5, 100 Hz) is Active, (0.02, 1000 Hz) is Alert and (0.02, 100 Hz) is Normal, all with calm threshold 0.01. |
| Signal.SumSqDevBounds | app.js:144-147 | For bytes, the sum of (b - 128)^2 lies in [0, n * 128^2] and is 0 exactly when every sample is 128. |
| Signal.NormalisedSquare | app.js:145-146 | The square of (b - 128)/128 equals (b - 128)^2 / 128^2, which ties the source's real-valued loop to the integer sum. |
| Signal.MeanSquare | app.js:141-148 | The loop's sum divided by n equals the integer sum over n * 128^2. The result lies in [0, 1] and is 0 exactly when the buffer is all 128 (silence). |
| Signal.PeakBin | app.js:154-157 | For a non-empty buffer the index is valid, holds a value no smaller than any other, and every earlier index holds a strictly smaller value (first maximum). An empty buffer and an all-zero buffer both give 0. |
| Signal.FirstMaxUnique | app.js:154-157 | At most one index is a first maximum, so the scan's contract fixes its result. |
| Signal.AllZeroPeakIsFirstBin | app.js:154-157 | In an all-zero buffer the only first maximum is bin 0. |
| Signal.BinToHz | app.js:159 | maxI * (sr/2) / len is >= 0 for sr >= 0, and < sr/2 for a valid bin when sr > 0. |
| Signal.BinToHzStrictlyIncreasing | app.js:159 | With sr > 0, a higher bin maps to a strictly higher frequency. |
| Signal.BinSpacing | app.js:159 | Adjacent bins are exactly sr / (2 * len) Hz apart. |
| Signal.CalcPeakFreq | app.js:150-161 | With no analyser the result is 0. With the analyser startMic builds, some first strongest bin exists and the result is its frequency (the same for every such bin), in [0, sr/2). |
| Signal.FrameFeatures | app.js:166-170 | One running frame reads the analyser's 2048 time samples and its bins: the mean square equals the integer sum of (b - 128)^2 over 2048 * 128^2, lies in [0, 1] and is 0 exactly on silence; the frequency is that of the first strongest bin, in [0, sr/2). |
| Display.UpdateUI | app.js:98-107 | Each bar shows min(max, value): never above its maximum or the raw value, and equal to the raw value when it fits. The label is the classifier's verdict on the unclamped values. |
| Display.SetCalm | app.js:219 | The calm input sets the volume bar's maximum to its floor 0.08 or 10 * calm, whichever is larger. Nothing else on the read-out changes. |
| Display.ClampedReadoutKeepsMood | app.js:99-106 | When the volume maximum is above 0.08 and not below calm, and the frequency fits its bar, the displayed values classify to the displayed mood. |
| Display.CalmInputKeepsReadoutConsistent | app.js:219 | After setting a calm threshold above 0.008, every frame whose frequency fits the bar shows a volume and frequency that classify to the mood it shows. |
| Display.ClampAtActiveThresholdSplitsMood | app.js:99-104 | The bar's floor (app.js:219) and the Active threshold (app.js:104) are both 0.08. With calm 0.005 the volume maximum is that floor, and a 0.5-volume 100 Hz frame is labelled Active. Its displayed volume is 0.08, which on its own classifies as Normal. |
| Display.FrequencyBarShowsPeak | app.js:100 | When the frequency bar's maximum is sr/2 (as startMic sets it at app.js:123), the bar shows every peak frequency unclamped. |
| Gallery.Snapshot | app.js:181 | A pulse holds the time, the mood label, and each bar's value as it reads back: either the value last written or the bar's maximum, never above either, and the value itself when it fits. So a pulse taken after the calm input lowered the maximum stores the new maximum. |
| Gallery.Push | app.js:182-183 | The new pulse is at index 0. The length grows by one below 200 and is otherwise kept. The rest of the list is the old list minus, at most, its last entry. |
| Gallery.CreatePulse | app.js:179-183 | The new pulse (the snapshot) is first, and the length is min(old + 1, 200) when the old list was within the cap. The new list from index 1 on equals the old list up to the new length minus one. The stored volume and frequency never exceed their bars' maxima. |
| Gallery.PulseVolumeWithinBar | app.js:99-106 | A pulse created after a frame reads the volume bar (app.js:181), so it stores a volume no larger than the volume bar's maximum or the frame's volume. Its mood is the frame's label. |
| Gallery.ClearAll | app.js:198 | Confirmed, the list becomes empty; otherwise it is unchanged. |
| Gallery.FullListDropsOldest | app.js:182-183 | On a full list of 200, creating a pulse drops exactly the oldest (last) entry. |
| Gallery.ShortListKeepsAll | app.js:182-183 | Below 200 entries, creating a pulse keeps the whole old list behind the new one. |
| Gallery.ReplayStaysWithinCap | app.js:179-198 | From a list within the cap, no sequence of creations and clears takes it past 200 entries. |
| Gallery.PushAllNewestFirst | app.js:182-183 | Creating pulses p1..pk in turn gives the first min(k + old, 200) entries of (pk, ..., p1, old list...). |
| Particles.ParticleCount | app.js:52 | The count is at most 120 and at most the raw value, and is always one of the two: the raw value when that is at most 120, otherwise 120. |
| Particles.Resize | app.js:53-59 | The pool's length becomes count. The first min(old length, count) particles are unchanged, and every added slot i holds the particle spawned for i. |
| Particles.ResizePool | app.js:53-59 | The source's push loop and length truncation produce exactly Resize's pool. |
| Particles.ResizeIdempotent | app.js:53-59 | Resizing twice to the same count is the same as resizing once. |
| Particles.ResizeAtCountIsIdentity | app.js:53-59 | A pool already of the requested size is left unchanged. |
| Particles.PoolWithinCap | app.js:52-59 | The resized pool never holds more than 120 particles. |
| Session.StartAsWritten | app.js:111-129 | A start while running is a no-op. Otherwise the loop runs exactly when the microphone is granted, and an audio context is held open either way. |
| Session.DeniedStartLeaksContext | app.js:114-128 | From idle, a refused start leaves {running: false, resourcesOpen: true}, and stop cannot release it. |
| Session.Start | app.js:111-129 | A start while running is a no-op. From stopped, the loop runs exactly when granted, and a refusal leaves the session idle. Start keeps "running iff resources open". |
| Session.Stop | app.js:131-138 | A stop while stopped is a no-op. Otherwise the session becomes idle: not running and no resources held. |
| Session.Step | app.js:164-176 | With the corrected start (Session.Start): a granted start from stopped runs the loop at once and leaves a callback pending (app.js:125). A stop leaves a pending callback pending. A pending callback keeps the session and re-arms exactly when running (app.js:165, 175). Without a pending callback nothing fires. |
| Session.StepKeepsHealthy | app.js:111-176 | With the corrected start (Session.Start), every event keeps two facts: resources are open exactly while running, and while running a frame callback is pending. |
| Session.RunKeepsHealthy | app.js:111-176 | With the corrected start (Session.Start), any sequence of starts, stops and frame callbacks from the initial page keeps the page healthy. |
| Session.RepeatedRequestsAreNoOps | app.js:111-132 | A start while running and a stop while stopped leave the page unchanged. |
| Session.StoppedCallbackSchedulesNothing | app.js:165 | A callback that finds the session stopped draws nothing, requests no next frame and leaves the session alone. |
| Session.CallbacksKeepStopped | app.js:165 | Frame callbacks alone never restart a stopped session. |
| Session.NoFramesAfterStop | app.js:131-138 | After a stop, however many callbacks follow, none of them draws a frame, and after the first callback none is pending. |

## Findings

| source | as written | input that shows it | evidently intended | confidence | as-written member | corrected member |
|---|---|---|---|---|---|---|
| app.js:114-128 | `startMic` creates the AudioContext before awaiting `getUserMedia`. The catch block only reports the error, so after a refusal the context stays open while `running` is false. `stopMic` returns early when not running, so nothing ever closes that context. | A start from idle whose microphone request is refused (`StartAsWritten(Idle, Denied)`). | A failed start leaves no resources behind and returns to idle. | medium, not executed | Session.StartAsWritten (Session.DeniedStartLeaksContext) | Session.Start (Session.RunKeepsHealthy) |

## Left out

- `service-worker.js` (asset caching and fetch interception) is platform I/O and is not part of this model.
- Canvas drawing in `drawOrb` is not modelled: gradients, arcs, colours, the `Date.now()`/`Math.sin` animation and the per-particle `life` update. It is floating-point rendering with no contract beyond the pool size.
- Particles.ParticleCount: takes the rounded value `Math.round(12 + ... + freq/200)` as its input. The float expression that produces it is left out.
- Signal.MeanSquare: requires a non-empty buffer. The analyser's time-domain buffer always has fftSize = 2048 samples; an empty one would give NaN.
- Signal.MeanSquare: `Math.sqrt` and the multiplication by the sensitivity setting are left out, as is all IEEE rounding. The model works over exact reals.
- Signal.BinToHz: requires at least one bin. The frequency buffer always has 1024 bins; zero bins would give NaN.
- Signal.CalcPeakFreq: requires the analyser to have the shape `startMic` gives it: 2048 time samples, 1024 byte bins and a positive sample rate.
- Signal.FrameFeatures: requires the same analyser shape. It stops at the mean square and the peak frequency; the square root, the sensitivity factor and the hand-off to `updateUI` and `drawOrb` are covered by Display and Particles rather than chained here.
- `getUserMedia`, the AudioContext, the analyser wiring and the `async` suspension of `startMic` are reduced to a synchronous `Granted`/`Denied` outcome. Concurrency is not modelled.
- Session.StartAsWritten: one `resourcesOpen` flag cannot tell two contexts apart. After a refused start, a later granted start overwrites `audioCtx` (app.js:114), and its stop closes only the new context (app.js:136). The model then reports nothing open, although the first context is still open. The leak is shown only up to that second start (Session.DeniedStartLeaksContext).
- Gallery.Snapshot: the page's markup (index.html) is not part of this model. The bars are taken to be elements whose `value` reads back capped at `max`, as progress and meter elements do. Their lower cap at 0 is not modelled; volumes and frequencies are non-negative.
- Session.Step keeps at most one pending frame callback. In the source, a stop followed by a completed restart before the old callback fires would leave two callbacks pending. The restart waits for an asynchronous permission request and a user click, so this timing is not modelled.
- `localStorage` loading and saving, `JSON.parse` recovery, the Blob export, `sharePulse` and its share/prompt/alert fallbacks, `renderGallery` and `toLocaleString` formatting are left out. They are DOM and platform calls.
- The confirmation dialog of `clearAllPulses` is the `confirmed` argument of ClearAll.
- Tab switching, `fit` and its resize debounce, the other settings inputs (sensitivity, hue, life) and service-worker registration are left out. They are DOM wiring.
- The settings record (app.js:16) is not modelled: the calm threshold is passed straight to the classifier and to the calm input.
