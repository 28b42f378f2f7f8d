/**
  The mood classifier of the visualiser: the precedence chain that turns the
  current loudness, the dominant frequency and the user's calm threshold into
  one of four labels (app.js:102-106).
 */
module Mood {

  /** The labels shown in the mood read-out. `Neutral` is the value the chain
      starts from before any branch is taken; no input leaves it there. */
  datatype Mood = Neutral | Calm | Active | Alert | Normal

  /** Loudness above which the input is Active whatever its frequency. */
  const ActiveVolume: real := 0.08
  /** Frequency (Hz) above which the input is Active. */
  const ActiveFreq: real := 2000.0
  /** Frequency (Hz) above which non-Active input is Alert. */
  const AlertFreq: real := 800.0

  /** The if/else chain of updateUI: Calm first, then Active, then Alert,
      with Normal as the fallback. */
  function Classify(vol: real, freq: real, calm: real): (m: Mood)
    ensures m != Neutral
    ensures m == Calm <==> vol < calm
    ensures m == Active <==> calm <= vol && (ActiveFreq < freq || ActiveVolume < vol)
    ensures m == Alert <==> calm <= vol && vol <= ActiveVolume && AlertFreq < freq <= ActiveFreq
    ensures m == Normal <==> calm <= vol && vol <= ActiveVolume && freq <= AlertFreq
  {
    if vol < calm then Calm
    else if freq > ActiveFreq || vol > ActiveVolume then Active
    else if freq > AlertFreq then Alert
    else Normal
  }

  /** How agitated a label is: Calm < Normal < Alert < Active. */
  function Level(m: Mood): nat
  {
    match m
    case Neutral => 0
    case Calm => 0
    case Normal => 1
    case Alert => 2
    case Active => 3
  }

  /** Louder or higher input never yields a calmer label: the chain is
      monotone in both the volume and the frequency. */
  lemma ClassifyMonotone(vol1: real, freq1: real, vol2: real, freq2: real, calm: real)
    requires vol1 <= vol2 && freq1 <= freq2
    ensures Level(Classify(vol1, freq1, calm)) <= Level(Classify(vol2, freq2, calm))
  {
  }

  /** Raising the calm threshold never yields a more agitated label. */
  lemma ClassifyAntitoneInCalm(vol: real, freq: real, calm1: real, calm2: real)
    requires calm1 <= calm2
    ensures Level(Classify(vol, freq, calm2)) <= Level(Classify(vol, freq, calm1))
  {
  }

  /** The worked examples of the classifier's precedence. */
  lemma ClassifyExamples()
    ensures Classify(0.001, 5000.0, 0.01) == Calm
    ensures Classify(0.5, 100.0, 0.01) == Active
    ensures Classify(0.02, 1000.0, 0.01) == Alert
    ensures Classify(0.02, 100.0, 0.01) == Normal
  {
  }
}
