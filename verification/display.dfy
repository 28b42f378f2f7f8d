/**
  The numeric read-outs of the live view and the settings that feed them:
  updateUI (app.js:98-108) writes the volume and frequency bars and the mood
  label, and the calm-threshold input (app.js:219) moves the volume bar's
  maximum. A pulse later copies these displayed values, not the raw ones.
 */
module Display {
  import opened Mood
  import Signal

  /** The least maximum the calm input gives the volume bar (app.js:219). */
  const VolBarFloor: real := 0.08

  /** The state of the read-outs: each bar's value and maximum, and the
      mood label's text. */
  datatype Readout = Readout(volValue: real, volMax: real, freqValue: real, freqMax: real, mood: Mood)

  function Min(a: real, b: real): real
  {
    if a <= b then a else b
  }

  function Max(a: real, b: real): real
  {
    if a <= b then b else a
  }

  /** What a bar's `value` reads back as: the stored value, capped at the
      bar's maximum, as a progress or meter element reports it. */
  function Reading(value: real, max: real): (r: real)
    ensures r <= max && r <= value
    ensures r == value || r == max
  {
    Min(value, max)
  }

  /** updateUI: clamp the two bar values to their maxima and relabel the
      mood from the unclamped values. */
  function UpdateUI(d: Readout, vol: real, freq: real, calm: real): (r: Readout)
    ensures r.volMax == d.volMax && r.freqMax == d.freqMax
    ensures r.volValue <= r.volMax && r.volValue <= vol
    ensures r.volValue == vol || r.volValue == r.volMax
    ensures vol <= d.volMax ==> r.volValue == vol
    ensures r.freqValue <= r.freqMax && r.freqValue <= freq
    ensures r.freqValue == freq || r.freqValue == r.freqMax
    ensures freq <= d.freqMax ==> r.freqValue == freq
    ensures r.mood == Classify(vol, freq, calm)
  {
    Readout(Min(d.volMax, vol), d.volMax, Min(d.freqMax, freq), d.freqMax, Classify(vol, freq, calm))
  }

  /** The calm-threshold input (the threshold itself is passed to the
      classifier by the caller): move the volume bar's maximum to
      max(0.08, 10 * calm). */
  function SetCalm(d: Readout, calm: real): (r: Readout)
    ensures r == d.(volMax := r.volMax)
    ensures VolBarFloor <= r.volMax && 10.0 * calm <= r.volMax
    ensures r.volMax == VolBarFloor || r.volMax == 10.0 * calm
  {
    d.(volMax := Max(VolBarFloor, calm * 10.0))
  }

  /** When the volume bar's maximum lies strictly above the Active threshold
      and not below the calm threshold, clamping does not change the label:
      the displayed volume and frequency classify to the displayed mood. */
  lemma ClampedReadoutKeepsMood(d: Readout, vol: real, freq: real, calm: real)
    requires ActiveVolume < d.volMax && calm <= d.volMax
    requires freq <= d.freqMax
    ensures var r := UpdateUI(d, vol, freq, calm);
            Classify(r.volValue, r.freqValue, calm) == r.mood
  {
  }

  /** After the calm input has been set to a threshold above 0.008 (so the
      bar's maximum is 10 * calm > 0.08), a frame whose frequency fits the
      frequency bar shows a volume and frequency that classify to the mood
      it shows. */
  lemma CalmInputKeepsReadoutConsistent(d: Readout, calm: real, vol: real, freq: real)
    requires 0.008 < calm
    requires freq <= d.freqMax
    ensures var r := UpdateUI(SetCalm(d, calm), vol, freq, calm);
            Classify(r.volValue, r.freqValue, calm) == r.mood
  {
    var d' := SetCalm(d, calm);
    assert d'.volMax == calm * 10.0;
    ClampedReadoutKeepsMood(d', vol, freq, calm);
  }

  /** The bar's floor and the Active threshold are both 0.08. With the
      bar's maximum at that floor (any calm threshold up to 0.008), a loud
      low tone is shown as Active while the displayed volume, 0.08, on its
      own classifies as Normal. */
  lemma ClampAtActiveThresholdSplitsMood(d: Readout)
    requires 100.0 <= d.freqMax
    ensures VolBarFloor == ActiveVolume
    ensures var r := UpdateUI(SetCalm(d, 0.005), 0.5, 100.0, 0.005);
            && r.mood == Active
            && r.volValue == VolBarFloor
            && Classify(r.volValue, r.freqValue, 0.005) == Normal
  {
  }

  /** startMic sets the frequency bar's maximum to half the sample rate
      (app.js:123); every peak frequency lies below it, so the frequency bar
      always shows the estimate itself. */
  lemma FrequencyBarShowsPeak(d: Readout, vol: real, calm: real, bin: nat, sampleRate: real, len: nat)
    requires 0.0 < sampleRate && bin < len
    requires d.freqMax == sampleRate / 2.0
    ensures UpdateUI(d, vol, Signal.BinToHz(bin, sampleRate, len), calm).freqValue
            == Signal.BinToHz(bin, sampleRate, len)
  {
  }
}
