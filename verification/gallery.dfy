/**
  The pulse gallery: createPulse snapshots the read-outs into a record and
  puts it at the front of the list, dropping the last entry once the list
  is over its cap (app.js:179-185); clearAllPulses empties the list when
  the user confirms (app.js:198). The list is kept newest first.
 */
module Gallery {
  import opened Mood
  import opened Display

  /** Most pulses the list keeps after a creation. */
  const MaxPulses: nat := 200

  /** One saved pulse: creation time (ms since the epoch), the displayed
      volume and frequency, and the displayed mood. */
  datatype Pulse = Pulse(ts: int, vol: real, freq: real, mood: Mood)

  /** The record createPulse builds: it reads the bars and the label, not
      the raw features. A bar reads back capped at its maximum, so the stored
      volume never exceeds the volume bar's maximum, even after the calm
      input has lowered that maximum below the value last written. */
  function Snapshot(d: Readout, now: int): (p: Pulse)
    ensures p.ts == now && p.mood == d.mood
    ensures p.vol <= d.volMax && p.vol <= d.volValue
    ensures d.volValue <= d.volMax ==> p.vol == d.volValue
    ensures p.vol == d.volValue || p.vol == d.volMax
    ensures p.freq <= d.freqMax && p.freq <= d.freqValue
    ensures d.freqValue <= d.freqMax ==> p.freq == d.freqValue
    ensures p.freq == d.freqValue || p.freq == d.freqMax
  {
    Pulse(now, Reading(d.volValue, d.volMax), Reading(d.freqValue, d.freqMax), d.mood)
  }

  /** unshift then, if the list is now longer than the cap, one pop. */
  function Push(pulses: seq<Pulse>, p: Pulse): (r: seq<Pulse>)
    ensures |r| == if |pulses| < MaxPulses then |pulses| + 1 else |pulses|
    ensures 0 < |r| && r[0] == p
    ensures r[1..] == pulses[..|r| - 1]
    ensures |pulses| <= MaxPulses ==> |r| <= MaxPulses
  {
    var grown := [p] + pulses;
    if |grown| > MaxPulses then grown[..|grown| - 1] else grown
  }

  /** createPulse: record the current read-outs at time `now`. */
  function CreatePulse(pulses: seq<Pulse>, d: Readout, now: int): (r: seq<Pulse>)
    ensures 0 < |r| && r[0] == Snapshot(d, now)
    ensures |r| == if |pulses| < MaxPulses then |pulses| + 1 else |pulses|
    ensures |pulses| <= MaxPulses ==> |r| == MinNat(|pulses| + 1, MaxPulses)
    ensures r[1..] == pulses[..|r| - 1]
    ensures r[0].vol <= d.volMax && r[0].freq <= d.freqMax
  {
    Push(pulses, Snapshot(d, now))
  }

  /** A pulse created after a frame holds the volume bar's value, which
      updateUI has already clamped, so it never exceeds the bar's maximum
      however loud the frame was; its mood is the frame's label. */
  lemma PulseVolumeWithinBar(pulses: seq<Pulse>, d: Readout, vol: real, freq: real, calm: real, now: int)
    ensures var p := CreatePulse(pulses, UpdateUI(d, vol, freq, calm), now)[0];
            && p.vol <= d.volMax && p.vol <= vol
            && (vol <= d.volMax ==> p.vol == vol)
            && p.mood == Classify(vol, freq, calm)
  {
  }

  /** clearAllPulses: empty the list only when the user confirms. */
  function ClearAll(pulses: seq<Pulse>, confirmed: bool): (r: seq<Pulse>)
    ensures confirmed ==> |r| == 0
    ensures !confirmed ==> r == pulses
  {
    if confirmed then [] else pulses
  }

  /** Creating a pulse on a full list drops exactly the oldest entry. */
  lemma FullListDropsOldest(pulses: seq<Pulse>, p: Pulse)
    requires |pulses| == MaxPulses
    ensures Push(pulses, p) == [p] + pulses[..MaxPulses - 1]
  {
    var r := Push(pulses, p);
    assert r == [r[0]] + r[1..];
  }

  /** Below the cap nothing is dropped: the old list follows the new pulse. */
  lemma ShortListKeepsAll(pulses: seq<Pulse>, p: Pulse)
    requires |pulses| < MaxPulses
    ensures Push(pulses, p) == [p] + pulses
  {
    var r := Push(pulses, p);
    assert r == [r[0]] + r[1..];
  }

  /** The gallery operations a user can trigger. */
  datatype Op = Create(d: Readout, now: int) | Clear(confirmed: bool)

  function Apply(pulses: seq<Pulse>, op: Op): seq<Pulse>
  {
    match op
    case Create(d, now) => CreatePulse(pulses, d, now)
    case Clear(confirmed) => ClearAll(pulses, confirmed)
  }

  function Replay(pulses: seq<Pulse>, ops: seq<Op>): seq<Pulse>
  {
    if |ops| == 0 then pulses else Apply(Replay(pulses, ops[..|ops| - 1]), ops[|ops| - 1])
  }

  /** Starting from a list within the cap, no sequence of creations and
      clears ever takes it past 200 entries. */
  lemma {:induction false} ReplayStaysWithinCap(pulses: seq<Pulse>, ops: seq<Op>)
    requires |pulses| <= MaxPulses
    ensures |Replay(pulses, ops)| <= MaxPulses
  {
    if |ops| > 0 {
      ReplayStaysWithinCap(pulses, ops[..|ops| - 1]);
    }
  }

  function PushAll(pulses: seq<Pulse>, ps: seq<Pulse>): seq<Pulse>
  {
    if |ps| == 0 then pulses else Push(PushAll(pulses, ps[..|ps| - 1]), ps[|ps| - 1])
  }

  function Reverse(ps: seq<Pulse>): (r: seq<Pulse>)
    ensures |r| == |ps|
  {
    if |ps| == 0 then [] else [ps[|ps| - 1]] + Reverse(ps[..|ps| - 1])
  }

  function MinNat(a: nat, b: nat): nat
  {
    if a <= b then a else b
  }

  /** Creating the pulses `ps` one after another on a list within the cap
      gives the newest 200 of (ps reversed, then the old list): the list is
      newest first and only the oldest entries fall off. */
  lemma {:induction false} PushAllNewestFirst(pulses: seq<Pulse>, ps: seq<Pulse>)
    requires |pulses| <= MaxPulses
    ensures PushAll(pulses, ps) == (Reverse(ps) + pulses)[..MinNat(|ps| + |pulses|, MaxPulses)]
  {
    if |ps| > 0 {
      var init := ps[..|ps| - 1];
      var p := ps[|ps| - 1];
      PushAllNewestFirst(pulses, init);
      var x := Reverse(init) + pulses;
      var m := MinNat(|x|, MaxPulses);
      var prev := PushAll(pulses, init);
      assert prev == x[..m];
      var r := Push(prev, p);
      assert Reverse(ps) + pulses == [p] + x;
      var k := MinNat(|ps| + |pulses|, MaxPulses);
      assert |r| == k;
      assert r == [p] + prev[..k - 1] by {
        assert r == [r[0]] + r[1..];
      }
      assert ([p] + x)[..k] == [p] + x[..k - 1];
      assert prev[..k - 1] == x[..k - 1];
    }
  }
}
