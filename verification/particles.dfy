/**
  The particle pool of the orb renderer (app.js:48-59). Each frame drawOrb
  computes a particle count, capped at 120, and grows the pool by appending
  fresh particles or shrinks it by truncation until its length is that
  count. Particles are opaque here; a fresh one is whatever `spawn` yields
  for its index (the source draws it from Math.random).
 */
module Particles {

  /** Most particles a frame draws. */
  const MaxParticles: nat := 120

  /** Math.min(120, raw): the count drawOrb resizes the pool to, given the
      rounded volume- and frequency-driven value. */
  function ParticleCount(raw: nat): (c: nat)
    ensures c <= MaxParticles && c <= raw
    ensures raw <= MaxParticles ==> c == raw
    ensures c == raw || c == MaxParticles
  {
    if raw < MaxParticles then raw else MaxParticles
  }

  /** The pool after resizing to `count`. */
  function Resize<P>(pool: seq<P>, count: nat, spawn: nat -> P): (r: seq<P>)
    ensures |r| == count
    ensures forall i :: 0 <= i < |pool| && i < count ==> r[i] == pool[i]
    ensures forall i :: |pool| <= i < count ==> r[i] == spawn(i)
  {
    if count <= |pool| then pool[..count]
    else pool + seq(count - |pool|, k requires 0 <= k => spawn(|pool| + k))
  }

  /** The loop of drawOrb: push spawned particles while the pool is short,
      otherwise cut its length down to `count`. */
  method ResizePool<P>(pool: seq<P>, count: nat, spawn: nat -> P) returns (r: seq<P>)
    ensures r == Resize(pool, count, spawn)
  {
    r := pool;
    if |r| < count {
      var i := |r|;
      while i < count
        invariant |pool| <= i <= count
        invariant |r| == i
        invariant r[..|pool|] == pool
        invariant forall j :: |pool| <= j < i ==> r[j] == spawn(j)
      {
        r := r + [spawn(i)];
        i := i + 1;
      }
    } else if |r| > count {
      r := r[..count];
    }
    SameAsResize(pool, count, spawn, r);
  }

  /** Any sequence of the right length that keeps the old prefix and holds
      the spawned particles past it is the resized pool. */
  lemma SameAsResize<P>(pool: seq<P>, count: nat, spawn: nat -> P, r: seq<P>)
    requires |r| == count
    requires forall i :: 0 <= i < |pool| && i < count ==> r[i] == pool[i]
    requires forall i :: |pool| <= i < count ==> r[i] == spawn(i)
    ensures r == Resize(pool, count, spawn)
  {
    var s := Resize(pool, count, spawn);
    assert forall i :: 0 <= i < count ==> r[i] == s[i];
  }

  /** Resizing twice to the same count is the same as resizing once. */
  lemma ResizeIdempotent<P>(pool: seq<P>, count: nat, spawn: nat -> P)
    ensures Resize(Resize(pool, count, spawn), count, spawn) == Resize(pool, count, spawn)
  {
  }

  /** A pool already of the requested size is left alone. */
  lemma ResizeAtCountIsIdentity<P>(pool: seq<P>, spawn: nat -> P)
    ensures Resize(pool, |pool|, spawn) == pool
  {
  }

  /** Resizing to a capped count never yields more than 120 particles. */
  lemma PoolWithinCap<P>(pool: seq<P>, raw: nat, spawn: nat -> P)
    ensures |Resize(pool, ParticleCount(raw), spawn)| <= MaxParticles
  {
  }
}
