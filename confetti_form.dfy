/** The questionnaire page with confetti: the submit handler's check, where a
    number input only has to be non-empty, and the particle list that a
    successful submission fills and that each animation frame moves and
    prunes. */
module ConfettiForm {
  import opened JsNum
  import opened FormInputs
  import opened Seqs

  // The submit handler's check

  /** The two tests of the forEach: a non-number input must hold a non-blank
      trimmed value, a number input only a non-empty one. */
  predicate InputOk(input: Input)
  {
    (input.kind != "number" ==> Trim(input.value) != [])
    && (input.kind == "number" ==> input.value != [])
  }

  predicate EveryInputOk(inputs: seq<Input>)
  {
    forall k | 0 <= k < |inputs| :: InputOk(inputs[k])
  }

  /** The forEach that clears the allFilled flag. */
  method AllFilled(inputs: seq<Input>) returns (allFilled: bool)
    ensures allFilled <==> forall k | 0 <= k < |inputs| ::
      if inputs[k].kind == "number" then inputs[k].value != [] else Filled(inputs[k].value)
    ensures allFilled == EveryInputOk(inputs)
  {
    allFilled := true;
    for i := 0 to |inputs|
      invariant allFilled <==> forall k | 0 <= k < i ::
        if inputs[k].kind == "number" then inputs[k].value != [] else Filled(inputs[k].value)
    {
      var input := inputs[i];
      if Trim(input.value) == [] && input.kind != "number" {
        allFilled := false;
      }
      if input.kind == "number" && input.value == [] {
        allFilled := false;
      }
    }
  }

  /** A number input holding only white space passes, although its trimmed
      value is empty; the same value in a text input is rejected. */
  lemma BlankNumberPasses(v: string)
    requires v != [] && forall j | 0 <= j < |v| :: IsSpace(v[j])
    ensures EveryInputOk([Input("number", v)])
    ensures !EveryInputOk([Input("text", v)])
  {
    assert !Filled(v);
    assert "text"[0] != "number"[0];
    var text := [Input("text", v)];
    assert !InputOk(text[0]);
  }

  // Particles

  const GRAVITY: real := 0.5
  const DRAG: real := 0.98
  const TERMINAL: real := 6.0
  /** Particles per explosion, and in the delayed second burst. */
  const BURST: nat := 100
  const LATE_BURST: nat := 50

  const COLORS: seq<string> := [
    "#f44336", "#e91e63", "#9c27b0", "#673ab7", "#3f51b5", "#2196f3", "#03a9f4", "#00bcd4",
    "#009688", "#4caf50", "#8bc34a", "#ffeb3b", "#ffc107", "#ff9800", "#ff5722", "#795548"]

  /** The Math.random() draws that make one particle, in the order the code
      takes them: the colour, then size, horizontal and vertical speed, and
      the spin. */
  datatype Rolls = Rolls(color: real, size: real, vx: real, vy: real, spin: real)

  predicate Unit(r: real) { 0.0 <= r < 1.0 }

  predicate RollsOk(d: Rolls)
  {
    Unit(d.color) && Unit(d.size) && Unit(d.vx) && Unit(d.vy) && Unit(d.spin)
  }

  /** randomColor: one of the sixteen colours. */
  function RandomColor(r: real): (c: string)
    requires Unit(r)
    ensures c in COLORS
  {
    COLORS[(r * 16.0).Floor]
  }

  /** Position, velocity and angle of a particle. */
  datatype Motion = Motion(x: real, y: real, vx: real, vy: real, angle: real)

  /** The motion of a particle made at (x, y). */
  function Born(x: real, y: real, d: Rolls): (m: Motion)
    requires RollsOk(d)
    ensures m.x == x && m.y == y && m.angle == 0.0
    ensures -5.0 <= m.vx < 5.0 && -20.0 < m.vy <= -5.0
  {
    Motion(x, y, (d.vx - 0.5) * 10.0, d.vy * -15.0 - 5.0, 0.0)
  }

  /** update(): drag on the horizontal speed, gravity with the clamp to the
      terminal velocity, the move by the new velocity and the spin. */
  function Step(m: Motion, spin: real): Motion
  {
    var vx := m.vx * DRAG;
    var vy := MinR(m.vy + GRAVITY, TERMINAL);
    Motion(m.x + vx, m.y + vy, vx, vy, m.angle + spin * 0.1)
  }

  /** After any update the vertical speed is at most the terminal velocity,
      it has gained at most the gravity, and the particle has dropped by at
      most the terminal velocity. */
  lemma StepClamps(m: Motion, spin: real)
    ensures Step(m, spin).vy <= TERMINAL
    ensures Step(m, spin).vy <= m.vy + GRAVITY
    ensures Step(m, spin).y <= m.y + TERMINAL
  {
  }

  /** n frames of update. */
  function Steps(m: Motion, spin: real, n: nat): Motion
  {
    if n == 0 then m else Step(Steps(m, spin, n - 1), spin)
  }

  /** Gravity adds half a unit per frame until the clamp holds the vertical
      speed at the terminal velocity. */
  lemma {:induction false} StepsSpeed(m: Motion, spin: real, n: nat)
    requires m.vy <= TERMINAL
    ensures Steps(m, spin, n).vy == MinR(m.vy + GRAVITY * n as real, TERMINAL)
  {
    if n > 0 {
      StepsSpeed(m, spin, n - 1);
    }
  }

  /** A newly made particle falls at the terminal velocity from its 52nd
      frame on. */
  lemma BornReachesTerminal(x: real, y: real, d: Rolls, spin: real, n: nat)
    requires RollsOk(d) && n >= 52
    ensures Steps(Born(x, y, d), spin, n).vy == TERMINAL
  {
    StepsSpeed(Born(x, y, d), spin, n);
  }

  /** A newly made particle is above its starting point after its first
      frame, so a burst at the centre of the canvas loses none of its
      particles to the first prune. */
  lemma BornStaysOnCanvas(x: real, y: real, d: Rolls, spin: real)
    requires RollsOk(d)
    ensures Step(Born(x, y, d), spin).y < y
  {
  }

  class ConfettiParticle {
    var x: real
    var y: real
    var size: real
    var color: string
    var vx: real
    var vy: real
    var gravity: real
    var drag: real
    var terminalVelocity: real
    var spin: real
    var angle: real

    /** The constants every particle carries, and the ranges of its draws. */
    ghost predicate Valid()
      reads this
    {
      gravity == GRAVITY && drag == DRAG && terminalVelocity == TERMINAL
      && (spin == -1.0 || spin == 1.0) && 3.0 <= size < 11.0 && color in COLORS
    }

    function Snapshot(): Motion
      reads this
    {
      Motion(x, y, vx, vy, angle)
    }

    constructor (x0: real, y0: real, color0: string, d: Rolls)
      requires RollsOk(d) && color0 in COLORS
      ensures Valid() && Snapshot() == Born(x0, y0, d) && color == color0
      ensures spin == (if d.spin < 0.5 then -1.0 else 1.0)
    {
      x := x0;
      y := y0;
      size := d.size * 8.0 + 3.0;
      color := color0;
      vx := (d.vx - 0.5) * 10.0;
      vy := d.vy * -15.0 - 5.0;
      gravity := 0.5;
      drag := 0.98;
      terminalVelocity := 6.0;
      spin := if d.spin < 0.5 then -1.0 else 1.0;
      angle := 0.0;
    }

    /** update(): one frame of motion; nothing but the motion changes. */
    method Update()
      requires Valid()
      modifies this
      ensures Valid() && vy <= terminalVelocity
      ensures Snapshot() == Step(old(Snapshot()), spin)
      ensures spin == old(spin) && size == old(size) && color == old(color)
    {
      vx := vx * drag;
      vy := vy + gravity;
      if vy > terminalVelocity {
        vy := terminalVelocity;
      }
      x := x + vx;
      y := y + vy;
      angle := angle + spin * 0.1;
    }
  }

  // The particle list

  /** No particle appears twice in the list. */
  ghost predicate Distinct(ps: seq<ConfettiParticle>)
  {
    forall i, j | 0 <= i < j < |ps| :: ps[i] != ps[j]
  }

  /** The particles of ps that are not below the canvas, in their order. */
  function Kept(ps: seq<ConfettiParticle>, height: real): (r: seq<ConfettiParticle>)
    reads ps
    ensures |r| <= |ps|
  {
    if ps == [] then []
    else (if ps[0].y > height then [] else [ps[0]]) + Kept(ps[1..], height)
  }

  /** The survivors are exactly the particles of the list that are not below
      the canvas. */
  lemma {:induction false} KeptMembers(ps: seq<ConfettiParticle>, height: real)
    ensures forall p | p in Kept(ps, height) :: p in ps && p.y <= height
    ensures forall p | p in ps && p.y <= height :: p in Kept(ps, height)
  {
    if ps != [] {
      KeptMembers(ps[1..], height);
      forall p | p in ps
        ensures p == ps[0] || p in ps[1..]
      {
        var k :| 0 <= k < |ps| && ps[k] == p;
        if k > 0 {
          assert ps[1..][k - 1] == p;
        }
      }
    }
  }

  /** The survivors of a list of well-formed particles are well formed. */
  lemma KeptValid(ps: seq<ConfettiParticle>, height: real)
    requires forall k | 0 <= k < |ps| :: ps[k].Valid()
    ensures forall k | 0 <= k < |Kept(ps, height)| :: Kept(ps, height)[k].Valid()
  {
    var r := Kept(ps, height);
    KeptMembers(ps, height);
    forall k | 0 <= k < |r|
      ensures r[k].Valid()
    {
      assert r[k] in ps;
    }
  }

  /** Pruning a list without repetitions leaves one without repetitions. */
  lemma {:induction false} KeptDistinct(ps: seq<ConfettiParticle>, height: real)
    requires Distinct(ps)
    ensures Distinct(Kept(ps, height))
  {
    if ps != [] {
      var rest := ps[1..];
      assert Distinct(rest) by {
        forall i, j | 0 <= i < j < |rest|
          ensures rest[i] != rest[j]
        {
          assert rest[i] == ps[i + 1] && rest[j] == ps[j + 1];
        }
      }
      KeptDistinct(rest, height);
      KeptMembers(rest, height);
      assert ps[0] !in rest by {
        forall j | 0 <= j < |rest|
          ensures rest[j] != ps[0]
        {
          assert rest[j] == ps[j + 1];
        }
      }
      DistinctCons(ps[0], Kept(rest, height));
    }
  }

  lemma DistinctCons(p: ConfettiParticle, r: seq<ConfettiParticle>)
    requires Distinct(r) && p !in r
    ensures Distinct([p] + r)
  {
    var s := [p] + r;
    forall i, j | 0 <= i < j < |s|
      ensures s[i] != s[j]
    {
      assert s[j] == r[j - 1];
      if i > 0 {
        assert s[i] == r[i - 1];
      }
    }
  }

  /** Pruning a list whose tail is all on the canvas keeps that tail whole. */
  lemma {:induction false} KeptAppend(a: seq<ConfettiParticle>, b: seq<ConfettiParticle>, height: real)
    requires forall k | 0 <= k < |b| :: b[k].y <= height
    ensures Kept(a + b, height) == Kept(a, height) + b
  {
    if a == [] {
      KeptAll(b, height);
      assert a + b == b;
    } else {
      assert (a + b)[1..] == a[1..] + b;
      KeptAppend(a[1..], b, height);
    }
  }

  /** ps is a burst just made at (x, y) with the draws rolls. */
  ghost predicate BornAt(ps: seq<ConfettiParticle>, x: real, y: real, rolls: seq<Rolls>)
    reads ps
  {
    |ps| <= |rolls|
    && forall k | 0 <= k < |ps| :: RollsOk(rolls[k]) && ps[k].Snapshot() == Born(x, y, rolls[k])
  }

  /** ps is a burst made at (x, y) with the draws rolls, moved one frame. */
  ghost predicate MovedAt(ps: seq<ConfettiParticle>, x: real, y: real, rolls: seq<Rolls>)
    reads ps
  {
    |ps| <= |rolls|
    && forall k | 0 <= k < |ps| ::
      RollsOk(rolls[k]) && ps[k].Snapshot() == Step(Born(x, y, rolls[k]), ps[k].spin)
  }

  /** A list whose particles from n0 on are all on the canvas keeps them
      whole, at its end, when it is pruned. */
  lemma KeepBurst(ps1: seq<ConfettiParticle>, n0: nat, height: real)
    requires n0 <= |ps1| && forall k | n0 <= k < |ps1| :: ps1[k].y <= height
    ensures Kept(ps1, height) == Kept(ps1[..n0], height) + ps1[n0..]
  {
    assert ps1 == ps1[..n0] + ps1[n0..];
    KeptAppend(ps1[..n0], ps1[n0..], height);
  }

  lemma {:induction false} KeptAll(b: seq<ConfettiParticle>, height: real)
    requires forall k | 0 <= k < |b| :: b[k].y <= height
    ensures Kept(b, height) == b
  {
    if b != [] {
      KeptAll(b[1..], height);
    }
  }

  // The page

  class Page {
    /** style.display of the form and of the success block. */
    var formDisplay: string
    var successDisplay: string
    /** The canvas size, taken from the container by resizeCanvas. */
    var width: real
    var height: real
    var particles: seq<ConfettiParticle>
    /** animationLoopId is not null: a frame has been requested. */
    var running: bool

    ghost predicate Valid()
      reads this`width, this`height, this`particles, particles
    {
      width >= 0.0 && height >= 0.0 && Distinct(particles)
      && forall k | 0 <= k < |particles| :: particles[k].Valid()
    }

    /** The page start: no particles, no frame requested, and the canvas
        sized to its container. */
    constructor (formDisplay0: string, successDisplay0: string, w: nat, h: nat)
      ensures Valid()
      ensures formDisplay == formDisplay0 && successDisplay == successDisplay0
      ensures width == w as real && height == h as real && particles == [] && !running
    {
      formDisplay := formDisplay0;
      successDisplay := successDisplay0;
      width := w as real;
      height := h as real;
      particles := [];
      running := false;
    }

    /** createConfetti: count new particles at (x, y) pushed at the end. */
    method CreateConfetti(count: nat, x: real, y: real, rolls: seq<Rolls>) returns (ghost burst: seq<ConfettiParticle>)
      requires Valid() && |rolls| >= count && forall k | 0 <= k < |rolls| :: RollsOk(rolls[k])
      modifies this`particles
      ensures running == old(running) && width == old(width) && height == old(height)
      ensures Valid() && particles == old(particles) + burst && |burst| == count
      ensures forall k | 0 <= k < |burst| :: fresh(burst[k])
      ensures BornAt(burst, x, y, rolls)
    {
      burst := [];
      for i := 0 to count
        invariant Valid() && particles == old(particles) + burst && |burst| == i
        invariant forall k | 0 <= k < |burst| :: fresh(burst[k]) && burst[k].Snapshot() == Born(x, y, rolls[k])
      {
        var p := new ConfettiParticle(x, y, RandomColor(rolls[i].color), rolls[i]);
        particles := particles + [p];
        burst := burst + [p];
      }
    }

    /** startConfettiExplosion: a burst of BURST particles at the centre of
        the canvas, then a first frame unless one is already requested. The
        burst comes last; on a first frame it has moved once and none of it
        is pruned, while the older particles are moved and pruned. */
    method StartConfettiExplosion(rolls: seq<Rolls>) returns (x: real, y: real, ghost burst: seq<ConfettiParticle>)
      requires Valid() && |rolls| >= BURST && forall k | 0 <= k < |rolls| :: RollsOk(rolls[k])
      modifies this`particles, this`running, particles
      ensures Valid() && running && |burst| == BURST
      ensures forall k | 0 <= k < |burst| :: fresh(burst[k])
      ensures x == width / 2.0 && y == height / 2.0
      ensures old(running) ==> BornAt(burst, x, y, rolls)
      ensures old(running) ==> particles == old(particles) + burst
      ensures !old(running) ==> MovedAt(burst, x, y, rolls)
      ensures !old(running) ==> particles == Kept(old(particles), height) + burst
    {
      x := width / 2.0;
      y := height / 2.0;
      ghost var older := particles;
      burst := CreateConfetti(BURST, x, y, rolls);
      if !running {
        FirstFrame(older, burst, x, y, rolls);
      }
    }

    /** The first frame after a burst made at (x, y) and appended to older
        particles: the burst moves once and stays whole, at the end of the
        list; the older ones are moved and pruned. */
    method FirstFrame(ghost older: seq<ConfettiParticle>, ghost burst: seq<ConfettiParticle>, x: real, y: real, rolls: seq<Rolls>)
      requires Valid() && particles == older + burst && 0.0 <= y <= height
      requires BornAt(burst, x, y, rolls)
      modifies this`particles, this`running, particles
      ensures width == old(width) && height == old(height)
      ensures Valid() && (running <==> particles != [])
      ensures particles == Kept(older, height) + burst
      ensures MovedAt(burst, x, y, rolls)
    {
      ghost var ps1 := particles;
      UpdateAndDraw();
      forall k | |older| <= k < |ps1|
        ensures ps1[k].y <= height
        ensures ps1[k].Snapshot() == Step(Born(x, y, rolls[k - |older|]), ps1[k].spin)
      {
        assert burst[k - |older|] == ps1[k];
        BornStaysOnCanvas(x, y, rolls[k - |older|], ps1[k].spin);
      }
      assert ps1[..|older|] == older && ps1[|older|..] == burst;
      KeepBurst(ps1, |older|, height);
      forall k | 0 <= k < |burst|
        ensures burst[k].Snapshot() == Step(Born(x, y, rolls[k]), burst[k].spin)
      {
        assert burst[k] == ps1[|older| + k];
      }
    }

    /** The timer callback of startConfettiExplosion: LATE_BURST more
        particles at the same point, without requesting a frame. */
    method DelayedBurst(x: real, y: real, rolls: seq<Rolls>) returns (ghost burst: seq<ConfettiParticle>)
      requires Valid() && |rolls| >= LATE_BURST && forall k | 0 <= k < |rolls| :: RollsOk(rolls[k])
      modifies this`particles
      ensures Valid() && running == old(running)
      ensures particles == old(particles) + burst && |burst| == LATE_BURST
      ensures BornAt(burst, x, y, rolls)
    {
      burst := CreateConfetti(LATE_BURST, x, y, rolls);
    }

    /** The submit listener. A rejected form changes nothing (the alert is
        not modelled); an accepted one is hidden, the success block shown
        and the confetti started; the late burst is then pending at the
        centre the timer closes over. */
    method Submit(inputs: seq<Input>, rolls: seq<Rolls>) returns (accepted: bool, timer: Option<(real, real)>, ghost burst: seq<ConfettiParticle>)
      requires Valid() && |rolls| >= BURST && forall k | 0 <= k < |rolls| :: RollsOk(rolls[k])
      modifies this, particles
      ensures Valid() && accepted == EveryInputOk(inputs)
      ensures !accepted ==> unchanged(this) && unchanged(particles) && burst == []
      ensures accepted ==> formDisplay == "none" && successDisplay == "block" && running
      ensures accepted ==> |burst| == BURST && forall k | 0 <= k < |burst| :: fresh(burst[k])
      ensures accepted <==> timer.Some?
      ensures accepted ==> timer.value == (width / 2.0, height / 2.0)
      ensures accepted && old(running) ==> BornAt(burst, timer.value.0, timer.value.1, rolls)
      ensures accepted && !old(running) ==> MovedAt(burst, timer.value.0, timer.value.1, rolls)
      ensures accepted ==> particles == (if old(running) then old(particles) else Kept(old(particles), height)) + burst
    {
      burst, timer := [], None;
      accepted := AllFilled(inputs);
      if !accepted {
        return;
      }
      formDisplay := "none";
      successDisplay := "block";
      var x, y;
      x, y, burst := StartConfettiExplosion(rolls);
      timer := Some((x, y));
    }

    /** updateAndDraw: every particle moves one frame, from the last to the
        first; the ones now below the canvas are spliced out, the rest keep
        their order; another frame is requested exactly when particles
        remain. */
    method UpdateAndDraw()
      requires Valid()
      modifies this`particles, this`running, particles
      ensures Valid()
      ensures particles == Kept(old(particles), height)
      ensures forall k | 0 <= k < |old(particles)| ::
        old(particles)[k].Snapshot() == Step(old(particles[k].Snapshot()), old(particles[k].spin))
        && old(particles)[k].spin == old(particles[k].spin)
      ensures running <==> particles != []
    {
      ghost var ps0 := particles;
      ghost var m0 := seq(|ps0|, k requires 0 <= k < |ps0| reads ps0 => ps0[k].Snapshot());
      ghost var sp := seq(|ps0|, k requires 0 <= k < |ps0| reads ps0 => ps0[k].spin);
      assert ps0[|ps0|..] == [] && ps0[..|ps0|] == ps0;
      Sweep(ps0, m0, sp);
      running := |particles| > 0;
      FrameDone(ps0, m0, sp);
    }

    /** The reverse loop over the particles of updateAndDraw: each one moves
        and is spliced out when it has left the canvas. */
    method Sweep(ghost ps0: seq<ConfettiParticle>, ghost m0: seq<Motion>, ghost sp: seq<real>)
      requires Distinct(ps0) && Frame(ps0, m0, sp, |ps0|) && particles == ps0
      modifies this`particles, ps0
      ensures Frame(ps0, m0, sp, 0)
    {
      var i := |particles|;
      while i > 0
        invariant 0 <= i <= |ps0|
        invariant Frame(ps0, m0, sp, i)
      {
        i := i - 1;
        FrameOne(i, ps0, m0, sp);
      }
    }

    /** The loop has reached the front: every particle has moved, and the
        list is the survivors, still without repetitions. */
    lemma FrameDone(ps0: seq<ConfettiParticle>, m0: seq<Motion>, sp: seq<real>)
      requires Distinct(ps0) && Frame(ps0, m0, sp, 0)
      ensures Valid() && particles == Kept(ps0, height)
      ensures forall k | 0 <= k < |ps0| :: ps0[k].Snapshot() == Step(m0[k], sp[k]) && ps0[k].spin == sp[k]
    {
      assert ps0[0..] == ps0 && ps0[..0] == [];
      KeptDistinct(ps0, height);
      KeptValid(ps0, height);
    }

    /** The state of the reverse loop of updateAndDraw once it has reached
        index i: the particles from i on have moved one frame (Moved), and
        the list is the untouched prefix followed by the survivors. */
    ghost predicate Frame(ps0: seq<ConfettiParticle>, m0: seq<Motion>, sp: seq<real>, i: nat)
      reads this`height, this`width, this`particles, ps0
    {
      i <= |ps0| && width >= 0.0 && height >= 0.0 && Moved(ps0, m0, sp, i)
      && particles == ps0[..i] + Kept(ps0[i..], height)
    }

    /** One turn of that loop: particle i moves, and is spliced out when it
        has left the canvas. */
    method FrameOne(i: nat, ghost ps0: seq<ConfettiParticle>, ghost m0: seq<Motion>, ghost sp: seq<real>)
      requires i < |ps0| && Distinct(ps0) && Frame(ps0, m0, sp, i + 1)
      modifies this`particles, ps0[i]
      ensures Frame(ps0, m0, sp, i)
    {
      ghost var rest := Kept(ps0[i + 1..], height);
      MoveOne(particles[i], ps0, i, m0, sp, height);
      Prune(i, ps0, rest);
    }

    /** The splice of that turn: particle i, just moved, leaves the list
        when it is below the canvas; rest, the survivors after it, stay. */
    method Prune(i: nat, ghost ps0: seq<ConfettiParticle>, ghost rest: seq<ConfettiParticle>)
      requires i < |ps0| && particles == ps0[..i + 1] + rest
      modifies this`particles
      ensures particles == ps0[..i] + ((if ps0[i].y > height then [] else [ps0[i]]) + rest)
    {
      assert ps0[..i + 1] == ps0[..i] + [ps0[i]];
      if particles[i].y > height {
        RemoveAt(ps0[..i], ps0[i], rest);
        particles := particles[..i] + particles[i + 1..];
      }
    }
  }

  /** Particles from index i of ps0 on have moved one frame from the motions
      m0, the ones before i still have them, and every spin is kept in sp. */
  ghost predicate Moved(ps0: seq<ConfettiParticle>, m0: seq<Motion>, sp: seq<real>, i: nat)
    reads ps0
  {
    i <= |ps0| == |m0| == |sp|
    && (forall k | 0 <= k < |ps0| :: ps0[k].Valid() && ps0[k].spin == sp[k])
    && (forall k | i <= k < |ps0| :: ps0[k].Snapshot() == Step(m0[k], sp[k]))
    && (forall k | 0 <= k < i :: ps0[k].Snapshot() == m0[k])
  }

  /** The update of particle i in the reverse loop: it moves, every other
      particle is left alone, and the survivors after it stay the same. */
  method MoveOne(p: ConfettiParticle, ghost ps0: seq<ConfettiParticle>, i: nat, ghost m0: seq<Motion>, ghost sp: seq<real>, height: real)
    requires i < |ps0| && p == ps0[i] && Distinct(ps0) && Moved(ps0, m0, sp, i + 1)
    modifies p
    ensures Moved(ps0, m0, sp, i)
    ensures Kept(ps0[i + 1..], height) == old(Kept(ps0[i + 1..], height))
    ensures Kept(ps0[i..], height) == (if p.y > height then [] else [p]) + Kept(ps0[i + 1..], height)
  {
    assert p !in ps0[i + 1..] by {
      forall k | i + 1 <= k < |ps0|
        ensures ps0[k] != p
      {
      }
    }
    p.Update();
    assert ps0[i..][1..] == ps0[i + 1..];
  }
}
