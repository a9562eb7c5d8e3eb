/** The player character: a key map written by keyboard events, and a
    once-per-frame update that turns held keys into camera moves, a jump,
    gravity, and the walk and wave animation counters. */
module Characters {
  import opened Geometry
  import opened Scene

  datatype Option<T> = None | Some(value: T)

  const WalkSpeed: int := 6
  const JumpVelocity: real := -15.0
  const Gravity: real := 0.6
  /** The ground line lies this far above the bottom of the canvas. */
  const GroundOffset: int := 250
  const CharacterWidth: real := 50.0
  const CharacterHeight: real := 120.0
  /** The walk cycle toggles every this many walking frames. */
  const WalkFramePeriod: nat := 8

  const Phrases: seq<string> := [
    "Hi! Welcome to my room! \U{1F44B}",
    "Use Arrow Keys to explore!",
    "Check out my projects!",
    "Move around!",
    "Games to the right!",
    "About me to the left!"
  ]

  // Reading the key map. A code never pressed is absent from the map and
  // reads as not held, as an undefined entry is falsy.

  predicate Held(keys: map<string, bool>, code: string) {
    code in keys && keys[code]
  }

  predicate LeftHeld(keys: map<string, bool>) {
    Held(keys, "ArrowLeft") || Held(keys, "KeyA")
  }

  predicate RightHeld(keys: map<string, bool>) {
    Held(keys, "ArrowRight") || Held(keys, "KeyD")
  }

  predicate AscendHeld(keys: map<string, bool>) {
    Held(keys, "ArrowUp") || Held(keys, "KeyW") || Held(keys, "Space")
  }

  /** The camera deltas one update sends, in call order: the left branch
      runs before the right one, so both keys held send -6 then +6. */
  function CameraDeltas(keys: map<string, bool>): (ds: seq<int>)
    ensures ds == [] <==> !LeftHeld(keys) && !RightHeld(keys)
    ensures LeftHeld(keys) && RightHeld(keys) ==> ds == [-6, 6]
    ensures LeftHeld(keys) && !RightHeld(keys) ==> ds == [-6]
    ensures !LeftHeld(keys) && RightHeld(keys) ==> ds == [6]
  {
    (if LeftHeld(keys) then [-WalkSpeed] else []) + (if RightHeld(keys) then [WalkSpeed] else [])
  }

  /** With both direction keys held the two moves cancel, except against a
      wall, where the clamped first move is undone by the full second one. */
  lemma OpposingKeysShift(x: int)
    requires MinCameraX <= x <= MaxCameraX
    ensures MinCameraX + 6 <= x <= MaxCameraX ==> CameraAfter(x, [-6, 6]) == x
    ensures x < MinCameraX + 6 ==> CameraAfter(x, [-6, 6]) == MinCameraX + 6
  {
  }

  /** With both direction keys held just right of a section boundary, the
      left stride crosses it and the right stride crosses back, so the
      frame announces two sections, and does so again on every such frame. */
  lemma OpposingKeysAtBoundaryAnnounceTwice(x: int)
    ensures 0 <= x < 6 ==> EventsAfter(x, Center, [-6, 6]) == [AboutMe, Center]
    ensures 1200 <= x < 1206 ==> EventsAfter(x, Games, [-6, 6]) == [Center, Games]
  {
    TwoMoves(x, Center, -6, 6);
    TwoMoves(x, Games, -6, 6);
  }

  /** What one frame's strides do to a scene whose camera is at `x` with
      section `cur`: the left stride (if any), then the right stride (if
      any). The result is the final camera and the notifications fired. */
  function FrameOutcome(left: bool, right: bool, x: int, cur: Section): (int, seq<Section>) {
    var x1 := if left then Clamp(x - WalkSpeed) else x;
    var cur1 := if left then SectionOf(x1) else cur;
    var x2 := if right then Clamp(x1 + WalkSpeed) else x1;
    (x2, (if left then Emitted(cur, x1) else []) + (if right then Emitted(cur1, x2) else []))
  }

  /** The strides of one frame are exactly the replay of that frame's
      camera deltas. */
  lemma StridesReplay(keys: map<string, bool>, x: int, cur: Section)
    ensures CameraAfter(x, CameraDeltas(keys)) == FrameOutcome(LeftHeld(keys), RightHeld(keys), x, cur).0
    ensures EventsAfter(x, cur, CameraDeltas(keys)) == FrameOutcome(LeftHeld(keys), RightHeld(keys), x, cur).1
  {
    if LeftHeld(keys) && RightHeld(keys) {
      TwoMoves(x, cur, -WalkSpeed, WalkSpeed);
    } else if LeftHeld(keys) {
      OneMove(x, cur, -WalkSpeed);
    } else if RightHeld(keys) {
      OneMove(x, cur, WalkSpeed);
    }
  }

  // Vertical motion.

  /** The velocity after the jump check: the jump impulse only when an
      ascend key is held and the velocity is exactly zero. */
  function Launch(velocity: real, ascend: bool): (v: real)
    ensures v == velocity || v == JumpVelocity
    ensures v != velocity <==> ascend && velocity == 0.0
  {
    if ascend && velocity == 0.0 then JumpVelocity else velocity
  }

  /** One frame of vertical motion: jump check, gravity, integration, and
      the snap to the ground line. Returns the new (y, velocity). */
  function VerticalStep(y: real, velocity: real, ascend: bool, groundY: real): (r: (real, real))
    ensures r.0 <= groundY
    ensures r.0 == groundY ==> r.1 == 0.0
    ensures y + Launch(velocity, ascend) + Gravity >= groundY ==> r == (groundY, 0.0)
    ensures y + Launch(velocity, ascend) + Gravity < groundY ==>
      r.1 == Launch(velocity, ascend) + Gravity && r.0 == y + r.1
  {
    var v := Launch(velocity, ascend) + Gravity;
    var y' := y + v;
    if y' >= groundY then (groundY, 0.0) else (y', v)
  }

  /** Holding an ascend key in mid-air does nothing. */
  lemma MidAirAscendIgnored(y: real, velocity: real, groundY: real)
    requires velocity != 0.0
    ensures VerticalStep(y, velocity, true, groundY) == VerticalStep(y, velocity, false, groundY)
  {
  }

  /** A character standing on the ground with no key held stays there. */
  lemma RestingIsStable(groundY: real)
    ensures VerticalStep(groundY, 0.0, false, groundY) == (groundY, 0.0)
  {
  }

  /** `n` frames of vertical motion with no ascend key held. */
  function FallFrames(y: real, velocity: real, groundY: real, n: nat): (real, real)
  {
    if n == 0 then (y, velocity)
    else
      var r := FallFrames(y, velocity, groundY, n - 1);
      VerticalStep(r.0, r.1, false, groundY)
  }

  /** The arc of a jump from rest on the ground, with the ascend key released
      after the first frame: after frame k (1 <= k <= 48) the character is
      0.3 * k * (49 - k) above the ground, moving at -15 + 0.6 * k. */
  lemma {:induction false} JumpArc(groundY: real, k: nat)
    requires 1 <= k <= 48
    ensures var s := VerticalStep(groundY, 0.0, true, groundY);
      FallFrames(s.0, s.1, groundY, k - 1) == (groundY + 0.3 * (k * (k - 49)) as real, -15.0 + 0.6 * k as real)
    ensures var s := VerticalStep(groundY, 0.0, true, groundY);
      FallFrames(s.0, s.1, groundY, k - 1).0 < groundY
  {
    var s := VerticalStep(groundY, 0.0, true, groundY);
    ArcPolynomial(k);
    if k == 1 {
      assert s == (groundY - 14.4, -14.4);
    } else {
      var j := k - 1;
      JumpArc(groundY, j);
      var prev := FallFrames(s.0, s.1, groundY, j - 1);
      var v := -15.0 + 0.6 * k as real;
      assert prev.1 + Gravity == v;
      assert (k * (k - 49)) as real == (j * (j - 49)) as real + (2 * j - 48) as real;
      assert prev.0 + v == groundY + 0.3 * (k * (k - 49)) as real;
    }
  }

  /** The integer facts behind the jump arc's height 0.3 * k * (k - 49). */
  lemma ArcPolynomial(k: int)
    requires 1 <= k <= 48
    ensures k * (k - 49) == (k - 1) * (k - 1 - 49) + 2 * (k - 1) - 48
    ensures k * (k - 49) < 0
  {
    assert k * (k - 49) == k * k - 49 * k;
    assert (k - 1) * (k - 50) == k * k - 51 * k + 50;
  }

  /** A jump from rest lands back on the ground line, at rest, on its 49th
      frame, and its velocity is exactly zero at the top of the arc. */
  lemma JumpLands(groundY: real)
    ensures var s := VerticalStep(groundY, 0.0, true, groundY);
      FallFrames(s.0, s.1, groundY, 48) == (groundY, 0.0)
    ensures var s := VerticalStep(groundY, 0.0, true, groundY);
      FallFrames(s.0, s.1, groundY, 24).1 == 0.0
  {
    JumpArc(groundY, 48);
    JumpArc(groundY, 25);
  }

  // Walk animation.

  /** One frame of the walk counter and the two-frame walk cycle. Returns
      the new (frameCount, frame). */
  function WalkStep(walking: bool, frameCount: nat, frame: int): (r: (nat, int))
    ensures walking ==> r.0 == frameCount + 1 && (r.1 != frame <==> r.0 % WalkFramePeriod == 0)
    ensures !walking ==> r == (0, frame)
    ensures frame == 0 || frame == 1 ==> r.1 == 0 || r.1 == 1
  {
    if walking then
      var count := frameCount + 1;
      (count, if count % WalkFramePeriod == 0 then (frame + 1) % 2 else frame)
    else
      (0, frame)
  }

  /** `n` consecutive walking frames from a standstill with cycle frame `frame`. */
  function Walk(frame: int, n: nat): (nat, int)
  {
    if n == 0 then (0, frame)
    else
      var r := Walk(frame, n - 1);
      WalkStep(true, r.0, r.1)
  }

  /** The cycle frame after toggling it `times` times. */
  function Flip(frame: int, times: nat): int {
    if times == 0 then frame else 1 - Flip(frame, times - 1)
  }

  /** After n walking frames from a standstill the count is n and the cycle
      has toggled n / 8 times: at frames 8, 16, 24, ... and never in between. */
  lemma {:induction false} WalkToggles(frame: int, n: nat)
    requires frame == 0 || frame == 1
    ensures Walk(frame, n) == (n, Flip(frame, n / 8))
  {
    if n > 0 {
      var m := n - 1;
      WalkToggles(frame, m);
      var f := Flip(frame, m / 8);
      assert Walk(frame, n) == WalkStep(true, m, f);
      CounterStep(m);
      if n % 8 == 0 {
        assert n / 8 == m / 8 + 1;
        assert WalkStep(true, m, f) == (n, (f + 1) % 2);
        FlipRange(frame, m / 8);
      } else {
        assert WalkStep(true, m, f) == (n, f);
      }
    }
  }

  /** Toggling a frame of the two-frame cycle keeps it in the cycle, and
      `(f + 1) % 2` is such a toggle. */
  lemma {:induction false} FlipRange(frame: int, times: nat)
    ensures frame == 0 || frame == 1 ==>
      (Flip(frame, times) == 0 || Flip(frame, times) == 1) &&
      (Flip(frame, times) + 1) % 2 == Flip(frame, times + 1)
  {
    if times > 0 {
      FlipRange(frame, times - 1);
    }
  }

  /** How the walk counter's block number moves when it goes up by one: it
      advances exactly when the new count is a multiple of 8. */
  lemma CounterStep(m: nat)
    ensures (m + 1) % 8 == 0 ==> (m + 1) / 8 == m / 8 + 1
    ensures (m + 1) % 8 != 0 ==> (m + 1) / 8 == m / 8
  {
    var q, r := m / 8, m % 8;
    assert m == 8 * q + r && 0 <= r < 8;
    if r == 7 {
      assert m + 1 == 8 * (q + 1);
    } else {
      assert m + 1 == 8 * q + (r + 1);
    }
  }

  /** The walk cycle's frame after n walking frames from a standstill is
      the starting one after an even number of completed blocks of 8, and
      the other one after an odd number. */
  lemma {:induction false} WalkCycle(frame: int, n: nat)
    requires frame == 0 || frame == 1
    ensures Walk(frame, n) == (n, if (n / 8) % 2 == 0 then frame else 1 - frame)
  {
    WalkToggles(frame, n);
    FlipParity(frame, n / 8);
  }

  /** An even number of toggles leaves the frame, an odd number swaps it. */
  lemma {:induction false} FlipParity(frame: int, times: nat)
    ensures Flip(frame, times) == if times % 2 == 0 then frame else 1 - frame
  {
    if times > 0 {
      FlipParity(frame, times - 1);
    }
  }

  /** The character. `x` is fixed at the centre of the canvas; `y` is the
      position of the feet and grows downwards. */
  class Character {
    const canvasWidth: int
    const canvasHeight: int
    const x: real
    var y: real
    var frame: int
    var frameCount: nat
    var isWalking: bool
    var facingRight: bool
    var velocity: real
    var waveFrame: nat
    var isWaving: bool
    var keys: map<string, bool>

    /** The ground line the feet snap to. */
    function GroundY(): real {
      (canvasHeight - GroundOffset) as real
    }

    ghost predicate Valid()
      reads this
    {
      y <= GroundY() && (frame == 0 || frame == 1)
    }

    /** A character standing on the ground at the centre, facing right,
        waving, with no key held. */
    constructor (canvasWidth: int, canvasHeight: int)
      ensures Valid()
      ensures this.canvasWidth == canvasWidth && this.canvasHeight == canvasHeight
      ensures x == canvasWidth as real / 2.0 && y == GroundY()
      ensures frame == 0 && frameCount == 0 && !isWalking && facingRight
      ensures velocity == 0.0 && waveFrame == 0 && isWaving && keys == map[]
    {
      this.canvasWidth := canvasWidth;
      this.canvasHeight := canvasHeight;
      x := canvasWidth as real / 2.0;
      y := (canvasHeight - GroundOffset) as real;
      frame := 0;
      frameCount := 0;
      isWalking := false;
      facingRight := true;
      velocity := 0.0;
      waveFrame := 0;
      isWaving := true;
      keys := map[];
    }

    /** A key press: the key is held from now on, and waving stops. */
    method KeyDown(code: string)
      modifies this`keys, this`isWaving
      ensures keys == old(keys)[code := true]
      ensures !isWaving
    {
      keys := keys[code := true];
      isWaving := false;
    }

    /** A key release. */
    method KeyUp(code: string)
      modifies this`keys
      ensures keys == old(keys)[code := false]
    {
      keys := keys[code := false];
    }

    /** The clickable area: 50 wide, centred on `x`, 120 tall, standing on `y`. */
    function Bounds(): (b: Box)
      reads this
      ensures b.Contains(x, y) && b.Contains(x, y - CharacterHeight)
    {
      Box(x - CharacterWidth / 2.0, y - CharacterHeight, CharacterWidth, CharacterHeight)
    }

    /** The hit test: edges included. */
    function IsPointInCharacter(px: real, py: real): (hit: bool)
      reads this
      ensures hit <==> Bounds().Contains(px, py)
    {
      px >= x - CharacterWidth / 2.0 && px <= x + CharacterWidth / 2.0 &&
      py >= y - CharacterHeight && py <= y
    }

    /** The reaction to a click on the character: a jump if at rest, waving,
        and a phrase chosen by `rand`, the value `Math.random()` supplied. */
    method OnCharacterClick(rand: real) returns (phrase: string)
      requires 0.0 <= rand < 1.0
      modifies this`velocity, this`isWaving
      ensures velocity == Launch(old(velocity), true)
      ensures isWaving
      ensures phrase == Phrases[PhraseIndex(rand)]
    {
      phrase := Phrases[PhraseIndex(rand)];
      if velocity == 0.0 {
        velocity := JumpVelocity;
      }
      isWaving := true;
    }

    /** A click at canvas coordinates (px, py): reacts only on a hit, and
        then returns the phrase to show. */
    method Click(px: real, py: real, rand: real) returns (spoken: Option<string>)
      requires 0.0 <= rand < 1.0
      modifies this`velocity, this`isWaving
      ensures spoken.Some? <==> old(IsPointInCharacter(px, py))
      ensures spoken.Some? ==> velocity == Launch(old(velocity), true) && isWaving
      ensures spoken.Some? ==> spoken.value in Phrases
      ensures spoken.None? ==> velocity == old(velocity) && isWaving == old(isWaving)
    {
      if IsPointInCharacter(px, py) {
        var phrase := OnCharacterClick(rand);
        spoken := Some(phrase);
      } else {
        spoken := None;
      }
    }

    /** The expiry of a wave (3 s after start-up, 2 s after a click), as
        one explicit firing of its timer. */
    method ExpireWave()
      modifies this`isWaving
      ensures !isWaving
    {
      isWaving := false;
    }

    /** One of the two horizontal branches of a frame: when its keys are
        `held`, the character turns (`toRight` or left), walks, and moves
        the camera of `scene`, when one is present, by one stride. */
    method Stride(scene: SceneManager?, held: bool, toRight: bool)
      requires scene != null ==> scene.Valid()
      modifies this`isWalking, this`facingRight, scene
      ensures held ==> facingRight == toRight && isWalking
      ensures !held ==> facingRight == old(facingRight) && isWalking == old(isWalking)
      ensures scene != null && !held ==> unchanged(scene)
      ensures scene != null && held ==>
        && scene.Valid()
        && scene.cameraX == Clamp(old(scene.cameraX) + (if toRight then WalkSpeed else -WalkSpeed))
        && scene.currentSection == SectionOf(scene.cameraX)
        && scene.cameraCalls == old(scene.cameraCalls) + [if toRight then WalkSpeed else -WalkSpeed]
        && scene.sectionEvents == old(scene.sectionEvents) + Emitted(old(scene.currentSection), scene.cameraX)
        && scene.isNightTime == old(scene.isNightTime)
    {
      if held {
        facingRight := toRight;
        isWalking := true;
        if scene != null {
          scene.MoveCamera(if toRight then WalkSpeed else -WalkSpeed);
        }
      }
    }

    /** The horizontal part of a frame: the left branch, then the right
        branch. */
    method Steer(scene: SceneManager?)
      requires scene != null ==> scene.Valid()
      modifies this`isWalking, this`facingRight, scene
      ensures isWalking == (LeftHeld(keys) || RightHeld(keys))
      ensures facingRight == (if RightHeld(keys) then true
                              else if LeftHeld(keys) then false
                              else old(facingRight))
      ensures scene != null ==> && scene.Valid()
                                && scene.cameraCalls == old(scene.cameraCalls) + CameraDeltas(keys)
                                && scene.cameraX == FrameOutcome(LeftHeld(keys), RightHeld(keys), old(scene.cameraX), old(scene.currentSection)).0
                                && scene.sectionEvents == old(scene.sectionEvents) +
                                   FrameOutcome(LeftHeld(keys), RightHeld(keys), old(scene.cameraX), old(scene.currentSection)).1
                                && scene.isNightTime == old(scene.isNightTime)
    {
      var left, right := LeftHeld(keys), RightHeld(keys);
      ghost var x0 := if scene != null then scene.cameraX else 0;
      ghost var section0 := if scene != null then scene.currentSection else Center;
      ghost var calls0 := if scene != null then scene.cameraCalls else [];
      ghost var events0 := if scene != null then scene.sectionEvents else [];

      isWalking := false;
      Stride(scene, left, false);
      ghost var x1 := if scene != null then scene.cameraX else 0;
      ghost var section1 := if scene != null then scene.currentSection else Center;
      ghost var calls1 := if scene != null then scene.cameraCalls else [];
      ghost var events1 := if scene != null then scene.sectionEvents else [];
      Stride(scene, right, true);

      if scene != null {
        var leftCalls := if left then [-WalkSpeed] else [];
        var rightCalls := if right then [WalkSpeed] else [];
        assert calls1 == calls0 + leftCalls;
        assert scene.cameraCalls == calls1 + rightCalls;
        assert calls0 + leftCalls + rightCalls == calls0 + CameraDeltas(keys);
        var leftEvents := if left then Emitted(section0, x1) else [];
        var rightEvents := if right then Emitted(section1, scene.cameraX) else [];
        assert events1 == events0 + leftEvents;
        assert scene.sectionEvents == events1 + rightEvents;
        assert events0 + leftEvents + rightEvents == events0 + (leftEvents + rightEvents);
      }
    }

    /** The vertical part of a frame: the jump check, gravity, integration,
        and the snap to the ground line. */
    method Fall()
      modifies this`y, this`velocity
      ensures (y, velocity) == VerticalStep(old(y), old(velocity), AscendHeld(keys), GroundY())
    {
      if AscendHeld(keys) && velocity == 0.0 {
        velocity := JumpVelocity;
      }

      velocity := velocity + Gravity;
      y := y + velocity;

      var groundY := GroundY();
      if y >= groundY {
        y := groundY;
        velocity := 0.0;
      }
    }

    /** The walk-cycle part of a frame: count walking frames and toggle
        the cycle frame every eighth one; reset the count on a stop. */
    method Animate()
      modifies this`frameCount, this`frame
      ensures (frameCount, frame) == WalkStep(isWalking, old(frameCount), old(frame))
    {
      if isWalking {
        frameCount := frameCount + 1;
        if frameCount % WalkFramePeriod == 0 {
          frame := (frame + 1) % 2;
        }
      } else {
        frameCount := 0;
      }
    }

    /** One animation frame. `scene` is the scene manager when one is
        present; its camera receives the frame's horizontal moves. */
    method Update(scene: SceneManager?)
      requires Valid()
      requires scene != null ==> scene.Valid()
      modifies this, scene
      ensures Valid()
      ensures keys == old(keys) && isWaving == old(isWaving)
      ensures isWalking == (LeftHeld(keys) || RightHeld(keys))
      ensures facingRight == (if RightHeld(keys) then true
                              else if LeftHeld(keys) then false
                              else old(facingRight))
      ensures (y, velocity) == VerticalStep(old(y), old(velocity), AscendHeld(keys), GroundY())
      ensures (frameCount, frame) == WalkStep(isWalking, old(frameCount), old(frame))
      ensures waveFrame == old(waveFrame) + (if isWaving then 1 else 0)
      ensures scene != null ==> && scene.Valid()
                                && scene.cameraCalls == old(scene.cameraCalls) + CameraDeltas(keys)
                                && scene.cameraX == CameraAfter(old(scene.cameraX), CameraDeltas(keys))
                                && scene.sectionEvents == old(scene.sectionEvents) +
                                   EventsAfter(old(scene.cameraX), old(scene.currentSection), CameraDeltas(keys))
                                && scene.isNightTime == old(scene.isNightTime)
    {
      ghost var x0 := if scene != null then scene.cameraX else 0;
      ghost var section0 := if scene != null then scene.currentSection else Center;
      StridesReplay(keys, x0, section0);
      Steer(scene);

      Fall();

      Animate();

      if isWaving {
        waveFrame := waveFrame + 1;
      }
    }
  }

  /** The phrase `Math.floor(Math.random() * phrases.length)` selects. */
  function PhraseIndex(rand: real): (i: nat)
    requires 0.0 <= rand < 1.0
    ensures i < |Phrases|
    ensures i as real <= rand * |Phrases| as real < i as real + 1.0
  {
    (rand * |Phrases| as real).Floor
  }

  /** Every phrase can be chosen. */
  lemma EveryPhraseReachable(i: nat)
    requires i < |Phrases|
    ensures PhraseIndex(i as real / 6.0) == i
  {
  }

  /** Checks of the hit test: the centre of the box hits, all four of its
      corners hit, and a point one unit past any edge misses. */
  lemma HitTestEdges(c: Character)
    ensures c.IsPointInCharacter(c.x, c.y - 60.0)
    ensures c.IsPointInCharacter(c.x - 25.0, c.y - 120.0) && c.IsPointInCharacter(c.x + 25.0, c.y)
    ensures c.IsPointInCharacter(c.x + 25.0, c.y - 120.0) && c.IsPointInCharacter(c.x - 25.0, c.y)
    ensures !c.IsPointInCharacter(c.x - 26.0, c.y - 60.0) && !c.IsPointInCharacter(c.x + 26.0, c.y - 60.0)
    ensures !c.IsPointInCharacter(c.x, c.y - 121.0) && !c.IsPointInCharacter(c.x, c.y + 1.0)
  {
  }
}
