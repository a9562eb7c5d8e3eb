/** The scene: a horizontally scrolling world split into three sections,
    a clamped camera that selects the active section, and the grid of
    game cards drawn in the games section. */
module Scene {
  import opened Geometry

  datatype Section = Center | AboutMe | Games

  const MinCameraX: int := -1200
  const MaxCameraX: int := 1800

  /** World offset of a section in the static sections table. */
  function Offset(s: Section): int {
    match s
    case Center => 0
    case AboutMe => -1200
    case Games => 1200
  }

  /** Width of a section in the static sections table. */
  function Width(s: Section): int {
    match s
    case Center => 1200
    case AboutMe => 1200
    case Games => 1800
  }

  /** The name the section indicator shows on entering a section. */
  function DisplayName(s: Section): string {
    match s
    case Center => "Home"
    case AboutMe => "About Me"
    case Games => "Games"
  }

  /** World position `x` lies in the half-open span the table gives `s`. */
  predicate InSection(x: int, s: Section) {
    Offset(s) <= x < Offset(s) + Width(s)
  }

  /** `Math.max(-1200, Math.min(1800, v))`: the nearest camera position in range. */
  function Clamp(v: int): (r: int)
    ensures MinCameraX <= r <= MaxCameraX
    ensures MinCameraX <= v <= MaxCameraX ==> r == v
    ensures v < MinCameraX ==> r == MinCameraX
    ensures v > MaxCameraX ==> r == MaxCameraX
  {
    var upper := if v < MaxCameraX then v else MaxCameraX;
    if MinCameraX < upper then upper else MinCameraX
  }

  /** The section `moveCamera` classifies a camera position into. */
  function SectionOf(x: int): Section {
    if x < 0 then AboutMe
    else if x < 1200 then Center
    else Games
  }

  /** The classification agrees with the sections table: a camera position
      in range lies in the span of a section exactly when it is classified
      into that section (the spans cover the range and do not overlap). */
  lemma SectionOfMatchesTable(x: int, s: Section)
    requires MinCameraX <= x <= MaxCameraX
    ensures InSection(x, s) <==> SectionOf(x) == s
  {
  }

  /** The notifications one `moveCamera` call fires when the camera ends
      at `x` and the recorded section was `prev`. */
  function Emitted(prev: Section, x: int): (ev: seq<Section>)
    ensures |ev| <= 1
    ensures ev == [] <==> SectionOf(x) == prev
    ensures ev != [] ==> ev[0] != prev && ev[0] == SectionOf(x)
  {
    if SectionOf(x) != prev then [SectionOf(x)] else []
  }

  /** Camera position after the `moveCamera` calls `deltas`, from `x`. */
  function CameraAfter(x: int, deltas: seq<int>): int
    decreases |deltas|
  {
    if deltas == [] then x else CameraAfter(Clamp(x + deltas[0]), deltas[1..])
  }

  /** Recorded section after the calls `deltas`, from camera `x` and section `cur`. */
  function SectionAfter(x: int, cur: Section, deltas: seq<int>): Section {
    if deltas == [] then cur else SectionOf(CameraAfter(x, deltas))
  }

  /** All section-enter notifications fired by the calls `deltas`, in order. */
  function EventsAfter(x: int, cur: Section, deltas: seq<int>): seq<Section>
    decreases |deltas|
  {
    if deltas == [] then []
    else
      var x' := Clamp(x + deltas[0]);
      Emitted(cur, x') + EventsAfter(x', SectionOf(x'), deltas[1..])
  }

  /** Any non-empty run of calls leaves the camera in range. */
  lemma {:induction false} CameraAfterInRange(x: int, deltas: seq<int>)
    requires deltas != [] || MinCameraX <= x <= MaxCameraX
    ensures MinCameraX <= CameraAfter(x, deltas) <= MaxCameraX
    decreases |deltas|
  {
    if deltas != [] {
      CameraAfterInRange(Clamp(x + deltas[0]), deltas[1..]);
    }
  }

  /** Replaying a single call is that call. */
  lemma OneMove(x: int, cur: Section, d: int)
    ensures CameraAfter(x, [d]) == Clamp(x + d)
    ensures SectionAfter(x, cur, [d]) == SectionOf(Clamp(x + d))
    ensures EventsAfter(x, cur, [d]) == Emitted(cur, Clamp(x + d))
  {
    assert [d][1..] == [];
  }

  /** Replaying two calls is the first call followed by the second. */
  lemma TwoMoves(x: int, cur: Section, d1: int, d2: int)
    ensures CameraAfter(x, [d1, d2]) == Clamp(Clamp(x + d1) + d2)
    ensures EventsAfter(x, cur, [d1, d2]) ==
            Emitted(cur, Clamp(x + d1)) + Emitted(SectionOf(Clamp(x + d1)), Clamp(Clamp(x + d1) + d2))
  {
    assert [d1, d2][1..] == [d2];
    OneMove(Clamp(x + d1), SectionOf(Clamp(x + d1)), d2);
  }

  /** Notifications never repeat a section: at most one per call, the first
      differs from the section held before, each differs from the one
      before it, and the recorded section is the last one announced (or the
      starting one when nothing was announced). */
  lemma {:induction false} EventsAreTransitions(x: int, cur: Section, deltas: seq<int>)
    ensures var ev := EventsAfter(x, cur, deltas);
      && |ev| <= |deltas|
      && (ev != [] ==> ev[0] != cur)
      && SectionAfter(x, cur, deltas) == (if ev == [] then cur else ev[|ev| - 1])
      && (forall i :: 0 < i < |ev| ==> ev[i] != ev[i - 1])
    decreases |deltas|
  {
    if deltas != [] {
      var x' := Clamp(x + deltas[0]);
      var tail := deltas[1..];
      var rest := EventsAfter(x', SectionOf(x'), tail);
      EventsAreTransitions(x', SectionOf(x'), tail);
      var ev := Emitted(cur, x') + rest;
      assert EventsAfter(x, cur, deltas) == ev;
      assert CameraAfter(x, deltas) == CameraAfter(x', tail);
      assert SectionAfter(x', SectionOf(x'), tail) == SectionAfter(x, cur, deltas);
      forall i | 0 < i < |ev|
        ensures ev[i] != ev[i - 1]
      {
        if |Emitted(cur, x')| == 1 && i == 1 {
          assert ev[i] == rest[0] && ev[i - 1] == SectionOf(x');
        }
      }
    }
  }

  /** `moveCamera(0)`, any number of times, from a consistent state fires
      nothing and leaves the camera where it is. */
  lemma {:induction false} StandingStillIsSilent(x: int, deltas: seq<int>)
    requires MinCameraX <= x <= MaxCameraX
    requires forall i :: 0 <= i < |deltas| ==> deltas[i] == 0
    ensures CameraAfter(x, deltas) == x
    ensures EventsAfter(x, SectionOf(x), deltas) == []
    decreases |deltas|
  {
    if deltas != [] {
      StandingStillIsSilent(x, deltas[1..]);
    }
  }

  /** Walking left inside the about-me section fires nothing more. */
  lemma {:induction false} StayingLeftIsSilent(x: int, deltas: seq<int>)
    requires x < 0
    requires forall i :: 0 <= i < |deltas| ==> deltas[i] <= 0
    ensures EventsAfter(x, AboutMe, deltas) == []
    decreases |deltas|
  {
    if deltas != [] {
      StayingLeftIsSilent(Clamp(x + deltas[0]), deltas[1..]);
    }
  }

  /** From the initial camera (0, home), any run of leftward moves announces
      the about-me section exactly once. */
  lemma LeavingHomeLeftwardAnnouncesOnce(deltas: seq<int>)
    requires deltas != [] && deltas[0] < 0
    requires forall i :: 0 <= i < |deltas| ==> deltas[i] <= 0
    ensures EventsAfter(0, Center, deltas) == [AboutMe]
  {
    StayingLeftIsSilent(Clamp(deltas[0]), deltas[1..]);
  }

  /** The scene's camera and section bookkeeping. `cameraCalls` and
      `sectionEvents` record every `moveCamera` delta and every
      section-enter notification, in order. */
  class SceneManager {
    var cameraX: int
    var currentSection: Section
    var isNightTime: bool
    ghost var cameraCalls: seq<int>
    ghost var sectionEvents: seq<Section>

    /** The camera is in range and the recorded section matches it. */
    ghost predicate Valid()
      reads this
    {
      MinCameraX <= cameraX <= MaxCameraX && currentSection == SectionOf(cameraX)
    }

    constructor ()
      ensures Valid()
      ensures cameraX == 0 && currentSection == Center && !isNightTime
      ensures cameraCalls == [] && sectionEvents == []
    {
      cameraX := 0;
      currentSection := Center;
      isNightTime := false;
      cameraCalls := [];
      sectionEvents := [];
    }

    /** Shifts the camera by `dx`, clamps it, and announces the section it
        lands in when that differs from the recorded one. */
    method MoveCamera(dx: int)
      requires Valid()
      modifies this
      ensures Valid()
      ensures cameraX == Clamp(old(cameraX) + dx)
      ensures currentSection == SectionOf(cameraX)
      ensures sectionEvents == old(sectionEvents) + Emitted(old(currentSection), cameraX)
      ensures cameraCalls == old(cameraCalls) + [dx]
      ensures isNightTime == old(isNightTime)
    {
      cameraX := cameraX + dx;
      cameraX := Clamp(cameraX);
      var characterWorldX := cameraX;
      if characterWorldX < 0 {
        if currentSection != AboutMe {
          currentSection := AboutMe;
          OnSectionEnter(AboutMe);
        }
      } else if characterWorldX < 1200 {
        if currentSection != Center {
          currentSection := Center;
          OnSectionEnter(Center);
        }
      } else {
        if currentSection != Games {
          currentSection := Games;
          OnSectionEnter(Games);
        }
      }
      cameraCalls := cameraCalls + [dx];
    }

    /** The notification sink: records the section entered. */
    method OnSectionEnter(s: Section)
      modifies this`sectionEvents
      ensures sectionEvents == old(sectionEvents) + [s]
    {
      sectionEvents := sectionEvents + [s];
    }

    /** The periodic day/night flip, as one explicit tick of its timer. */
    method ToggleNight()
      modifies this`isNightTime
      ensures isNightTime == !old(isNightTime)
    {
      isNightTime := !isNightTime;
    }
  }

  // The games section's card grid.

  const CardWidth: int := 240
  const CardHeight: int := 180
  const CardGap: int := 30
  const CardColumns: int := 3

  const GameNames: seq<string> := ["Flappy Bird", "Panda", "Pong", "Pong 2P", "Snake Race"]

  /** A clickable region the games section publishes for one game. */
  datatype GameCard = GameCard(box: Box, game: string)

  /** Top-left corner of the first card for a canvas of the given width:
      the games panel is centred, at most 900 wide and 100 narrower than
      the canvas, starts at y = 110, and the cards start 50 in and 90 down. */
  function CardOrigin(canvasWidth: int): (origin: (real, real))
    ensures canvasWidth >= 1000 ==> origin.0 == canvasWidth as real / 2.0 - 400.0
    ensures canvasWidth < 1000 ==> origin.0 == 100.0
    ensures origin.1 == 200.0
  {
    var panelWidth := if 900 < canvasWidth - 100 then 900 else canvasWidth - 100;
    var panelX := canvasWidth as real / 2.0 - panelWidth as real / 2.0;
    var panelY := 110.0;
    (panelX + 50.0, panelY + 90.0)
  }

  /** The box of card `index`: column `index % 3`, row `index / 3`, cards
      240 by 180 with a gap of 30 between neighbours. */
  function CardBox(index: nat, startX: real, startY: real): (b: Box)
    ensures b.width == 240.0 && b.height == 180.0
    ensures b.left == startX || b.left == startX + 270.0 || b.left == startX + 540.0
    ensures index < 3 ==> b.top == startY
    ensures index % 3 == 0 ==> b.left == startX
    ensures startY <= b.top
  {
    var col := index % CardColumns;
    var row := index / CardColumns;
    Box(startX + (col * (CardWidth + CardGap)) as real,
        startY + (row * (CardHeight + CardGap)) as real,
        CardWidth as real, CardHeight as real)
  }

  /** The grid has three columns: the card three places on sits in the
      same column, one row (180 plus the gap of 30) further down. */
  lemma CardRowDown(index: nat, startX: real, startY: real)
    ensures CardBox(index + 3, startX, startY) == CardBox(index, startX, startY + 210.0)
  {
    assert (index + 3) % 3 == index % 3;
    assert (index + 3) / 3 == index / 3 + 1;
  }

  /** Within a row the cards run left to right: the next card, unless this
      one ends its row, sits one column (240 plus the gap of 30) to the
      right, at the same height. */
  lemma CardRightNeighbour(index: nat, startX: real, startY: real)
    requires index % 3 != 2
    ensures CardBox(index + 1, startX, startY) == CardBox(index, startX + 270.0, startY)
  {
    assert (index + 1) % 3 == index % 3 + 1;
    assert (index + 1) / 3 == index / 3;
  }

  /** Two different cards are separated by a gap, so no click point lies
      on two cards. */
  lemma CardsApart(i: nat, j: nat, startX: real, startY: real)
    requires i != j
    ensures Apart(CardBox(i, startX, startY), CardBox(j, startX, startY))
  {
  }

  /** The card regions the games section publishes, one per game, in order. */
  method LayoutGameCards(games: seq<string>, startX: real, startY: real) returns (cards: seq<GameCard>)
    ensures |cards| == |games|
    ensures forall i :: 0 <= i < |cards| ==>
      cards[i].game == games[i] && cards[i].box == CardBox(i, startX, startY)
    ensures forall i, j :: 0 <= i < |cards| && 0 <= j < |cards| && i != j ==>
      Apart(cards[i].box, cards[j].box)
  {
    cards := [];
    var index := 0;
    while index < |games|
      invariant 0 <= index <= |games|
      invariant |cards| == index
      invariant forall i :: 0 <= i < index ==>
        cards[i].game == games[i] && cards[i].box == CardBox(i, startX, startY)
    {
      cards := cards + [GameCard(CardBox(index, startX, startY), games[index])];
      index := index + 1;
    }
    forall i, j | 0 <= i < |cards| && 0 <= j < |cards| && i != j
      ensures Apart(cards[i].box, cards[j].box)
    {
      CardsApart(i, j, startX, startY);
    }
  }

  /** The regions the games section publishes on a canvas of the given
      width: its own five games, laid out from the panel's card origin. */
  method GameCards(canvasWidth: int) returns (cards: seq<GameCard>)
    ensures |cards| == 5
    ensures forall i :: 0 <= i < 5 ==>
      cards[i].game == GameNames[i] &&
      cards[i].box == CardBox(i, CardOrigin(canvasWidth).0, CardOrigin(canvasWidth).1)
    ensures forall i, j :: 0 <= i < 5 && 0 <= j < 5 && i != j ==>
      Apart(cards[i].box, cards[j].box)
  {
    var origin := CardOrigin(canvasWidth);
    cards := LayoutGameCards(GameNames, origin.0, origin.1);
  }
}
