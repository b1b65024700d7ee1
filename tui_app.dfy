/**
 * The TUI application's state machine: key events toggle flags, step the
 * "confusion" level, or (in explore mode) move the camera and nudge the
 * six 4D rotation rates; each update applies a pending reset, advances the
 * clock unless paused, grows the header one letter at a time, and sets the
 * rotation rates from the confusion level.
 */
module TuiApp {
  import opened Wrappers
  import opened Geometry
  import opened ColorUtils
  import CoreDisplay

  /** The keys the application distinguishes. */
  datatype KeyCode = Char(c: char) | Up | Down | Left | Right | OtherKey

  /** A terminal event: a key, or anything else (resize, mouse, focus, paste). */
  datatype Event = Key(code: KeyCode) | OtherEvent

  /** The six 4D rotation rates, `rotations4d.0` to `rotations4d.5`. */
  datatype Rates = Rates(r0: real, r1: real, r2: real, r3: real, r4: real, r5: real)

  function At(r: Rates, k: nat): real
    requires k < 6
  {
    if k == 0 then r.r0 else if k == 1 then r.r1 else if k == 2 then r.r2
    else if k == 3 then r.r3 else if k == 4 then r.r4 else r.r5
  }

  /** Rate `k` moved by `delta`. */
  function Nudge(r: Rates, k: nat, delta: real): (n: Rates)
    requires k < 6
    ensures At(n, k) == At(r, k) + delta
    ensures forall j :: 0 <= j < 6 && j != k ==> At(n, j) == At(r, j)
  {
    if k == 0 then r.(r0 := r.r0 + delta) else if k == 1 then r.(r1 := r.r1 + delta)
    else if k == 2 then r.(r2 := r.r2 + delta) else if k == 3 then r.(r3 := r.r3 + delta)
    else if k == 4 then r.(r4 := r.r4 + delta) else r.(r5 := r.r5 + delta)
  }

  /** Moving a rate by `delta` and then by `-delta` restores every rate. */
  lemma NudgeInverse(r: Rates, k: nat, delta: real)
    requires k < 6
    ensures Nudge(Nudge(r, k, delta), k, -delta) == r
  {
  }

  const ROTATION_AMOUNT: real := 0.01
  const CAM_ROTATION: real := 0.04
  const CAM_SPEED: real := 0.5
  const HEADER: string := "TeSSHeract"

  const ZERO_RATES: Rates := Rates(0.0, 0.0, 0.0, 0.0, 0.0, 0.0)
  const DEFAULT_CAM_POS: Point := Point(0.0, -80.0, 0.0)
  const DEFAULT_CAM_DIRECTION: Point := Point(0.0, 1.0, 0.0)

  /**
   * The rate a lower-case explore key raises and its upper-case partner
   * lowers: `h`, `j`, `k`, `l`, `n`, `m` for rates 0 to 5.
   */
  function RateKey(c: char): (r: Option<(nat, real)>)
    ensures r.Some? ==> r.value.0 < 6
  {
    match c
    case 'h' => Some((0, ROTATION_AMOUNT)) case 'H' => Some((0, -ROTATION_AMOUNT))
    case 'j' => Some((1, ROTATION_AMOUNT)) case 'J' => Some((1, -ROTATION_AMOUNT))
    case 'k' => Some((2, ROTATION_AMOUNT)) case 'K' => Some((2, -ROTATION_AMOUNT))
    case 'l' => Some((3, ROTATION_AMOUNT)) case 'L' => Some((3, -ROTATION_AMOUNT))
    case 'n' => Some((4, ROTATION_AMOUNT)) case 'N' => Some((4, -ROTATION_AMOUNT))
    case 'm' => Some((5, ROTATION_AMOUNT)) case 'M' => Some((5, -ROTATION_AMOUNT))
    case _ => None
  }

  /**
   * Everything of `App` that `handle_event` and `update` read or write.
   * Times are in nanoseconds: `lastTime` is an instant of a monotonic clock,
   * `dt` and `elapsed` are durations.
   */
  datatype State = State(
    camPos: Point, camDirection: Point, rotations4d: Rates, headerText: string,
    lastTime: nat, dt: nat, elapsed: nat, confusion: nat,
    reset: bool, paused: bool, exit: bool, help: bool, explore: bool)

  /** `App::default`, started at instant `now`. */
  function Initial(now: nat): State {
    State(DEFAULT_CAM_POS, DEFAULT_CAM_DIRECTION, Rates(0.0, 0.0, 0.0, 0.01, 0.0, 0.01), "H",
          now, 0, 0, 0, false, false, false, false, false)
  }

  /**
   * `handle_event`. `turn(direction, theta, phi)` stands for the camera
   * direction's `Point::rotate`, which is not part of this model.
   */
  function OnEvent(s: State, e: Event, turn: (Point, real, real) -> Point): State {
    match e
    case OtherEvent => s
    case Key(code) =>
      if code == Char('q') then s.(exit := true)
      else if code == Char('r') then s.(reset := true)
      else if code == Char(' ') then s.(paused := !s.paused)
      else if code == Char('?') then s.(help := !s.help)
      else if code == Char('Q') then s.(explore := !s.explore)
      else if !s.explore then NormalKey(s, code)
      else ExploreKey(s, code, turn)
  }

  /** The keys outside explore mode: `w` and `s` step confusion by 20 within `[0, 100]`. */
  function NormalKey(s: State, code: KeyCode): State {
    if code == Char('w') then (if s.confusion <= 80 then s.(confusion := s.confusion + 20) else s)
    else if code == Char('s') then (if s.confusion >= 20 then s.(confusion := s.confusion - 20) else s)
    else s
  }

  /** The keys of explore mode: camera moves and turns, and rate nudges. */
  function ExploreKey(s: State, code: KeyCode, turn: (Point, real, real) -> Point): State {
    var forward := Scale(s.camDirection, CAM_SPEED);
    var side := Scale(CoreDisplay.Side(s.camDirection), CAM_SPEED);
    match code
    case Char('w') => s.(camPos := Add(s.camPos, forward))
    case Char('s') => s.(camPos := Sub(s.camPos, forward))
    case Char('a') => s.(camPos := Sub(s.camPos, side))
    case Char('d') => s.(camPos := Add(s.camPos, side))
    case Up => s.(camDirection := turn(s.camDirection, 0.0, CAM_ROTATION))
    case Down => s.(camDirection := turn(s.camDirection, 0.0, -CAM_ROTATION))
    case Left => s.(camDirection := turn(s.camDirection, CAM_ROTATION, 0.0))
    case Right => s.(camDirection := turn(s.camDirection, -CAM_ROTATION, 0.0))
    case Char(c) =>
      (match RateKey(c)
       case Some((k, delta)) => s.(rotations4d := Nudge(s.rotations4d, k, delta))
       case None => s)
    case OtherKey => s
  }

  /** The header after one growth step: the first `min(len + 1, 10)` letters of `HEADER`. */
  function Grow(header: string): (g: string)
    ensures |header| < |HEADER| ==> |g| == |header| + 1
    ensures |header| >= |HEADER| ==> g == HEADER
    ensures g == HEADER[..|g|]
  {
    HEADER[..if |header| + 1 <= |HEADER| then |header| + 1 else |HEADER|]
  }

  /** The growth condition: more than 0.4 s elapsed, and the milliseconds modulo 100 at most 25. */
  predicate GrowthDue(elapsed: nat) {
    elapsed > 400_000_000 && (elapsed / 1_000_000) % 100 <= 25
  }

  /** The fixed table from confusion level to 4D rotation rates; above 100 the rates are kept. */
  function RotationTable(confusion: nat, current: Rates): Rates {
    if confusion == 0 then ZERO_RATES
    else if confusion <= 20 then Rates(0.0, 0.0, 0.0, 0.01, 0.0, 0.0)
    else if confusion <= 40 then Rates(0.0, 0.0, 0.0, 0.0, 0.01, 0.0)
    else if confusion <= 60 then Rates(0.0, 0.0, 0.0, 0.0, 0.0, 0.01)
    else if confusion <= 80 then Rates(0.0, 0.0, 0.0, 0.01, 0.01, 0.0)
    else if confusion <= 100 then Rates(0.01, 0.0, 0.0, 0.01, 0.01, 0.01)
    else current
  }

  /** The part of `update` that runs whether or not the application is paused. */
  function ApplyReset(s: State): State {
    if s.reset then
      s.(reset := false, confusion := 0, headerText := "H",
         camDirection := DEFAULT_CAM_DIRECTION, camPos := DEFAULT_CAM_POS)
    else s
  }

  /** The clock step of `update`: a reading earlier than the last one gives a zero step. */
  function Advance(s: State, now: nat): State {
    var dt := if now >= s.lastTime then now - s.lastTime else 0;
    s.(dt := dt, elapsed := s.elapsed + dt, lastTime := now)
  }

  /** The header and rate steps of `update`, after the clock has advanced. */
  function Animate(s: State): State {
    var s1 := if GrowthDue(s.elapsed) then s.(headerText := Grow(s.headerText)) else s;
    if !s1.explore then s1.(rotations4d := RotationTable(s1.confusion, s1.rotations4d)) else s1
  }

  /**
   * `update` at instant `now`: apply a pending reset; stop if paused;
   * otherwise advance the clock, maybe grow the header, and outside explore
   * mode set the rates from the table.
   */
  function OnUpdate(s: State, now: nat): State {
    var s1 := ApplyReset(s);
    if s1.paused then s1 else Animate(Advance(s1, now))
  }

  // ------------------------------------------------------------ properties

  /** Confusion is a multiple of 20 between 0 and 100. */
  predicate ConfusionOk(c: nat) {
    c <= 100 && c % 20 == 0
  }

  /** The header is the initial `H` or a prefix of `HEADER` of at least two letters. */
  predicate HeaderOk(h: string) {
    h == "H" || (2 <= |h| <= |HEADER| && h == HEADER[..|h|])
  }

  predicate Invariant(s: State) {
    ConfusionOk(s.confusion) && HeaderOk(s.headerText)
  }

  lemma InitialInvariant(now: nat)
    ensures Invariant(Initial(now))
  {
  }

  /** The default camera, in which the app starts and to which a reset returns, can build a display. */
  lemma DefaultCameraUsable(now: nat)
    ensures CoreDisplay.RootsFor(Initial(now).camDirection, CoreDisplay.Roots(1.0, 1.0, 1.0))
  {
    CoreDisplay.DefaultDirectionRoots(DEFAULT_CAM_DIRECTION);
  }

  /** No event breaks the invariant. */
  lemma EventKeepsInvariant(s: State, e: Event, turn: (Point, real, real) -> Point)
    requires Invariant(s)
    ensures Invariant(OnEvent(s, e, turn))
  {
    if e.Key? && s.explore {
      ExploreKeyFrame(s, e.code, turn);
    }
  }

  /** The explore-mode keys touch neither confusion nor the header. */
  lemma ExploreKeyFrame(s: State, code: KeyCode, turn: (Point, real, real) -> Point)
    ensures ExploreKey(s, code, turn).confusion == s.confusion
    ensures ExploreKey(s, code, turn).headerText == s.headerText
  {
  }

  /** A growth step keeps the header a prefix of `HEADER`. */
  lemma GrowKeepsHeader(h: string)
    requires HeaderOk(h)
    ensures HeaderOk(Grow(h))
    ensures |Grow(h)| >= 2
  {
  }

  /** No update breaks the invariant. */
  lemma UpdateKeepsInvariant(s: State, now: nat)
    requires Invariant(s)
    ensures Invariant(OnUpdate(s, now))
  {
    if s.reset {
      assert Invariant(ApplyReset(s));
    }
    GrowKeepsHeader(ApplyReset(s).headerText);
  }

  /** `q` sets `exit` in either mode and changes nothing else. */
  lemma QuitExits(s: State, turn: (Point, real, real) -> Point)
    ensures OnEvent(s, Key(Char('q')), turn) == s.(exit := true)
  {
  }

  /** `r`, space, `?` and `Q` act the same in either mode. */
  lemma ModeIndependentKeys(s: State, turn: (Point, real, real) -> Point)
    ensures OnEvent(s, Key(Char('r')), turn) == s.(reset := true)
    ensures OnEvent(s, Key(Char(' ')), turn) == s.(paused := !s.paused)
    ensures OnEvent(s, Key(Char('?')), turn) == s.(help := !s.help)
    ensures OnEvent(s, Key(Char('Q')), turn) == s.(explore := !s.explore)
  {
  }

  /** Outside explore mode `w` raises confusion by 20 up to 100 and `s` lowers it by 20 down to 0. */
  lemma ConfusionKeys(s: State, turn: (Point, real, real) -> Point)
    requires !s.explore && ConfusionOk(s.confusion)
    ensures OnEvent(s, Key(Char('w')), turn).confusion == if s.confusion < 100 then s.confusion + 20 else 100
    ensures OnEvent(s, Key(Char('s')), turn).confusion == if s.confusion > 0 then s.confusion - 20 else 0
    ensures OnEvent(OnEvent(s, Key(Char('w')), turn), Key(Char('s')), turn) == s <==> s.confusion < 100
  {
  }

  /** In explore mode no key changes confusion. */
  lemma ExploreKeepsConfusion(s: State, e: Event, turn: (Point, real, real) -> Point)
    requires s.explore
    ensures OnEvent(s, e, turn).confusion == s.confusion
  {
    if e.Key? {
      ExploreKeyFrame(s, e.code, turn);
    }
  }

  /** In explore mode a rate key nudges its rate and nothing else. */
  lemma RateKeyEvent(s: State, c: char, turn: (Point, real, real) -> Point)
    requires s.explore && RateKey(c).Some?
    ensures OnEvent(s, Key(Char(c)), turn)
         == s.(rotations4d := Nudge(s.rotations4d, RateKey(c).value.0, RateKey(c).value.1))
  {
    assert c !in {'q', 'r', ' ', '?', 'Q', 'w', 's', 'a', 'd'};
  }

  /**
   * In explore mode a rate key changes exactly its own rate by `±0.01` and
   * nothing else, and its partner key undoes it.
   */
  lemma RateKeyNudges(s: State, lower: char, upper: char, turn: (Point, real, real) -> Point)
    requires s.explore
    requires (lower, upper) in [('h', 'H'), ('j', 'J'), ('k', 'K'), ('l', 'L'), ('n', 'N'), ('m', 'M')]
    ensures RateKey(lower).Some? && RateKey(upper).Some?
    ensures RateKey(lower).value.0 == RateKey(upper).value.0
    ensures OnEvent(s, Key(Char(lower)), turn)
         == s.(rotations4d := Nudge(s.rotations4d, RateKey(lower).value.0, ROTATION_AMOUNT))
    ensures OnEvent(s, Key(Char(upper)), turn)
         == s.(rotations4d := Nudge(s.rotations4d, RateKey(upper).value.0, -ROTATION_AMOUNT))
    ensures OnEvent(OnEvent(s, Key(Char(lower)), turn), Key(Char(upper)), turn) == s
  {
    var k := RateKey(lower).value.0;
    assert RateKey(lower).value.1 == ROTATION_AMOUNT && RateKey(upper).value.1 == -ROTATION_AMOUNT;
    RateKeyEvent(s, lower, turn);
    var t := OnEvent(s, Key(Char(lower)), turn);
    RateKeyEvent(t, upper, turn);
    NudgeInverse(s.rotations4d, k, ROTATION_AMOUNT);
  }

  /** In explore mode `w` then `s`, or `d` then `a`, brings the camera back. */
  lemma ExploreMovesInverse(s: State, turn: (Point, real, real) -> Point)
    requires s.explore
    ensures OnEvent(OnEvent(s, Key(Char('w')), turn), Key(Char('s')), turn) == s
    ensures OnEvent(OnEvent(s, Key(Char('d')), turn), Key(Char('a')), turn) == s
  {
    SubAddCancel(s.camPos, Scale(s.camDirection, CAM_SPEED));
    SubAddCancel(s.camPos, Scale(CoreDisplay.Side(s.camDirection), CAM_SPEED));
  }

  /** A pending reset is applied even when paused: defaults restored, flag cleared. */
  lemma ResetApplied(s: State, now: nat)
    requires s.reset
    ensures
      var t := OnUpdate(s, now);
      && !t.reset && t.confusion == 0 && t.camPos == DEFAULT_CAM_POS && t.camDirection == DEFAULT_CAM_DIRECTION
      && (t.headerText == "H" || t.headerText == "Te")
      && (s.paused ==> t.headerText == "H" && t == ApplyReset(s))
      && (!s.explore && !s.paused ==> t.rotations4d == ZERO_RATES)
  {
  }

  /** Paused with no pending reset, an update changes nothing at all. */
  lemma PausedFreezes(s: State, now: nat)
    requires s.paused && !s.reset
    ensures OnUpdate(s, now) == s
  {
  }

  /** Outside explore mode the rates after an update are the table's entry for the confusion level. */
  lemma RatesFollowConfusion(s: State, now: nat)
    requires !s.explore && !s.paused && ConfusionOk(s.confusion)
    ensures
      var c := ApplyReset(s).confusion;
      var r := OnUpdate(s, now).rotations4d;
      && (c == 0 ==> r == ZERO_RATES)
      && (c == 20 ==> r == Rates(0.0, 0.0, 0.0, 0.01, 0.0, 0.0))
      && (c == 40 ==> r == Rates(0.0, 0.0, 0.0, 0.0, 0.01, 0.0))
      && (c == 60 ==> r == Rates(0.0, 0.0, 0.0, 0.0, 0.0, 0.01))
      && (c == 80 ==> r == Rates(0.0, 0.0, 0.0, 0.01, 0.01, 0.0))
      && (c == 100 ==> r == Rates(0.01, 0.0, 0.0, 0.01, 0.01, 0.01))
  {
  }

  /** `n` growth steps from the reset header. */
  function GrowN(h: string, n: nat): string {
    if n == 0 then h else Grow(GrowN(h, n - 1))
  }

  /** From `H`, `n` growth steps give the first `n + 1` letters, capped at the whole header after 9. */
  lemma {:induction false} GrowFromReset(n: nat)
    requires n >= 1
    ensures GrowN("H", n) == HEADER[..if n + 1 <= |HEADER| then n + 1 else |HEADER|]
  {
    if n > 1 {
      GrowFromReset(n - 1);
    }
  }

  // ----------------------------------------------------------------- state

  class App {
    var camPos: Point
    var camDirection: Point
    var rotations4d: Rates
    var headerText: string
    var lastTime: nat
    var dt: nat
    var elapsed: nat
    var confusion: nat
    var reset: bool
    var paused: bool
    var exit: bool
    var help: bool
    var explore: bool
    const primaryColor: ColorWrapper
    const fgColor: ColorWrapper
    const bgColor: ColorWrapper

    function Snapshot(): State
      reads this
    {
      State(camPos, camDirection, rotations4d, headerText, lastTime, dt, elapsed, confusion,
            reset, paused, exit, help, explore)
    }

    /** `App::default` at instant `now`. */
    constructor(now: nat)
      ensures Snapshot() == Initial(now) && Invariant(Snapshot())
      ensures primaryColor == MakeRgb(192, 80, 80) && fgColor == MakeRgb(240, 240, 240)
      ensures bgColor == MakeRgb(30, 30, 30)
    {
      camPos := DEFAULT_CAM_POS;
      camDirection := DEFAULT_CAM_DIRECTION;
      rotations4d := Rates(0.0, 0.0, 0.0, 0.01, 0.0, 0.01);
      headerText := "H";
      lastTime := now;
      dt := 0;
      elapsed := 0;
      confusion := 0;
      reset := false;
      paused := false;
      exit := false;
      help := false;
      explore := false;
      primaryColor := MakeRgb(192, 80, 80);
      fgColor := MakeRgb(240, 240, 240);
      bgColor := MakeRgb(30, 30, 30);
    }

    /** `handle_event`. */
    method HandleEvent(e: Event, turn: (Point, real, real) -> Point)
      modifies this
      ensures Snapshot() == OnEvent(old(Snapshot()), e, turn)
    {
      ghost var before := Snapshot();
      if e.Key? {
        var code := e.code;
        if code == Char('q') {
          exit := true;
        } else if code == Char('r') {
          reset := true;
        } else if code == Char(' ') {
          paused := !paused;
        } else if code == Char('?') {
          help := !help;
        } else if code == Char('Q') {
          explore := !explore;
        } else if !explore {
          if code == Char('w') {
            if confusion <= 80 {
              confusion := confusion + 20;
            }
          } else if code == Char('s') {
            if confusion >= 20 {
              confusion := confusion - 20;
            }
          }
          assert Snapshot() == NormalKey(before, code);
        } else {
          ExploreStep(code, turn);
        }
      }
    }

    /** The explore-mode arm of `handle_event`. */
    method ExploreStep(code: KeyCode, turn: (Point, real, real) -> Point)
      modifies this
      ensures Snapshot() == ExploreKey(old(Snapshot()), code, turn)
    {
      match code {
        case Char('w') => camPos := Add(camPos, Scale(camDirection, CAM_SPEED));
        case Char('s') => camPos := Sub(camPos, Scale(camDirection, CAM_SPEED));
        case Char('a') => camPos := Sub(camPos, Scale(CoreDisplay.Side(camDirection), CAM_SPEED));
        case Char('d') => camPos := Add(camPos, Scale(CoreDisplay.Side(camDirection), CAM_SPEED));
        case Up => camDirection := turn(camDirection, 0.0, CAM_ROTATION);
        case Down => camDirection := turn(camDirection, 0.0, -CAM_ROTATION);
        case Left => camDirection := turn(camDirection, CAM_ROTATION, 0.0);
        case Right => camDirection := turn(camDirection, -CAM_ROTATION, 0.0);
        case Char(c) =>
          match RateKey(c) {
            case Some((k, delta)) => rotations4d := Nudge(rotations4d, k, delta);
            case None =>
          }
        case OtherKey =>
      }
    }

    /** `update` at instant `now`. */
    method Update(now: nat)
      modifies this
      ensures Snapshot() == OnUpdate(old(Snapshot()), now)
    {
      ghost var before := Snapshot();
      if reset {
        reset := false;
        confusion := 0;
        headerText := "H";
        camDirection := DEFAULT_CAM_DIRECTION;
        camPos := DEFAULT_CAM_POS;
      }
      assert Snapshot() == ApplyReset(before);
      if paused {
        return;
      }
      ghost var reset' := Snapshot();
      dt := if now >= lastTime then now - lastTime else 0;
      elapsed := elapsed + dt;
      lastTime := now;
      ghost var advanced := Snapshot();
      assert advanced == Advance(reset', now);
      if GrowthDue(elapsed) {
        headerText := Grow(headerText);
      }
      if !explore {
        rotations4d := RotationTable(confusion, rotations4d);
      }
      assert Snapshot() == Animate(advanced);
    }
  }
}
