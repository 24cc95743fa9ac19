/**
  The paddle-input state of the Pong widget: the set of keys currently held
  down, updated by key-down and key-up events, and the per-frame update that
  turns held keys into vertical moves of the left and right paddles.
 */
module Pong {

  /** A 2-D point or extent (Kivy's `pos` and `size` pairs). */
  datatype Vec = Vec(x: real, y: real)

  /** A drawn rectangle: its bottom-left corner and its size. */
  datatype Rect = Rect(pos: Vec, size: Vec)

  /** The key code a key-up event carries: the numeric code and the key's name. */
  datatype Keycode = Keycode(code: int, name: string)

  /** Paddle speed, in units per second of elapsed frame time. */
  const Speed: real := 200.0

  /** Keys that move the left paddle up and down, and the right paddle up and down. */
  const LeftUp: string := "w"
  const LeftDown: string := "s"
  const RightUp: string := "i"
  const RightDown: string := "k"

  /** Initial placement of the two paddles. */
  const PaddleSize: Vec := Vec(15.0, 100.0)
  const LeftStart: Vec := Vec(50.0, 0.5)
  const RightStart: Vec := Vec(800.0, 0.5)

  // ---------------------------------------------------------------------
  // The pressed-key set
  // ---------------------------------------------------------------------

  /** The key set after a key-down event whose text is `text`. */
  function AfterKeyDown(keys: set<string>, text: string): (r: set<string>)
    ensures text in r
    ensures forall k :: k != text ==> (k in r <==> k in keys)
  {
    keys + {text}
  }

  /**
    The key set after a key-up event: the key's name is removed when it is
    held; otherwise the set is left as it was and nothing fails.
   */
  function AfterKeyUp(keys: set<string>, keycode: Keycode): (r: set<string>)
    ensures keycode.name !in r
    ensures forall k :: k != keycode.name ==> (k in r <==> k in keys)
    ensures keycode.name !in keys ==> r == keys
    ensures keycode.name in keys ==> |r| == |keys| - 1
  {
    var text := keycode.name;
    if text in keys then keys - {text} else keys
  }

  /** Pressing a key that is already held changes nothing. */
  lemma KeyDownIdempotent(keys: set<string>, text: string)
    requires text in keys
    ensures AfterKeyDown(keys, text) == keys
  {
  }

  /**
    Releasing a key whose name is the text its press recorded restores the
    set as it was before the press, provided the key was not already held.
   */
  lemma KeyUpUndoesKeyDown(keys: set<string>, text: string, code: int)
    requires text !in keys
    ensures AfterKeyUp(AfterKeyDown(keys, text), Keycode(code, text)) == keys
  {
  }

  /**
    Key-down records the event's text while key-up removes the key code's
    name: when the two differ, the recorded text is still held after the
    release.
   */
  lemma ReleaseOfOtherNameKeepsText(keys: set<string>, text: string, keycode: Keycode)
    requires keycode.name != text
    ensures text in AfterKeyUp(AfterKeyDown(keys, text), keycode)
    ensures keycode.name !in AfterKeyUp(AfterKeyDown(keys, text), keycode)
  {
  }

  /** A keyboard event as delivered to the widget. */
  datatype KeyEvent = Down(text: string) | Up(keycode: Keycode)

  /** The symbol an event adds to or removes from the key set. */
  function Symbol(e: KeyEvent): string
  {
    match e
    case Down(text) => text
    case Up(keycode) => keycode.name
  }

  /** The key set after one event. */
  function AfterEvent(keys: set<string>, e: KeyEvent): set<string>
  {
    match e
    case Down(text) => AfterKeyDown(keys, text)
    case Up(keycode) => AfterKeyUp(keys, keycode)
  }

  /** The key set after a sequence of events, in order. */
  function Replay(keys: set<string>, events: seq<KeyEvent>): set<string>
    decreases |events|
  {
    if events == [] then keys
    else AfterEvent(Replay(keys, events[..|events| - 1]), events[|events| - 1])
  }

  /**
    Reference definition of "held": a symbol is held after a sequence of
    events when the last event about it was a key-down, or, when no event
    was about it, when it was held at the start.
   */
  predicate HeldAfter(keys: set<string>, events: seq<KeyEvent>, s: string)
    decreases |events|
  {
    if events == [] then s in keys
    else if Symbol(events[|events| - 1]) == s then events[|events| - 1].Down?
    else HeldAfter(keys, events[..|events| - 1], s)
  }

  /** Replaying events by the two handlers holds exactly the symbols the reference definition calls held. */
  lemma {:induction false} ReplayHolds(keys: set<string>, events: seq<KeyEvent>, s: string)
    ensures s in Replay(keys, events) <==> HeldAfter(keys, events, s)
    decreases |events|
  {
    if events != [] {
      ReplayHolds(keys, events[..|events| - 1], s);
    }
  }

  /** After a key-down and the matching key-up of the same name, that name is not held, whatever came before. */
  lemma PressThenReleaseNotHeld(keys: set<string>, events: seq<KeyEvent>, s: string, code: int)
    ensures s !in Replay(keys, events + [Down(s), Up(Keycode(code, s))])
  {
  }

  // ---------------------------------------------------------------------
  // Paddle movement
  // ---------------------------------------------------------------------

  /** The distance a paddle moves in a frame that lasted `dt` seconds. */
  function StepSize(dt: real): real
  {
    Speed * dt
  }

  /**
    The paddle position after one frame: `up` held raises y by one step,
    `down` held lowers it by one step, both held cancel; x never changes and
    y is not clamped to the screen.
   */
  function MoveBar(pos: Vec, keys: set<string>, up: string, down: string, dt: real): (r: Vec)
    ensures r.x == pos.x
    ensures up in keys && down !in keys ==> r.y == pos.y + 200.0 * dt
    ensures down in keys && up !in keys ==> r.y == pos.y - 200.0 * dt
    ensures (up in keys <==> down in keys) ==> r.y == pos.y
    ensures dt >= 0.0 ==> -200.0 * dt <= r.y - pos.y <= 200.0 * dt
  {
    var step := StepSize(dt);
    var y := if up in keys then pos.y + step else pos.y;
    var y' := if down in keys then y - step else y;
    Vec(pos.x, y')
  }

  /** A paddle's move depends only on whether its own two keys are held. */
  lemma MoveBarOnlyReadsItsKeys(pos: Vec, keys1: set<string>, keys2: set<string>, up: string, down: string, dt: real)
    requires up in keys1 <==> up in keys2
    requires down in keys1 <==> down in keys2
    ensures MoveBar(pos, keys1, up, down, dt) == MoveBar(pos, keys2, up, down, dt)
  {
  }

  /**
    The left paddle's keys never move the right paddle, and the right
    paddle's keys never move the left one: whichever of them are held, the
    other paddle moves as if none were.
   */
  lemma KeysOfOnePaddleLeaveTheOther(pos: Vec, keys: set<string>, dt: real)
    ensures MoveBar(pos, keys, RightUp, RightDown, dt) == MoveBar(pos, keys - {LeftUp, LeftDown}, RightUp, RightDown, dt)
    ensures MoveBar(pos, keys, LeftUp, LeftDown, dt) == MoveBar(pos, keys - {RightUp, RightDown}, LeftUp, LeftDown, dt)
  {
  }

  /** +1 when only the up key is held, -1 when only the down key is, 0 otherwise. */
  function Direction(keys: set<string>, up: string, down: string): real
  {
    (if up in keys then 1.0 else 0.0) - (if down in keys then 1.0 else 0.0)
  }

  /** Total elapsed time of a sequence of frames. */
  function Elapsed(dts: seq<real>): real
  {
    if dts == [] then 0.0 else dts[0] + Elapsed(dts[1..])
  }

  /** A paddle's position after one frame per entry of `dts`, with the same keys held throughout. */
  function Drive(pos: Vec, keys: set<string>, up: string, down: string, dts: seq<real>): Vec
    decreases |dts|
  {
    if dts == [] then pos
    else Drive(MoveBar(pos, keys, up, down, dts[0]), keys, up, down, dts[1..])
  }

  /**
    Uniform speed whatever the frame rate: with the same keys held, the
    distance travelled depends only on the total elapsed time, not on how it
    is split into frames.
   */
  lemma {:induction false} UniformSpeed(pos: Vec, keys: set<string>, up: string, down: string, dts: seq<real>)
    ensures Drive(pos, keys, up, down, dts)
         == Vec(pos.x, pos.y + Direction(keys, up, down) * (200.0 * Elapsed(dts)))
    decreases |dts|
  {
    if dts != [] {
      var next := MoveBar(pos, keys, up, down, dts[0]);
      UniformSpeed(next, keys, up, down, dts[1..]);
      var rest := Elapsed(dts[1..]);
      if up in keys && down !in keys {
        assert Direction(keys, up, down) == 1.0;
      } else if down in keys && up !in keys {
        assert Direction(keys, up, down) == -1.0;
      } else {
        assert Direction(keys, up, down) == 0.0;
      }
    }
  }

  // ---------------------------------------------------------------------
  // The widget
  // ---------------------------------------------------------------------

  /** The widget's paddle-input state: the held keys and the two paddles. */
  class PongWidget {
    var pressedKeys: set<string>
    var playerL: Rect
    var playerR: Rect

    /**
      Both paddles keep their size and their x coordinate for the widget's
      whole life: the constructor establishes this and every handler keeps it.
     */
    ghost predicate Valid()
      reads this
    {
      && playerL.size == PaddleSize && playerL.pos.x == LeftStart.x
      && playerR.size == PaddleSize && playerR.pos.x == RightStart.x
    }

    constructor ()
      ensures Valid()
      ensures pressedKeys == {}
      ensures playerL == Rect(LeftStart, PaddleSize)
      ensures playerR == Rect(RightStart, PaddleSize)
    {
      playerL := Rect(Vec(50.0, 0.5), Vec(15.0, 100.0));
      playerR := Rect(Vec(800.0, 0.5), Vec(15.0, 100.0));
      pressedKeys := {};
    }

    /** Key-down handler: records the event's text as held. */
    method OnKeyDown(text: string)
      modifies this`pressedKeys
      ensures old(Valid()) ==> Valid()
      ensures pressedKeys == AfterKeyDown(old(pressedKeys), text)
    {
      pressedKeys := pressedKeys + {text};
    }

    /** Key-up handler: forgets the key code's name if it is held. */
    method OnKeyUp(keycode: Keycode)
      modifies this`pressedKeys
      ensures old(Valid()) ==> Valid()
      ensures pressedKeys == AfterKeyUp(old(pressedKeys), keycode)
    {
      var text := keycode.name;
      if text in pressedKeys {
        pressedKeys := pressedKeys - {text};
      }
    }

    /**
      Per-frame update: moves the left paddle by `w`/`s` and the right paddle
      by `i`/`k`, at `Speed` units per second of `dt`.
     */
    method MoveBars(dt: real)
      modifies this`playerL, this`playerR
      ensures old(Valid()) ==> Valid()
      ensures pressedKeys == old(pressedKeys)
      ensures playerL == old(playerL).(pos := MoveBar(old(playerL.pos), pressedKeys, LeftUp, LeftDown, dt))
      ensures playerR == old(playerR).(pos := MoveBar(old(playerR.pos), pressedKeys, RightUp, RightDown, dt))
    {
      var currentLx, currentLy := playerL.pos.x, playerL.pos.y;
      var currentRx, currentRy := playerR.pos.x, playerR.pos.y;

      var stepSize := StepSize(dt);

      if LeftUp in pressedKeys {
        currentLy := currentLy + stepSize;
      }
      if LeftDown in pressedKeys {
        currentLy := currentLy - stepSize;
      }
      if RightUp in pressedKeys {
        currentRy := currentRy + stepSize;
      }
      if RightDown in pressedKeys {
        currentRy := currentRy - stepSize;
      }

      playerL := playerL.(pos := Vec(currentLx, currentLy));
      playerR := playerR.(pos := Vec(currentRx, currentRy));
    }
  }

  /**
    A widget driven by events and frames agrees with the pure model: after a
    press of `w`, a frame, and the release of `w`, the left paddle has risen
    by exactly one step, the right paddle has not moved, and no key is held
    that was not held before.
   */
  method PressFrameRelease(dt: real) returns (leftRise: real, rightRise: real, keysAfter: set<string>)
    ensures leftRise == 200.0 * dt
    ensures rightRise == 0.0
    ensures keysAfter == {}
  {
    var widget := new PongWidget();
    widget.OnKeyDown(LeftUp);
    var before := widget.playerL.pos.y;
    var beforeR := widget.playerR.pos.y;
    widget.MoveBars(dt);
    widget.OnKeyUp(Keycode(119, LeftUp));
    leftRise := widget.playerL.pos.y - before;
    rightRise := widget.playerR.pos.y - beforeR;
    keysAfter := widget.pressedKeys;
    assert widget.pressedKeys == {};
  }
}
