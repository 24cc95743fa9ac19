# Pong paddle input, modelled in Dafny

This project models the paddle-input state of `PongWidget`, the one widget of a
two-paddle Pong game written with Kivy. The widget keeps the set of keys that
are currently held down. A key-down event adds the event's text to the set. A
key-up event removes the key code's name, and only when that name is in the
set. Every frame, `move_bars(dt)` moves the left paddle up for `w` and down
for `s`, and the right paddle up for `i` and down for `k`, by `200 * dt`
units per held key. It never touches the x coordinates and never clamps y.

Everything lives in `pong.dfy`, module `Pong`:

- `PongWidget` is a class with the fields the source updates in place:
  `pressedKeys` (a `set<string>`) and the two paddle rectangles `playerL` and
  `playerR` (a `Rect` value holding a position and a size, both pairs of
  `real`). Its constructor and its methods `OnKeyDown`, `OnKeyUp` and
  `MoveBars` mirror `__init__`, `_on_key_down`, `_on_key_up` and `move_bars`.
  `MoveBars` updates local copies of the coordinates step by step and writes
  them back, as the source does.
- The pure functions `AfterKeyDown`, `AfterKeyUp` and `MoveBar` specify what
  each method does to the state. The methods' postconditions tie the new
  state to these functions. The lemmas state the properties of the functions.
- `Replay` and `HeldAfter` describe a whole stream of key events. `Drive` and
  `Elapsed` describe a stream of frames with the keys held constant. They
  carry the properties that relate many calls: which keys are held after any
  event sequence, and that paddle speed does not depend on the frame rate.

Key-down records the `text` argument, but key-up removes `keycode[1]`. The
model keeps these as two independent inputs: `OnKeyDown` takes a `string`,
and `OnKeyUp` takes a `Keycode` (a numeric code and a name).
`ReleaseOfOtherNameKeepsText` shows what follows when they differ: the
recorded text stays in the set.

Positions and `dt` are Dafny `real`. Because of that, "both keys cancel" and
the uniform-speed property hold exactly here. With Python floats they hold
only up to rounding.

## Model

| member | source | states |
|---|---|---|
| `Pong.PongWidget.constructor` | main.py:8-22 | The key set starts empty. The left paddle starts at (50, 0.5) and the right at (800, 0.5), both sized 15×100. The object invariant holds from the start. |
| `Pong.PongWidget.OnKeyDown` | main.py:29-30 | The new key set is `AfterKeyDown` of the old one. Only `pressedKeys` may change, so the paddles are untouched. |
| `Pong.PongWidget.OnKeyUp` | main.py:32-35 | The new key set is `AfterKeyUp` of the old one. Only `pressedKeys` may change. |
| `Pong.PongWidget.MoveBars` | main.py:37-54 | Each paddle's new position is `MoveBar` of its old one, under its own key pair (`w`/`s` left, `i`/`k` right). The size is kept and the key set is unchanged. Whenever the invariant (fixed x and fixed size for both paddles) held before, it holds after. |
| `Pong.AfterKeyDown` | main.py:29-30 | The text is a member afterwards. Every other symbol's membership is unchanged. |
| `Pong.AfterKeyUp` | main.py:32-35 | The key name is not a member afterwards. Every other symbol's membership is unchanged. An absent name leaves the set exactly as it was, with no error. A present name shrinks the set by exactly one. |
| `Pong.KeyDownIdempotent` | main.py:30 | Pressing a key that is already held leaves the set as it was. |
| `Pong.KeyUpUndoesKeyDown` | main.py:29-35 | A key-down for a symbol not yet held, followed by a key-up carrying the same name, restores the original set. |
| `Pong.ReleaseOfOtherNameKeepsText` | main.py:29-35 | When the released key code's name differs from the pressed text, that text stays held and the name is absent. |
| `Pong.ReplayHolds` | main.py:29-35 | After any sequence of key events, a symbol is in the set exactly when the last event about it was a key-down. If no event was about it, membership is the same as at the start. Both directions are proved. |
| `Pong.PressThenReleaseNotHeld` | main.py:29-35 | After any history followed by a key-down and a key-up of the same name, that name is not held. |
| `Pong.MoveBar` | main.py:37-54 | x never changes. With only the up key held, y rises by exactly 200·dt. With only the down key held, y falls by exactly 200·dt. With both held or neither held, y is unchanged. For dt ≥ 0, y moves by at most 200·dt either way. No clamping is applied. |
| `Pong.MoveBarOnlyReadsItsKeys` | main.py:44-51 | A paddle's move depends only on whether its own two keys are held. |
| `Pong.KeysOfOnePaddleLeaveTheOther` | main.py:44-51 | Whatever combination of `w` and `s` is held, the right paddle moves exactly as if neither were held. Whatever combination of `i` and `k` is held, the left paddle moves exactly as if neither were held. So holding or releasing any one of them never changes the other paddle's move. |
| `Pong.UniformSpeed` | main.py:41-51 | Over any sequence of frames with the same keys held, the paddle ends at y + direction·200·(total elapsed time), with x unchanged. The distance therefore does not depend on how the time is split into frames. |
| `Pong.PressFrameRelease` | main.py:29-54 | On a fresh widget, a press of `w`, one frame and the release of `w` raise the left paddle by exactly 200·dt. The right paddle stays put, and the key set ends empty. |

## Left out

- Kivy keyboard plumbing is not modelled: `Window.request_keyboard`, the `bind`/`unbind` calls and `_on_keyboard_close` (main.py:10-12, 24-27). It is framework code. The handlers' `keyboard` and `modifiers` arguments, and the key code passed to key-down, are unused by the source and are omitted.
- Canvas rendering of the two `Rectangle`s is not modelled. Only their `pos` and `size` values are kept.
- `Clock.schedule_interval` (main.py:22) is not modelled as a scheduler. The frame-by-frame calls it makes appear only as the `Drive` sequence of `dt` values.
- `PongApp` and the `__main__` launcher (main.py:56-62) are application start-up and are not modelled.
- Floating-point rounding of `dt` and the positions is not modelled. The model uses exact `real` arithmetic.
- Kivy may pass `None` as the key-down text for keys that produce no text. The model has no `None`: every symbol is a `string`.
- No ball, collision, scoring, power-up or restart logic exists in `main.py`, so none is modelled.
