# Controller mini-game, modelled in Dafny

The portfolio page's script ends with a reaction game: a square target
(`#controller`) jumps to a random spot inside a play field (`#field`) on a
timer, each click on it scores a point, and every five points the timer runs
90 ms faster, down to a floor of 320 ms. A reset button puts the score back to
zero. This project models that game: the module-level state `score`,
`interval` and `timer`, the functions `rand`, `placeController`, `tick` and
`setScore`, and the click, keydown, reset, load and resize handlers.

- `common.dfy` — `Option` (a variable that may hold `null`) and `Max` (`Math.max`).
- `difficulty.dfy` — the interval formula, a level-by-level reading of it, and
  the lemmas relating the two (bounds, monotonicity, where the floor starts).
- `placement.dfy` — `rand` over an explicit `Math.random()` sample, the
  padded and clamped range per axis, and the position one placement computes.
- `game.dfy` — class `Game`: the game state, the browser's table of pending
  timeouts, and one method per function and event handler.
- `scenarios.dfy` — client methods that use only the contracts above to drive a
  `Game` through the interval at boundary scores, five clicks then two resets,
  a tick while another is pending, a field smaller than the target, and
  missing elements.

Modelling choices:

- `Math.random()` becomes a parameter: a `Sample`, an exact real in [0, 1).
  A placement takes a `Draw`, one sample per axis. `rand` is computed over
  exact reals as written: floor of sample times the range width, plus `min`.
- The field's `clientWidth`/`clientHeight` and the target's `offsetWidth` are
  read at every placement, so they are a `Geometry` parameter of each handler.
- The browser's timers are the map `pending` from handle to delay, with
  `nextHandle` as the browser's id counter. `timer` is the script's own handle
  variable. `setTimeout` and `clearTimeout` are methods of `Game` that modify
  that map. A timeout firing is the method `TimerFires`. Real time is not modelled.
- `document.getElementById` runs once at start-up, so the presence of the field,
  the target and the reset button are constructor arguments. Listeners attached
  with `?.` do not exist when their element is missing. So without the target,
  a click or key press does nothing, and without the reset button a reset does nothing.
- The object invariant `Game.Valid()` says five things. `interval` always equals
  `Interval(score)`. At most one timeout is pending, and it is the one `timer`
  holds. Every pending delay lies in [320, 950]. Every pending handle and the
  handle in `timer` lie below `nextHandle`, so the next `setTimeout` returns a
  handle that is not in use. A placed target exists only when the field and the
  target do, and it is at least `Pad` from the top-left edges.

The floor of 320 ms is first reached at score 35, since 950 − 7·90 = 320. From
then on every score gives 320.

## Model

| member | source | states |
|---|---|---|
| `Common.Max` | script.js:92-93 | the larger of the two arguments: it is at least both and equals one of them |
| `Difficulty.Interval` | script.js:113 | the interval is never below 320. For a non-negative score it is at most 950, it is 950 for scores 0 to 4, and it equals 320 exactly when the score is at least 35 |
| `Difficulty.LevelIntervalClosedForm` | script.js:113 | the level-by-level rule (start at 950, take 90 off per level, never below 320) equals `max(320, 950 − level·90)` for every level |
| `Difficulty.IntervalByLevels` | script.js:113 | for every score, the formula gives the same interval as the level-by-level rule at level ⌊score/5⌋ |
| `Difficulty.IntervalMonotone` | script.js:113 | the interval never increases as the score grows |
| `Difficulty.IntervalAfterPoint` | script.js:113 | one more point changes the interval exactly when the new score is a multiple of 5 and at most 35. When it changes, it drops by exactly 90 |
| `Placement.Rand` | script.js:80-82 | for `min ≤ max` the drawn value lies in [min, max]. For a reversed range it lies in (max, min] |
| `Placement.RandReaches` | script.js:80-82 | every value in [min, max] is produced by some `Math.random()` sample |
| `Placement.AxisMax` | script.js:87-93 | the upper bound of each axis range is never below the padding, so the range is never empty. When the field has room for the target and both margins, a target at the bound ends exactly 10 px before the far edge. Otherwise the bound is clamped to 10 |
| `Placement.Placed` | script.js:84-96 | x lies in [10, max(10, fw − size − 10)] and y in [10, max(10, fh − size − 10)]. An axis too small for the target is pinned at 10. A field with room keeps the whole target inside with a 10 px margin |
| `Placement.EveryPositionReachable` | script.js:92-93 | every position of the padded rectangle is produced by some pair of samples, since the axes are drawn independently |
| `ControllerGame.Game.constructor` | script.js:71-78 | start-up state: score 0, interval 950 (which is `Interval(0)`), no timer handle, nothing pending, target not yet placed |
| `ControllerGame.Game.AtMostOneTimer` | script.js:104-108 | in every reachable state at most one timeout is pending. With no handle held, none is pending |
| `ControllerGame.Game.SetScore` | script.js:110-114 | the score becomes `next` and the interval becomes `Interval(next)`, which lies in [320, 950]. Nothing else changes |
| `ControllerGame.Game.PlaceController` | script.js:84-96 | with the field and target present, the target moves to `Placed(geometry, draw)`, inside both padded ranges. Otherwise nothing changes |
| `ControllerGame.Game.ClearTimeout` | script.js:106 | the given handle is no longer pending. `null` cancels nothing |
| `ControllerGame.Game.SetTimeout` | script.js:107 | a handle that was not pending becomes pending with the given delay, and the handle counter advances by one |
| `ControllerGame.Game.Tick` | script.js:104-108 | relocates the target, then leaves exactly one timeout pending, under a new handle held in `timer`, with the current interval as its delay, whatever was pending before. Score and interval are unchanged |
| `ControllerGame.Game.TimerFires` | script.js:105-107 | a pending timeout that fires runs `tick`: the target is relocated and exactly one timeout is pending afterwards, with the current interval as its delay. A cancelled handle changes nothing |
| `ControllerGame.Game.Click` | script.js:116-119 | the score goes up by exactly 1, the interval is recomputed from it, and the target is relocated. The pending timeout and `timer` are untouched |
| `ControllerGame.Game.KeyDown` | script.js:121-123 | Enter or Space relocates the target. Any other key changes nothing. Score, interval and timers never change |
| `ControllerGame.Game.Reset` | script.js:125-128 | from any state, the score becomes 0 and the interval 950, and the target is relocated, so a second reset yields the same score and interval. Timers are untouched |
| `ControllerGame.Game.Load` | script.js:130-133 | places the target, then starts the tick loop. Afterwards exactly one timeout is pending, with the current interval as its delay |
| `ControllerGame.Game.Resize` | script.js:135 | only relocates the target. Score, interval and timers stay as they were |

## Left out

- The scroll progress bar (script.js:15-25) is not modelled: it is floating-point percentages and string formatting over DOM scroll metrics.
- Reveal-on-scroll (script.js:28-43) is not modelled: it is `matchMedia` and `IntersectionObserver` wiring.
- The footer year and project count (script.js:6-12) are not modelled: they are `Date` and `querySelectorAll` reads with no logic.
- The contact form (script.js:46-68) is not modelled: it is `FormData`, URI encoding, the asynchronous clipboard and navigation.
- The scale pulse after each placement (script.js:98-101) is not modelled: it is a Web Animations call, decorative and non-blocking.
- The score text, `String(score)` written to `#score` (script.js:112), is not modelled: it is output only. The model keeps the score as a number.
- Writes to `style.left`/`style.top` are modelled as updates to the position field, not as CSS strings.
- Placement.Rand: computes over exact reals, not IEEE doubles. Floating-point rounding of `Math.random() * (max - min + 1)` is not captured.
- Timers: the delay is recorded but time does not pass. Which of several events comes first is up to the caller of the methods.
- ControllerGame.Game.SetScore: the score is an unbounded natural number. The loss of integer precision past 2^53 in a JavaScript number is not modelled.
- Uniformity of the random placement is not modelled. The model proves that every position in the padded rectangle can be reached and that no position outside it can.
