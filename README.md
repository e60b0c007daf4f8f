# FlappyDive simulation core in Dafny

FlappyDive is a small SDL2 arcade game. The player steers a submarine between
scrolling pipe pairs, while bubbles rise and creatures drift past in the
background. This project models the game's per-frame simulation:

- what each actor's `update`, `reset` and `switch_theme` do to its state;
- how obstacles, bubbles and scenery are generated;
- the palette cursor;
- the score label.

It then proves what the code promises about that state. Drawing, asset
loading and event polling are not modelled.

## How the code is modelled

The code is modelled in the form it has:

- **Actors that update their fields in place become classes.** These are
  `Pipes`, `Background`, `Bubbles`, `Sub`, the `Actors` aggregate and the
  `ThemeSwitcher`. Each `update` method's postcondition ties the new state to
  a specification function of the old state. Lemmas then state what those
  functions guarantee.
- **`Vec::retain` is written once.** It is the loop `Seqs.Retain`, proved
  equal to the order-preserving filter `Seqs.Filter`.
- **Random draws are parameters.** Each draw is a parameter constrained to
  its `gen_range` interval. The constraint applies only on the branch that
  makes the draw, for example `Due(fc, mark) ==> ValidDraw(d, height)`.
- **Types.** `f32` quantities (the sub's velocity, bubble coordinates) are
  `real`. `as i32` on a float is the explicit truncation toward zero
  `SubPhysics.TruncToInt`. Float `%` by 2π is `SubPhysics.FModTurn`, whose result takes
  the sign of the dividend.

Modules:

| module | models |
|---|---|
| `Themes` | `src/theme.rs`: the four palettes and the cyclic `ThemeSwitcher` |
| `Game` | the per-frame `GameState` the actors read, and SDL's `Rect` |
| `Seqs` | `Vec::retain` as a filter, and the order-preservation facts about it |
| `ActorPipes` | `src/actors/pipe.rs` |
| `ActorBackground` | `src/actors/background.rs` |
| `ActorBubbles` | `src/actors/bubble.rs` |
| `SubPhysics` | the physics shared by `src/actors/sub.rs` and `src/sub.rs` |
| `ActorSub` | `src/actors/sub.rs` |
| `Actors` | `src/actors.rs` |
| `Score` | `src/actors/score.rs` |
| `DraftSub` | `src/sub.rs` |
| `DraftBubbles` | `src/bubble.rs`, plus the identical bubble type and generator of `src/main.rs` |
| `DraftBackground` | `src/background.rs` |
| `MainLoop` | `src/main.rs` |

`MainLoop` models the monolithic first version of the game:

- the pregame event handling;
- one tick of the playing loop, as a method from the old local variables to
  the new ones;
- its fixed array of ten bubbles, overwritten in place.

`MainLoop.DefaultSub` is `Sub::default()`: position (100, 100), velocity 0,
gravity 0.1 and jump strength -5.0.

### Behaviour of the code worth knowing

- **Spawn position of background creatures.** The actor background spawns
  them at x = 800, a constant, not at the window width.
- **Sub position after ten frames.** Take a sub at y = 100, starting from
  rest, with gravity 0.2.
  - The code truncates each frame's velocity before adding it to y, so the
    sub moves 0, 0, 0, 0, 1, 1, 1, 1, 1 and 2 pixels: y = 107, velocity 2.0.
  - Summing the untruncated velocities would give 11 pixels, y = 111; the
    per-frame truncation loses 4 of them.
  - `SubPhysics.TenFramesFromRest` proves y = 107.
- **Bubble pool size.** The first version's pool holds exactly
  `MAX_BUBBLES = 10` bubbles.
- **Game over in the first version.** `src/main.rs` ends the run when the sub
  leaves the screen at the top or the bottom. The actor sub only rests on the
  floor.
- **Which window height each step uses in `src/main.rs`.** The pipe's hole
  offset uses the height read before the loop. Gravity, the bounds test and
  the bubble respawn use the height re-read in each tick, because the tick
  shadows the earlier binding. The bubble respawn uses the width read before
  the loop.

## Model

| member | source | states |
|---|---|---|
| Themes.GrayscaleThemeIsGray | src/theme.rs:35-49 | every colour of the grayscale palette has equal red, green and blue |
| Themes.NextIndex | src/theme.rs:96-97 | the next index is always below the list length; it is one further, or 0 after the last palette |
| Themes.AdvanceIsModular | src/theme.rs:89-99 | with the four palettes, `k` calls of `next` from index `i` give index `(i + k) mod 4`; from a fresh switcher, `k mod 4` |
| Themes.FourCallsReturn | src/theme.rs:89-99 | four calls of `next` come back to the starting palette |
| Themes.ThemeSwitcher.constructor | src/theme.rs:89-94 | starts at index 0 with exactly COLOR, GRAYSCALE, THEME, THEME_2 in that order |
| Themes.ThemeSwitcher.Current | src/theme.rs:101-103 | returns one of the switcher's palettes; a function of the state, so it modifies nothing |
| Themes.ThemeSwitcher.Next | src/theme.rs:96-99 | changes only the index, to `(index + 1) mod len`; the list is constant; the index stays in bounds; the palette returned is what `current` returns next |
| Seqs.Filter | src/actors/pipe.rs:137 | the kept elements are never more than the input, and all come from the input and satisfy the predicate |
| Seqs.Retain | src/actors/pipe.rs:137 | the `retain` loop yields exactly the order-preserving filter of its input |
| Seqs.FilterMembership | src/actors/pipe.rs:137 | an element survives `retain` if and only if it was present and satisfies the predicate |
| Seqs.FilterIsSubsequence | src/actors/pipe.rs:137 | `retain` keeps the survivors in their original relative order |
| ActorPipes.Generate | src/actors/pipe.rs:58-65 | a generated pipe is at `x`; its top edge is at least 50; its gap is 150 to 249 pixels high; its bottom edge is above `height - 50` |
| ActorPipes.OffsetRangeNonEmpty | src/actors/pipe.rs:61-62 | a hole offset can be drawn for every hole size exactly when the window is at least 350 pixels high |
| ActorPipes.ScrollingPipe | src/actors/pipe.rs:25-31 | a scrolled pipe is off-screen exactly when its old x was more than 50 pixels past the speed; scrolling changes only x (two scrolls add up, the gap is kept); for a non-negative speed an off-screen pipe stays off-screen |
| ActorPipes.SpawnRule | src/actors/pipe.rs:123-129 | a due update (`fc > next_pipe_at`) adds exactly one pipe and sets the mark to between `fc + 75` and `fc + 199`; otherwise the queue and the mark are unchanged |
| ActorPipes.StepSurvivors | src/actors/pipe.rs:119-138 | after `update` no pipe has `x < -50`; each pipe is a spawned pipe moved left by exactly `x_speed` with its offsets unchanged; the order is kept |
| ActorPipes.StepKeepsVisible | src/actors/pipe.rs:132-137 | a pipe still at `x >= -50` after moving is not dropped |
| ActorPipes.NewPipeIsLast | src/actors/pipe.rs:123-134 | unless scrolling already takes it off-screen, a newly spawned pipe is the last in the queue, at `window_width - x_speed` with the drawn gap |
| ActorPipes.Pipes.constructor | src/actors/pipe.rs:50-55 | starts with no pipes and `next_pipe_at = 0` |
| ActorPipes.Pipes.Update | src/actors/pipe.rs:119-138 | the new queue is spawn, then move, then retain applied to the old queue; the new mark is the spawn rule's; every pipe stays well-formed and on screen |
| ActorPipes.Pipes.SwitchTheme | src/actors/pipe.rs:140-143 | changes no pipe and not the mark |
| ActorPipes.Pipes.Reset | src/actors/pipe.rs:145-148 | the queue is empty and `next_pipe_at = 0`, whatever the state before |
| ActorPipes.Pipes.GetBoundingBoxes | src/actors/pipe.rs:152-162 | two boxes per pipe, in pipe order: `(x-5, 0, 60, top+20)`, then `(x-5, bottom, 60, 600)` |
| ActorBackground.ScrollAllSpec | src/actors/background.rs:95-101 | the speckle count is kept and every speckle ends at `x >= 0`; a speckle that does not cross the edge moves left by `x_speed` at the same height; one that crosses wraps to x = 800 with a height in [400, 600) |
| ActorBackground.ScrollingObject | src/actors/background.rs:22-28 | a scrolled object is finished exactly when its old x was more than 100 pixels past the speed; scrolling changes only x (two scrolls add up, height and texture kept); for a non-negative speed a finished object stays finished |
| ActorBackground.ObjectSpawnRule | src/actors/background.rs:104-116 | an object is added exactly when `fc >= new_object_at_fc`, at x = 800 with y in [450, 550) and a valid texture, and the mark moves to `fc + [50, 300)`; otherwise the list and the mark are unchanged |
| ActorBackground.SteppedObjectsSurvivors | src/actors/background.rs:119-124 | after `update` no object has `x < -100`; each object is a spawned object moved left by exactly `x_speed`; the order is kept |
| ActorBackground.Background.constructor | src/actors/background.rs:49-59 | 100 speckles with x in [0, 800) and y in [400, 600); no objects; first spawn frame in [0, 100); one texture |
| ActorBackground.Background.Update | src/actors/background.rs:93-125 | the speckles become their scrolled and wrapped images; the objects become spawn, then move, then retain of the old list; the mark follows the spawn rule; the invariants on speckles and objects are kept |
| ActorBackground.Background.SwitchTheme | src/actors/background.rs:127-131 | changes no position, speckle or spawn counter |
| ActorBackground.Background.Reset | src/actors/background.rs:133-135 | changes nothing |
| ActorBubbles.Generate | src/actors/bubble.rs:66-81 | x in [0, w+300); y = h; pop height in [-20, h/2); velocity in [-3.0, -0.5); texture below 3; a new bubble is not finished |
| ActorBubbles.BubbleMotion | src/actors/bubble.rs:29-36 | a frame moves a bubble left by the speed and by its own velocity vertically, keeps what `generate` fixed, makes a well-formed bubble rise, and for a non-negative speed keeps a finished bubble finished |
| ActorBubbles.StepCapacity | src/actors/bubble.rs:94-105 | `update` adds at most one bubble, and only under capacity; a pool within `max_bubbles` stays within it |
| ActorBubbles.StepSurvivors | src/actors/bubble.rs:94-105 | after `update` no bubble is above its pop height or left of x = 0; each is a pool bubble moved by `(-x_speed, velocity_y)`; the order is kept |
| ActorBubbles.Bubbles.constructor | src/actors/bubble.rs:47-64 | fills exactly `max_bubbles` bubbles, the i-th generated from the i-th draw |
| ActorBubbles.Bubbles.Update | src/actors/bubble.rs:94-105 | the new pool is replenish, then move, then retain applied to the old pool; capacity and liveness are kept |
| ActorBubbles.Bubbles.SwitchTheme | src/actors/bubble.rs:107-111 | leaves the bubble list unchanged |
| ActorBubbles.Bubbles.Reset | src/actors/bubble.rs:113-115 | leaves the bubble list unchanged |
| SubPhysics.TruncToInt | src/actors/sub.rs:71 | `as i32` truncates toward zero: the result is within one below a non-negative value, and within one above a negative value |
| SubPhysics.FModTurn | src/actors/sub.rs:59 | float `%` by 2π leaves a remainder in [0, 2π) for a non-negative dividend and in (-2π, 0] for a negative one |
| SubPhysics.BobbedInTurn | src/actors/sub.rs:57-59 | from any non-negative angle, the pregame bob lands in [0, 2π) |
| SubPhysics.PlayingStep | src/actors/sub.rs:67-84 | one playing frame: the velocity ends in [-10, 10] and y at or above the floor; y moves by `trunc(velocity + gravity)` unless that passes the floor, in which case the sub rests on the floor with velocity 0; the velocity is otherwise clamped |
| SubPhysics.FramesStayBounded | src/actors/sub.rs:67-84 | after any number of playing frames the velocity is in [-10, 10] and the sub is not below the floor |
| SubPhysics.TenFramesFromRest | src/actors/sub.rs:67-84 | from y = 100 at rest with gravity 0.2, ten frames give y = 107 and velocity 2.0 |
| SubPhysics.SubStepPhases | src/actors/sub.rs:55-85 | pregame and game over keep y and velocity, with the angle in [0, 2π) or 180; playing sets the angle to 0 and follows the clamps of `PlayingStep`; the angle stays in range |
| ActorSub.Sub.constructor | src/actors/sub.rs:23-37 | the spawn point is recorded; velocity 0, angle 0, gravity 0.2, jump -5.0 |
| ActorSub.Sub.Update | src/actors/sub.rs:55-85 | x never changes; (y, angle, velocity) becomes the three-phase step of the old values |
| ActorSub.Sub.SwitchTheme | src/actors/sub.rs:87-89 | changes no position, angle or velocity |
| ActorSub.Sub.Reset | src/actors/sub.rs:91-96 | back at the spawn point, level, velocity 0, whatever the state before, so it is idempotent |
| ActorSub.Sub.GetBoundingBoxes | src/actors/sub.rs:100-104 | exactly one 50x45 box at `(x, y + bob)`, where `bob` is the truncated bob offset; hence within 10 pixels of y, exactly at y while level (playing), 8 pixels up in the game-over pose |
| DraftSub.Sub.constructor | src/sub.rs:20-32 | at the given point with velocity 0, angle 0, gravity 0.2, jump -5.0 |
| DraftSub.Sub.Update | src/sub.rs:42-72 | x never changes; (y, angle, velocity) becomes the same three-phase step as the actor sub |
| DraftSub.Sub.SwitchTheme | src/sub.rs:74-76 | changes no position, angle or velocity |
| Actors.Actors.constructor | src/actors.rs:15-21 | holds the five actors |
| Actors.Actors.Update | src/actors.rs:40-46 | each actor's state becomes its own update applied to its own old state, so the broadcast is the composition of the five updates |
| Actors.Actors.Reset | src/actors.rs:32-38 | pipes empty with `next_pipe_at = 0`; the sub at its spawn point at rest; background and bubbles unchanged; nothing depends on the state before, so it is idempotent |
| Actors.Actors.SwitchTheme | src/actors.rs:24-30 | no positional or physics state of any actor changes |
| Score.Decimal | src/actors/score.rs:23 | the digits of a number: at least one, all decimal digits, no leading zero |
| Score.DecimalRoundTrip | src/actors/score.rs:23 | reading the printed digits gives the number back |
| Score.PaddedNonNegative | src/actors/score.rs:23 | `ZeroPadded`, the model of `{:06}`, on a non-negative number: it is `max(width, digit count)` long, never cut short, all digits, and reads back as the number |
| Score.PaddedNegative | src/actors/score.rs:23 | `ZeroPadded`, the model of `{:06}`, on a negative number: it is at least the width long, a minus sign followed by zero-padded digits that read back as the magnitude |
| Score.LabelFields | src/actors/score.rs:22-23 | for six-digit values the label is 32 characters: `"Score: "`, the padded frame counter, `"   Hi-Score: "`, the padded high score; each field reads back as its value |
| Score.Label | src/actors/score.rs:22-23 | whatever the values, the label is at least 32 characters long and starts with `"Score: "` (the fields are never cut short) |
| Score.LabelColor | src/actors/score.rs:19-24 | the label is drawn in a colour of the switcher's active palette (its text colour) |
| Score.LabelGrayOnlyInGrayscale | src/actors/score.rs:19-24 | with the four standard palettes the label is grey exactly when the grayscale palette is active |
| Score.Score.Update | src/actors/score.rs:37-38 | has no effect |
| Score.Score.SwitchTheme | src/actors/score.rs:40-41 | has no effect |
| Score.Score.Reset | src/actors/score.rs:43-44 | has no effect |
| DraftBubbles.Generate | src/bubble.rs:113-123 | x in [0, w+600); y in [h+10, h+100); velocity -3.0; texture below 3; a new bubble is not finished (the generator at src/main.rs:54-64 is the same code) |
| DraftBubbles.BubbleMotion | src/main.rs:85-92 | a frame moves a bubble right by `x_speed` (added, not subtracted) and 3 pixels up, keeping what `generate` fixed; a bubble above the top edge stays finished, one at least 3 pixels down whose new x is not negative is not finished (src/bubble.rs:26-28 and 94-97 are the same code) |
| DraftBubbles.StepCapacity | src/bubble.rs:73-83 | `update` adds at most one bubble; a pool within `max_bubbles` stays within it |
| DraftBubbles.StepSurvivors | src/bubble.rs:73-83 | every bubble after `update` was alive before it moved (a survivor of the removal, or the new one); it moved by `(+x_speed, velocity_y)` |
| DraftBubbles.Bubbles.constructor | src/bubble.rs:39-61 | fills exactly `max_bubbles` bubbles, the i-th from the i-th draw |
| DraftBubbles.Bubbles.Update | src/bubble.rs:73-83 | the new pool is retain, then replenish, then move applied to the old pool; capacity is kept |
| DraftBackground.SpawnRule | src/background.rs:72-80 | an object is added exactly when `fc >= new_object_at_fc`, at x = 800 with y in [0, 400), and the mark moves to `fc + [50, 300)`; otherwise the list and the mark are unchanged |
| DraftBackground.StepSurvivors | src/background.rs:82-88 | after `update` every object satisfies `x + texture_width > 0`; each is a spawned object moved left by `x_speed`; the order is kept |
| DraftBackground.WiderKeepsMore | src/background.rs:88 | any object kept with a narrower texture is also kept with a wider one |
| DraftBackground.Background.constructor | src/background.rs:34-39 | no objects; first spawn frame in [0, 100) |
| DraftBackground.Background.Update | src/background.rs:70-89 | the new list is spawn, then move, then retain applied to the old list; the mark follows the spawn rule |
| MainLoop.PregameEvents | src/main.rs:156-167 | afterwards started holds exactly when it held before or a Quit or Space arrived; over holds exactly when it held before or a Quit arrived |
| MainLoop.MovePipes | src/main.rs:229-231 | every pipe is moved 3 pixels left, in place |
| MainLoop.RemoveOffscreen | src/main.rs:234-241 | the reverse-index removal loop yields exactly the order-preserving filter of pipes not more than `qw` pixels past the left edge |
| MainLoop.DrainEvents | src/main.rs:249-259 | the event loop computes the event-by-event fold of Quit and Space |
| MainLoop.AfterEventsSpec | src/main.rs:249-259 | after the events the game is over exactly when it was or a Quit arrived; the velocity is the jump strength exactly when a Space arrived, else unchanged; the position is unchanged |
| MainLoop.PlayingTick | src/main.rs:202-259 | one loop iteration computes `Tick` of the old locals |
| MainLoop.FallSpec | src/main.rs:222-226 | gravity changes only velocity and height; a sub at or below the bottom edge is untouched; above it the velocity grows by the gravity and y moves by its truncation, never upwards for a non-negative velocity |
| MainLoop.DefaultSubFirstFall | src/main.rs:31-41 | the playing loop starts from `Sub::default()` (100, 100, at rest, gravity 0.1, jump -5.0); its first fall only raises the velocity to 0.1 and leaves y at 100, or changes nothing at or below the bottom edge |
| MainLoop.TickSpec | src/main.rs:202-259 | fc rises by 1; a pipe spawns exactly when due, at x = 800 with a well-formed gap, and the next one is due 75 to 199 frames later; remaining pipes are spawned pipes moved 3 left, at most `width/10` past the edge; game over exactly when it was, when the fallen sub is off-screen, or on Quit; Space sets the velocity to the jump strength |
| MainLoop.StartRunInvariant | src/main.rs:199-200 | the playing loop starts with no pipes and the first mark at 100 |
| MainLoop.TickKeepsInvariant | src/main.rs:199-219 | the mark never drops below 100 and pipes exist only after frame 100, so the first pipe appears no earlier than fc = 101 |
| MainLoop.InitialBubbles | src/main.rs:138-141 | the array holds exactly ten bubbles, the i-th generated from the i-th draw |
| MainLoop.BubbleAfterSpec | src/main.rs:305-311 | after the tick no bubble is finished; an unfinished bubble just moved by `(x_speed, velocity_y)`; a finished one is replaced by a well-formed bubble below the bottom edge |
| MainLoop.StepBubbles | src/main.rs:305-311 | each array slot is its old bubble moved, or replaced in place if that finished it; no bubble is finished afterwards; the length stays ten |

## Left out

- **Drawing and assets.**
  - Not modelled: every `render`, the canvas calls, fonts, texture loading and `set_color_mod`. These are SDL foreign calls.
  - As a result, each `switch_theme` changes no model state.
  - The score label is modelled as the string `render` formats; drawing it is not.
- **Randomness.** `rand::thread_rng` is not modelled. The drawn values are parameters restricted to their `gen_range` intervals.
  - An empty interval makes `gen_range` panic. That case appears as a precondition no draw can meet.
  - An example is a window too low for the hole offset of a pipe; see `ActorPipes.OffsetRangeNonEmpty`.
- **Event polling and frame pacing.** SDL event polling and the per-frame `sleep` are not modelled. The events of one tick are a sequence of `Quit`, `Space` and `Other`.
- **Float detail.**
  - `f32` and `f64` values are exact reals. There is no rounding, no NaN and no infinity.
  - `2π` is 6.2831855, the shortest decimal that denotes the `f32` constant (whose exact value is 6.28318548202514648…); the model uses that decimal as an exact real.
- **Integer widths.** Integers are unbounded.
  - Not modelled: wrap-around or panics of `i32`/`i64` arithmetic, and of the `u32` subtraction `height - hole_size - 50` below zero.
  - Not modelled: `as i32` casts of window sizes beyond `i32::MAX`.
- ActorSub.Sub.GetBoundingBoxes: the box's vertical offset `(sin(angle) * 10) as i32` is a parameter, because the sine is not modelled.
  - It is restricted to [-10, 10].
  - It is 0 at angle 0 and -8 at the game-over angle 180.
  - The same offset in `render` is not modelled.
- **Texture sizes.** Texture sizes from `texture.query()` are parameters. These are the pipe texture's width in `src/main.rs` and the creature texture's width in `src/background.rs`.
  - The actor background's texture list is its length only (one texture).
  - Bubbles keep only a texture index.
- **The first version's pregame bob.** The `f64` angle in `src/main.rs` only positions the drawn sub, so it is not modelled. Neither is the first version's `{:08}` score text.
- **Jumping in the actor game.** The actor-based game's driver is not part of this model. That includes the collision check, the high-score bookkeeping and the key handling that writes the public `velocity` field of the actor sub. In the first version, the jump is modelled (`MainLoop.DrainEvents`).
- **src/pipe.rs is not part of this model.** Its `update` and `render` are `todo!()` stubs.
- **Collision.** No overlap test between hitboxes exists in the code, so none is modelled; only the hitbox constructors are.
- **SDL rectangles.** `Rect::new` clamps sizes to SDL's limits; `Game.Rect` keeps the integers as given.
- **Theme references.** `ThemeSwitcher::next` and `current` return references to the stored palette; the model returns the palette value.
