# game-framework kinematics core, in Dafny

This project models the simulation core of a prototype multiplayer browser
game (omgimanerd/game-framework):

- the numeric helpers the server and client share (`shared/Util.js`): sign,
  linear scaling, summation, Manhattan and squared Euclidean distance, the
  inclusive range test and clamping;
- the two kinematic entities (`lib/Entity2D.js`, `lib/Entity3D.js`): mutable
  position, velocity and acceleration vectors with orientation, mass and
  hitbox; `applyForce`, the explicit-Euler `update` step and the hitbox
  collision test;
- the server-side `Player` (`lib/Player.js`): an Entity2D with a socket id,
  whose velocity is set from the four direction keys;
- the client's `ViewPort` (`public/js/game/ViewPort.js`): the translations
  between world and canvas coordinates for the 800 by 600 canvas;
- the client's `Input` state (`public/js/game/Input.js`): direction flags,
  other keys, mouse-button flags and mouse position, updated by the event
  handlers.

Numbers are Dafny `real`s. Objects whose fields the source updates in place
are classes:

- `Entity2D` and `Entity3D` hold their vectors in `array<real>`s.
- `Player` holds an `Entity2D`.
- `ViewPort` and `Input` hold plain fields, with `miscKeys` as a `map`.

The methods whose effect depends on a rule of the program are proved
against a function on values:

- `Kinematics.Pushed` specifies `applyForce`.
- `Entities2D.Stepped` and `Entities3D.Stepped` specify `update`.
- `Players.InputVelocity` specifies `updateOnInput`.
- `Inputs.WithKey`, `PressedClicks` and `ReleasedClicks` specify the key and
  button handlers.

The properties are proved about these functions. The other state changes
only store values, and their contracts state the new fields directly:

- the constructors;
- `ViewPort.setCenter`;
- `Input.onMouseMove`.

Modules, one per source file plus two shared ones:

| file | module | models |
|---|---|---|
| wrappers.dfy | Wrappers | Option, Result, the errors thrown, JavaScript `||` on numbers |
| util.dfy | Util | shared/Util.js |
| kinematics.dfy | Kinematics | the body state and the two state changes shared by both entities |
| entity2d.dfy | Entities2D | lib/Entity2D.js |
| entity3d.dfy | Entities3D | lib/Entity3D.js |
| player.dfy | Players | lib/Player.js |
| viewport.dfy | ViewPorts | public/js/game/ViewPort.js |
| input.dfy | Inputs | public/js/game/Input.js |

Notes on the code's behaviour:

- The code accepts a negative mass. Only a mass of 0 or an omitted mass
  becomes 1, so the model guarantees a non-zero mass, not a positive one.
- Entity3D's collision test is strict, so touching spheres do not collide.
- Entity3D's clock step is in milliseconds, while Entity2D's is in seconds.
- The first update without an explicit step moves nothing, in both entities.

## Model

| member | source | states |
|---|---|---|
| Util.GetSign | shared/Util.js:76-83 | the result is 1 exactly for positive input, -1 exactly for negative input, 0 exactly for zero; sign times value is the absolute value |
| Util.LinearScale | shared/Util.js:86-96 | defined whenever a1 != a2; the affine map with (r − b1)(a2 − a1) = (x − a1)(b2 − b1), so a1 maps to b1 and a2 to b2 |
| Util.LinearScaleInverse | shared/Util.js:94-96 | scaling back from b1..b2 to a1..a2 returns the original value (needs b1 != b2 as well) |
| Util.ReduceIsTotal | shared/Util.js:103-105 | the left fold of `reduce` equals the accumulator plus the reference sum |
| Util.Sum | shared/Util.js:103-105 | an empty array throws (reduce with no initial value); any other array sums to the reference total |
| Util.TotalOfNonNegatives | shared/Util.js:113-135 | a sum of non-negative terms is non-negative, and zero exactly when every term is zero |
| Util.ManhattanDistance | shared/Util.js:113-120 | points of different lengths throw the distance error; two empty points throw from the empty sum; otherwise the sum of the absolute differences per axis, non-negative and zero exactly when the points are equal |
| Util.EuclideanDistance2 | shared/Util.js:128-135 | same error cases; otherwise the sum of squared differences per axis, non-negative and zero exactly when the points are equal |
| Util.DistancesSymmetric | shared/Util.js:113-135 | both distances, errors included, are unchanged when the two points are swapped |
| Util.EuclideanDistance2Plane | shared/Util.js:128-135 | for two points of the plane the squared distance is dx² + dy² |
| Util.EuclideanDistance2Space | shared/Util.js:128-135 | for two points of space the squared distance is dx² + dy² + dz² |
| Util.InBound | shared/Util.js:156-161 | true exactly when the value lies in the closed range between the smaller and the larger bound |
| Util.InBoundSwapped | shared/Util.js:156-161 | the range test does not depend on the order of the bounds |
| Util.Bound | shared/Util.js:171-176 | the result is always in range; a value already in range is returned unchanged; a value below or above becomes the nearer bound |
| Util.BoundIdempotent | shared/Util.js:171-176 | clamping twice equals clamping once, and swapping the bounds gives the same result |
| Kinematics.Pushed | lib/Entity2D.js:40-44 | each acceleration component gains force/mass; every other field is unchanged |
| Kinematics.Advanced | lib/Entity2D.js:72-77 | position advances by the old velocity times the step and velocity by the old acceleration times the step; acceleration becomes zero; the step and the time are recorded; orientation, mass and hitbox are kept |
| Kinematics.ZeroStepKeepsMotion | lib/Entity2D.js:72-76 | a step of length zero leaves position and velocity unchanged |
| Kinematics.ForceThenStep | lib/Entity2D.js:40-76 | a force on a body with zero acceleration, then a step dt: velocity changes by force/mass·dt, position by velocity·dt, and acceleration is zero again |
| Entities2D.Stepped | lib/Entity2D.js:63-78 | a truthy explicit step is used; otherwise the first update (last update time 0) has step 0 and leaves position and velocity unchanged, and later ones step (now − last)/1000 seconds; per-axis Euler update, acceleration zero, last update time := now |
| Entities2D.Entity2D.constructor | lib/Entity2D.js:20-34 | omitted vectors are zero 2-vectors; omitted or zero orientation, mass, hitbox become 0, 1, 0, so mass is never zero; timing fields start at 0 |
| Entities2D.Entity2D.ApplyForce | lib/Entity2D.js:40-44 | the new state is Pushed(old state, force): only the acceleration changes |
| Entities2D.Entity2D.Update | lib/Entity2D.js:63-78 | the new state is Stepped(old state, deltaTime, currentTime) |
| Entities2D.Entity2D.IsCollidedWith | lib/Entity2D.js:52-56 | true exactly when the squared centre distance is at most the squared sum of the radii (touching collides), reading `position` |
| Entities2D.Entity2D.IsCollidedWithAsWritten | lib/Entity2D.js:52-56 | as written, reading the unassigned `_position` throws for every pair of entities |
| Entities2D.CollisionSymmetric | lib/Entity2D.js:52-56 | a.isCollidedWith(b) == b.isCollidedWith(a) |
| Entities2D.CoincidentEntitiesCollide | lib/Entity2D.js:52-56 | two entities at the same position collide, while the test as written throws for them |
| Entities3D.Stepped | lib/Entity3D.js:63-78 | as Entities2D.Stepped with three axes, but a later clock step is now − last, in milliseconds |
| Entities3D.Entity3D.constructor | lib/Entity3D.js:20-34 | omitted vectors are zero 3-vectors; orientation 0, mass 1 (also for 0), hitbox 0; timing fields 0 |
| Entities3D.Entity3D.ApplyForce | lib/Entity3D.js:40-44 | the new state is Pushed(old state, force) on all three axes |
| Entities3D.Entity3D.Update | lib/Entity3D.js:63-78 | the new state is Entities3D.Stepped(old state, deltaTime, currentTime) |
| Entities3D.Entity3D.IsCollidedWith | lib/Entity3D.js:52-56 | true exactly when the squared centre distance is strictly below the squared sum of the radii (touching does not collide) |
| Entities3D.Entity3D.IsCollidedWithAsWritten | lib/Entity3D.js:52-56 | as written, reading the unassigned `_position` throws for every pair of entities |
| Entities3D.CollisionSymmetric | lib/Entity3D.js:52-56 | the 3D collision test is symmetric |
| Entities3D.CoincidentEntitiesCollide | lib/Entity3D.js:52-56 | two entities at the same position whose radii do not sum to 0 collide, while the test as written throws |
| Players.InputVelocity | lib/Player.js:36-39 | vx is +100 exactly when only right is held, −100 exactly when only left is, 0 when both or neither are; likewise vy with down/up |
| Players.Player.constructor | lib/Player.js:15-30 | stores the id; position (10, 10), zero velocity and acceleration, orientation 0, mass 1, hitbox 10, never updated |
| Players.Player.UpdateOnInput | lib/Player.js:36-39 | velocity becomes InputVelocity(keys), independent of the old state, so a repeated input changes nothing; position, acceleration, timing, mass, hitbox and id are unchanged |
| Players.Player.Update | lib/Player.js:45-47 | the Entity2D step with no explicit deltaTime: the new state is Stepped(old state, none, currentTime) |
| ViewPorts.ViewPort.constructor | public/js/game/ViewPort.js:16-18 | the centre is the one given, or (0, 0) when none is |
| ViewPorts.ViewPort.SetCenter | public/js/game/ViewPort.js:33-35 | the centre becomes the argument and nothing else changes |
| ViewPorts.ViewPort.ToCanvasCoords | public/js/game/ViewPort.js:45-50 | a translation by (400 − cx, 300 − cy); the centre maps to the canvas midpoint (400, 300) |
| ViewPorts.ViewPort.ToAbsoluteCoords | public/js/game/ViewPort.js:57-62 | the translation by (cx − 400, cy − 300); the canvas midpoint maps to the centre |
| ViewPorts.CoordsRoundTrip | public/js/game/ViewPort.js:45-62 | toAbsoluteCoords(toCanvasCoords(p)) == p and toCanvasCoords(toAbsoluteCoords(p)) == p |
| ViewPorts.CoordsKeepDifferences | public/js/game/ViewPort.js:45-62 | both conversions preserve the difference between two points |
| Inputs.KeyOf | public/js/game/Input.js:101-122 | 37/65 is left, 38/87 up, 39/68 right, 40/83 down (each in both directions of the iff); every other code is a misc key carrying that code |
| Inputs.WithKey | public/js/game/Input.js:101-152 | the entry the key code stands for holds the new value, and every entry another key stands for is unchanged; a misc key updates only its own `miscKeys` entry, and a direction key leaves `miscKeys` untouched |
| Inputs.PressThenRelease | public/js/game/Input.js:101-152 | key-down then key-up of a code equals key-up alone; the code's entry ends false |
| Inputs.PressedClicks | public/js/game/Input.js:70-73 | leftClick iff button 1, rightClick iff button 3; never both |
| Inputs.ReleasedClicks | public/js/game/Input.js:80-83 | leftClick iff button != 1, rightClick iff button != 3; at least one is always set, so releasing the left button sets rightClick |
| Inputs.Input.constructor | public/js/game/Input.js:14-26 | all direction and click flags false, no misc key, mouse at (0, 0) |
| Inputs.Input.OnMouseDown | public/js/game/Input.js:70-73 | the click flags become PressedClicks(button); nothing else changes |
| Inputs.Input.OnMouseUp | public/js/game/Input.js:80-83 | the click flags become ReleasedClicks(button); nothing else changes |
| Inputs.Input.OnMouseMove | public/js/game/Input.js:90-94 | the mouse position becomes the page position minus the element's top-left corner; nothing else changes |
| Inputs.Input.OnKeyDown | public/js/game/Input.js:101-123 | the key state becomes WithKey(old, code, true); the mouse fields are unchanged |
| Inputs.Input.OnKeyUp | public/js/game/Input.js:130-152 | the key state becomes WithKey(old, code, false); the mouse fields are unchanged |

## Findings

| source | as written | input that shows it | evidently intended | confidence | as-written member | corrected member |
|---|---|---|---|---|---|---|
| lib/Entity2D.js:52-56 | the first point passed to `getEuclideanDistance2` is `this._position`, which nothing assigns, so reading its `length` throws | any two entities, e.g. two players at (10, 10) | compare `this.position` with `other.position` | high (not executed) | Entities2D.Entity2D.IsCollidedWithAsWritten, Entities2D.CoincidentEntitiesCollide | Entities2D.Entity2D.IsCollidedWith |
| lib/Entity3D.js:52-56 | the same read of the unassigned `this._position` | any two entities, e.g. two at the origin with hitbox 1 | compare `this.position` with `other.position` | high (not executed) | Entities3D.Entity3D.IsCollidedWithAsWritten, Entities3D.CoincidentEntitiesCollide | Entities3D.Entity3D.IsCollidedWith |

## Left out

- Floating point: every number is an exact real. There is no rounding, overflow to Infinity, or NaN. Examples are `Number(undefined)` for a missing key flag, and arithmetic on a vector component that is missing.
- The wall clock (`new Date().getTime()`) is the `currentTime` parameter of `Update`.
- Util.LinearScale: requires `a1 != a2`. For `a1 == a2` the source divides by zero and returns Infinity or NaN, which the real-number model cannot represent.
- `randRange`, `randRangeInt` and `choiceArray` are left out because they draw on `Math.random`.
- `getEuclideanDistance` is left out because it needs `Math.sqrt`. Only the squared distance is modelled.
- `splitProperties`, `extend` and `bind` rewrite properties and prototypes at run time, so they are left out. The accessors `x`, `vx`, … are the vector components 0, 1 and 2.
- Entities2D.Entity2D.constructor: the vectors it is given must have the entity's arity. The model copies them into fresh arrays, so aliasing between the caller's array and the entity's is not modelled.
- Entities3D.Entity3D.constructor: as for Entity2D, with three components.
- Entities2D.Entity2D.ApplyForce: the force must have two components. Entities3D.Entity3D.ApplyForce needs three.
- The entity fields are assumed not to be reassigned from outside the class. In particular, the mass stays non-zero.
- Players.Player.constructor: `Player.create` is the same as the constructor and is not a separate member.
- A Player also inherits `applyForce` and `isCollidedWith`, but they are unreachable through the broken prototype chain, so they are not modelled.
- ViewPorts.ViewPort.SetCenter: the centre is held as a value with two components, so aliasing with the caller's array is not modelled.
- Input: the DOM element, `Input.create`, `applyEventHandlers` and `removeEventHandlers` are left out.
- Inputs.Input.OnMouseMove: `getBoundingClientRect` is replaced by the element's left and top, passed in as parameters.
- lib/Entity2d.js is not part of this model. It is an older version that references undefined names.
- lib/Game.js is not part of this model. It does not parse, and its registry is never populated.
- server.js is not part of this model. It is HTTP, socket and timer wiring.
- The client UI is not part of this model: drawing, sound, lobby, `Game.js`, `index.js`, `game.js`, `client.js` and `Button.js`.
- BUILD.js is not part of this model.
- shared/Constants.js contributes only the canvas size, as the constants `CANVAS_WIDTH` and `CANVAS_HEIGHT`.
