/**
 The wallpaper engine's state and its reactions to the host: visibility
 changes, surface destruction and resizing, and the draw runner itself.

 The engine owns a handler on the main looper to which it posts its draw
 runner, either at once (`post`) or after the redraw delay (`postDelayed`).
 The model keeps only what is pending in that handler: a multiset of posts,
 each tagged with its delay. Elapsed time and the order in which the looper
 dispatches are not modelled.
 */
module Engine {
  import opened Tint

  /** Delay between two periodic redraws, in milliseconds. */
  const RedrawDelay: int := 1000 * 60

  /** One pending post of the draw runner, tagged with the delay it was posted with. */
  datatype Post = Post(delay: int)

  /** A post made with `post`: run as soon as possible. */
  const Immediate: Post := Post(0)

  /** A post made with `postDelayed(drawRunner, redrawDelay)`. */
  const Delayed: Post := Post(RedrawDelay)

  /** The state of the source class `WPEngine`: its mutable fields and the handler's pending draw runners. */
  datatype WPEngine = WPEngine(visible: bool, width: int, height: int, pending: multiset<Post>)

  /** A canvas handed out by the surface holder. */
  datatype Canvas = Canvas(width: int, height: int)

  /** What `lockCanvas` returned: a canvas, or null when the surface is not ready. */
  datatype LockResult = NoCanvas | Locked(canvas: Canvas)

  /** What a draw does to the surface, in order. */
  datatype Effect =
    | Composite(scaledWidth: int, scaledHeight: int, filter: Filter)
    | UnlockAndPost(canvas: Canvas)

  /** The engine after a draw and what the draw did to the surface. */
  datatype DrawOutcome = DrawOutcome(engine: WPEngine, effects: seq<Effect>)

  /**
   The engine's invariant: a hidden engine has nothing pending and a visible
   one has at least one draw pending; every pending entry was posted either
   at once or with the redraw delay; and at most one delayed entry is pending.
   Immediate entries may pile up.
   */
  ghost predicate Inv(e: WPEngine) {
    && (!e.visible ==> e.pending == multiset{})
    && (e.visible ==> |e.pending| > 0)
    && (forall p :: p in e.pending ==> p == Immediate || p == Delayed)
    && e.pending[Delayed] <= 1
  }

  /** A fresh engine: visible, no geometry yet, and one immediate draw posted. */
  function Init(): (e: WPEngine)
    ensures Inv(e)
    ensures e.visible && e.width == 0 && e.height == 0
    ensures |e.pending| == 1 && e.pending[Immediate] == 1
  {
    WPEngine(true, 0, 0, multiset{Immediate})
  }

  /**
   The host reports visibility. Becoming visible adds one immediate draw
   without cancelling what is already pending; becoming hidden cancels every
   pending draw.
   */
  function OnVisibilityChanged(e: WPEngine, visible: bool): (r: WPEngine)
    ensures r.visible == visible
    ensures r.width == e.width && r.height == e.height
    ensures visible ==> |r.pending| == |e.pending| + 1 && r.pending[Immediate] == e.pending[Immediate] + 1
    ensures visible ==> forall p :: p in e.pending ==> r.pending[p] >= e.pending[p]
    ensures !visible ==> |r.pending| == 0
    ensures Inv(e) ==> Inv(r)
  {
    if visible then e.(visible := true, pending := e.pending + multiset{Immediate})
    else e.(visible := false, pending := multiset{})
  }

  /** The surface goes away: the engine counts as hidden and every pending draw is cancelled. */
  function OnSurfaceDestroyed(e: WPEngine): (r: WPEngine)
    ensures !r.visible && |r.pending| == 0
    ensures r.width == e.width && r.height == e.height
    ensures Inv(r)
  {
    e.(visible := false, pending := multiset{})
  }

  /** The surface is resized: the new geometry is recorded and nothing else changes. */
  function OnSurfaceChanged(e: WPEngine, width: int, height: int): (r: WPEngine)
    ensures r.width == width && r.height == height
    ensures r.visible == e.visible && r.pending == e.pending
    ensures Inv(e) ==> Inv(r)
  {
    e.(width := width, height := height)
  }

  /** The number of composites among some effects. */
  function Composites(effects: seq<Effect>): nat {
    if effects == [] then 0
    else (if effects[0].Composite? then 1 else 0) + Composites(effects[1..])
  }

  /** The number of unlocks among some effects. */
  function Unlocks(effects: seq<Effect>): nat {
    if effects == [] then 0
    else (if effects[0].UnlockAndPost? then 1 else 0) + Unlocks(effects[1..])
  }

  /**
   What a draw does to the surface. With a canvas, the source image is scaled
   to the canvas's own size and composited with the current filter, and the
   canvas is then unlocked and posted; with no canvas nothing touches the
   surface.
   */
  function SurfaceEffects(lock: LockResult, now: Clock): (effects: seq<Effect>)
    requires ValidClock(now)
    ensures lock.NoCanvas? ==> effects == []
    ensures Composites(effects) == (if lock.Locked? then 1 else 0)
    ensures Unlocks(effects) == (if lock.Locked? then 1 else 0)
    ensures forall i :: 0 <= i < |effects| && effects[i].Composite? ==>
              lock.Locked? &&
              effects[i].scaledWidth == lock.canvas.width &&
              effects[i].scaledHeight == lock.canvas.height &&
              effects[i].filter == CurrentFilter(now) &&
              effects[i].filter.color.hue * 4.0 == (now.hour * 60 + now.minute) as real
    ensures lock.Locked? ==> |effects| > 0 && effects[|effects| - 1] == UnlockAndPost(lock.canvas)
  {
    match lock
    case NoCanvas => []
    case Locked(canvas) =>
      var filter := CurrentFilter(now);
      var unlock := [UnlockAndPost(canvas)];
      var effects := [Composite(canvas.width, canvas.height, filter)] + unlock;
      assert effects[1..] == unlock && unlock[1..] == [];
      assert Composites(unlock) == 0 && Unlocks(unlock) == 1;
      effects
  }

  /**
   The draw runner's body, run on an engine whose dispatched entry has
   already left the queue: the surface effects, then every pending draw is
   cancelled and, if the engine is visible, one delayed draw is posted.
   */
  function Draw(e: WPEngine, lock: LockResult, now: Clock): (r: DrawOutcome)
    requires ValidClock(now)
    ensures r.engine.visible == e.visible && r.engine.width == e.width && r.engine.height == e.height
    ensures e.visible ==> r.engine.pending == multiset{Delayed}
    ensures !e.visible ==> r.engine.pending == multiset{}
    ensures lock.NoCanvas? ==> r.effects == []
    ensures Composites(r.effects) == (if lock.Locked? then 1 else 0)
    ensures Unlocks(r.effects) == (if lock.Locked? then 1 else 0)
    ensures forall i :: 0 <= i < |r.effects| && r.effects[i].Composite? ==>
              lock.Locked? &&
              r.effects[i].scaledWidth == lock.canvas.width &&
              r.effects[i].scaledHeight == lock.canvas.height
    ensures r.effects == SurfaceEffects(lock, now)
    ensures Inv(r.engine)
  {
    var rescheduled := if e.visible then multiset{Delayed} else multiset{};
    DrawOutcome(e.(pending := rescheduled), SurfaceEffects(lock, now))
  }

  /**
   The looper dispatches one pending draw runner: that entry leaves the
   queue and the draw runs.
   */
  function RunPending(e: WPEngine, post: Post, lock: LockResult, now: Clock): (r: DrawOutcome)
    requires post in e.pending
    requires ValidClock(now)
    ensures Inv(e) ==> e.visible
    ensures r.engine.visible == e.visible
    ensures r.engine.pending == (if e.visible then multiset{Delayed} else multiset{})
    ensures Inv(r.engine)
  {
    Draw(e.(pending := e.pending - multiset{post}), lock, now)
  }

  /** Whether a draw gets a canvas or not, it leaves the engine in the same state. */
  lemma RescheduleIgnoresLock(e: WPEngine, lock1: LockResult, lock2: LockResult, now1: Clock, now2: Clock)
    requires ValidClock(now1) && ValidClock(now2)
    ensures Draw(e, lock1, now1).engine == Draw(e, lock2, now2).engine
  {
  }

  /** What a draw composites does not depend on the geometry recorded by `OnSurfaceChanged`. */
  lemma CompositeIgnoresRecordedGeometry(e: WPEngine, width: int, height: int, lock: LockResult, now: Clock)
    requires ValidClock(now)
    ensures Draw(OnSurfaceChanged(e, width, height), lock, now).effects == Draw(e, lock, now).effects
  {
  }

  /** Each `OnVisibilityChanged(true)` adds one more immediate draw to what is already pending. */
  lemma ImmediateDrawsPileUp()
    ensures OnVisibilityChanged(OnVisibilityChanged(Init(), true), true).pending[Immediate] == 3
  {
  }
}
