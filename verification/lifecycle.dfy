/**
 Runs of the engine: sequences of host notifications and looper dispatches,
 applied one after the other to the engine state. The engine's invariant
 holds from construction on, so a draw can only be dispatched while the
 engine is visible, and once the engine is hidden no draw runs until the
 host reports it visible again.
 */
module Lifecycle {
  import opened Tint
  import opened Engine

  /** One thing that can happen to the engine on the main looper. */
  datatype Event =
    | VisibilityChanged(visible: bool)
    | SurfaceDestroyed
    | SurfaceChanged(width: int, height: int)
      /** The looper runs the pending draw runner `post`; the draw sees `lock` and the clock reads `now`. */
    | Dispatch(post: Post, lock: LockResult, now: Clock)

  /** An event can happen: a dispatch needs its entry to be pending, and the clock reads a real time. */
  predicate Enabled(e: WPEngine, ev: Event) {
    ev.Dispatch? ==> ev.post in e.pending && ValidClock(ev.now)
  }

  /** The engine after one event. */
  function Step(e: WPEngine, ev: Event): (r: WPEngine)
    requires Enabled(e, ev)
    ensures Inv(e) ==> Inv(r)
    ensures ev.Dispatch? && Inv(e) ==> e.visible && r.visible && r.pending == multiset{Delayed}
    ensures ev.SurfaceChanged? ==> r.visible == e.visible && r.pending == e.pending
  {
    match ev
    case VisibilityChanged(v) => OnVisibilityChanged(e, v)
    case SurfaceDestroyed => OnSurfaceDestroyed(e)
    case SurfaceChanged(w, h) => OnSurfaceChanged(e, w, h)
    case Dispatch(p, lock, now) => RunPending(e, p, lock, now).engine
  }

  /** Every event of `evs` can happen in turn, starting from `e`. */
  predicate Executable(e: WPEngine, evs: seq<Event>)
    decreases |evs|
  {
    evs == [] || (Enabled(e, evs[0]) && Executable(Step(e, evs[0]), evs[1..]))
  }

  /** The engine after all events of `evs`, in order. */
  function Run(e: WPEngine, evs: seq<Event>): (r: WPEngine)
    requires Executable(e, evs)
    ensures Inv(e) ==> Inv(r)
    decreases |evs|
  {
    if evs == [] then e else Run(Step(e, evs[0]), evs[1..])
  }

  /**
   The engine's invariant holds in every state reached from construction; in
   particular the engine is visible exactly when a draw is pending.
   */
  lemma InvariantFromInit(evs: seq<Event>)
    requires Executable(Init(), evs)
    ensures Inv(Run(Init(), evs))
    ensures Run(Init(), evs).visible <==> |Run(Init(), evs).pending| > 0
  {
  }

  /** Under the invariant a draw can only be dispatched while the engine is visible. */
  lemma NoDispatchWhileHidden(e: WPEngine, ev: Event)
    requires Inv(e) && !e.visible
    ensures ev.Dispatch? ==> !Enabled(e, ev)
  {
  }

  /**
   Once the engine is hidden, no draw is dispatched, and the engine stays
   hidden with nothing pending, for as long as the host does not report it
   visible again.
   */
  lemma {:induction false} HiddenStaysQuiet(e: WPEngine, evs: seq<Event>)
    requires Inv(e) && !e.visible
    requires Executable(e, evs)
    requires forall i :: 0 <= i < |evs| ==> evs[i] != VisibilityChanged(true)
    ensures forall i :: 0 <= i < |evs| ==> !evs[i].Dispatch?
    ensures !Run(e, evs).visible && Run(e, evs).pending == multiset{}
    decreases |evs|
  {
    if evs != [] {
      var next := Step(e, evs[0]);
      assert !evs[0].Dispatch?;
      assert !next.visible;
      HiddenStaysQuiet(next, evs[1..]);
      forall i | 0 <= i < |evs|
        ensures !evs[i].Dispatch?
      {
        if i > 0 {
          assert evs[i] == evs[1..][i - 1];
        }
      }
    }
  }
}
