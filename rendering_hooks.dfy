/** `RenderingHooks`: the mod keeps at most one subscription of its
    `OnBeginCameraRendering` handler on the render pipeline's
    `beginCameraRendering` event, and that handler fans out to the mod's own
    two events, first `PreBeginCameraRendering`, then `BeginCameraRendering`,
    catching and logging whatever they throw. The class's static fields are
    the fields of one `RenderingHooks` object here. */
module RenderingHooks {
  import opened Common
  import opened Events

  /** The delegate `(Il2CppSystem.Action<...>)OnBeginCameraRendering`. */
  const Handler: Delegate := Delegate(0)

  /** What one render callback did: the handlers it called, in order, and
      whether it caught (and logged) an exception. */
  datatype DispatchResult = DispatchResult(called: seq<Delegate>, logged: bool)

  class RenderingHooks {
    /** `RenderPipelineManager.beginCameraRendering`, an engine event that
        other code may subscribe to as well. */
    var pipeline: seq<Delegate>
    var hooked: bool
    var hook: Option<Delegate>
    /** The mod's own events `PreBeginCameraRendering` and
        `BeginCameraRendering`. */
    var preBeginCameraRendering: seq<Delegate>
    var beginCameraRendering: seq<Delegate>

    /** `_hook` is set exactly while hooked, and then the pipeline holds one
        subscription of the handler, otherwise none. */
    ghost predicate Valid()
      reads this
    {
      && hook == (if hooked then Some(Handler) else None)
      && multiset(pipeline)[Handler] == (if hooked then 1 else 0)
    }

    /** The static initial state: unhooked, with the pipeline as the engine
        has it (the handler is private, so nobody else subscribed it). */
    constructor (enginePipeline: seq<Delegate>)
      requires Handler !in enginePipeline
      ensures Valid() && !hooked
      ensures pipeline == enginePipeline
      ensures preBeginCameraRendering == [] && beginCameraRendering == []
    {
      pipeline := enginePipeline;
      hooked := false;
      hook := None;
      preBeginCameraRendering := [];
      beginCameraRendering := [];
    }

    method HookRenderPipeline()
      requires Valid()
      modifies this`pipeline, this`hooked, this`hook
      ensures Valid() && hooked && hook == Some(Handler)
      ensures multiset(pipeline)[Handler] == 1
      ensures pipeline == Subscribe(if old(hooked) then Unsubscribe(old(pipeline), Handler) else old(pipeline), Handler)
    {
      UnHookRenderPipeline();
      hook := Some(Handler);
      pipeline := Subscribe(pipeline, Handler);
      hooked := true;
    }

    method UnHookRenderPipeline()
      requires Valid()
      modifies this`pipeline, this`hooked, this`hook
      ensures Valid() && !hooked && hook == None
      ensures multiset(pipeline)[Handler] == 0
      ensures !old(hooked) ==> pipeline == old(pipeline)
      ensures old(hooked) ==> pipeline == Unsubscribe(old(pipeline), Handler)
    {
      if hooked {
        pipeline := Unsubscribe(pipeline, Handler);
        hooked := false;
        hook := None;
      }
    }

    /** `OnBeginCameraRendering` for one camera, with handlers that behave as
        `throws` says. Every handler of `PreBeginCameraRendering` runs before
        any of `BeginCameraRendering`; an exception stops the fan-out, is
        logged and goes no further, so no `BeginCameraRendering` handler runs
        once a `PreBeginCameraRendering` handler has thrown. */
    function OnBeginCameraRendering(throws: Delegate -> bool): (r: DispatchResult)
      reads this
      ensures r.called <= preBeginCameraRendering + beginCameraRendering
      ensures r.logged <==> exists d :: d in preBeginCameraRendering + beginCameraRendering && throws(d)
      ensures !r.logged ==> r.called == preBeginCameraRendering + beginCameraRendering
      ensures r.logged ==> r.called != [] && throws(r.called[|r.called| - 1])
      ensures (exists d :: d in preBeginCameraRendering && throws(d)) ==> r.called <= preBeginCameraRendering
    {
      var pre := Invoke(preBeginCameraRendering, throws);
      InvokeStopsAtFirstThrow(preBeginCameraRendering, throws);
      if pre.threw then DispatchResult(pre.called, true)
      else
        var begin := Invoke(beginCameraRendering, throws);
        InvokeStopsAtFirstThrow(beginCameraRendering, throws);
        InvokeSequential(preBeginCameraRendering, beginCameraRendering, throws);
        DispatchResult(preBeginCameraRendering + begin.called, begin.threw)
    }
  }

  /** Hooking twice in a row leaves the pipeline as one hook does: the
      second call takes the subscription out and puts it back at the end. */
  lemma HookIsIdempotent(pipeline: seq<Delegate>)
    ensures Subscribe(Unsubscribe(Subscribe(pipeline, Handler), Handler), Handler) == Subscribe(pipeline, Handler)
  {
    SubscribeUnsubscribe(pipeline, Handler);
  }

  /** Hook followed by unhook, from the unhooked state, gives the pipeline
      back exactly as it was, with no subscription left. */
  method HookThenUnhook(hooks: RenderingHooks)
    requires hooks.Valid() && !hooks.hooked
    modifies hooks
    ensures hooks.Valid() && !hooks.hooked && hooks.hook == None
    ensures hooks.pipeline == old(hooks.pipeline)
    ensures multiset(hooks.pipeline)[Handler] == 0
  {
    hooks.HookRenderPipeline();
    hooks.UnHookRenderPipeline();
    SubscribeUnsubscribe(old(hooks.pipeline), Handler);
  }
}
