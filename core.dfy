/** The core's process-wide state and its lifecycle: the host registers
    callbacks, retro_init acquires the backend's window, renderer and
    streaming texture, retro_run draws and hands over one frame, and
    retro_deinit gives everything back. */
module LibretroCore {
  import opened Pixels
  import opened Trace
  import opened Stubs

  /** The globals the lifecycle changes: three backend handles and the
      C `int` flag `running`. */
  datatype Resources = Resources(window: Handle, renderer: Handle, texture: Handle, running: int)

  /** The six registered host callbacks. */
  datatype Callbacks = Callbacks(environ: Callback, video: Callback, audio: Callback,
                                 audioBatch: Callback, inputPoll: Callback, inputState: Callback)

  /** The state at load time: every handle null, not running. */
  const Unloaded := Resources(Null, Null, Null, 0)

  /** What the backend answers during one retro_init: whether SDL_Init
      succeeds and the handle each creation step returns (Null on failure).
      A step after the first failure is never reached. */
  datatype InitOutcome = InitOutcome(videoOk: bool, window: Handle, renderer: Handle, texture: Handle)

  predicate InitSucceeded(o: InitOutcome)
  {
    o.videoOk && o.window != Null && o.renderer != Null && o.texture != Null
  }

  /** What SDL_LockTexture answers: failure, or the row pitch in bytes of
      the buffer it hands out. */
  datatype LockResult = LockFailed | Locked(pitch: int)

  /** The globals after retro_init. A failed creation step stores its Null
      result; the handles of earlier steps are destroyed but keep their
      (now dangling) values. */
  function AfterInit(s: Resources, o: InitOutcome): (s': Resources)
    ensures s'.running == if InitSucceeded(o) then 1 else s.running
    ensures !o.videoOk ==> s' == s
    ensures o.videoOk ==> s'.window == o.window
    ensures InitSucceeded(o) ==> s' == Resources(o.window, o.renderer, o.texture, 1)
  {
    if !o.videoOk then s
    else if o.window == Null then s.(window := Null)
    else if o.renderer == Null then s.(window := o.window, renderer := Null)
    else if o.texture == Null then s.(window := o.window, renderer := o.renderer, texture := Null)
    else Resources(o.window, o.renderer, o.texture, 1)
  }

  /** The backend calls retro_init makes: acquisition in the order video
      subsystem, window, renderer, texture, each creation step given the
      handle of the step before; on a failure, destruction of what the
      earlier steps acquired, last first, and SDL_Quit. */
  function InitCalls(o: InitOutcome): (calls: seq<Event>)
    ensures |calls| >= 1 && calls[0] == VideoInit(o.videoOk)
  {
    [VideoInit(o.videoOk)] + if !o.videoOk then [] else WindowStepCalls(o)
  }

  /** retro_init from SDL_CreateWindow on. */
  function WindowStepCalls(o: InitOutcome): (calls: seq<Event>)
    ensures |calls| >= 2 && calls[0] == CreateWindow(o.window)
  {
    [CreateWindow(o.window)] +
    if o.window == Null then [VideoQuit]
    else RendererStepCalls(o)
  }

  /** retro_init from SDL_CreateRenderer on. */
  function RendererStepCalls(o: InitOutcome): (calls: seq<Event>)
    ensures |calls| >= 2 && calls[0] == CreateRenderer(o.window, o.renderer)
  {
    [CreateRenderer(o.window, o.renderer)] +
    if o.renderer == Null then [DestroyWindow(o.window)] + [VideoQuit]
    else TextureStepCalls(o)
  }

  /** retro_init from SDL_CreateTexture on. */
  function TextureStepCalls(o: InitOutcome): (calls: seq<Event>)
    ensures |calls| >= 1 && calls[0] == CreateTexture(o.renderer, o.texture)
  {
    [CreateTexture(o.renderer, o.texture)] +
    if o.texture == Null then [DestroyRenderer(o.renderer)] + ([DestroyWindow(o.window)] + [VideoQuit])
    else []
  }

  /** The backend resources the globals refer to, in acquisition order. */
  function Held(s: Resources): seq<Resource>
  {
    HeldAs(s.window, WindowRes(s.window))
    + (HeldAs(s.renderer, RendererRes(s.renderer)) + HeldAs(s.texture, TextureRes(s.texture)))
  }

  /** The globals after retro_deinit. */
  function AfterDeinit(s: Resources): (s': Resources)
    ensures Held(s') == [] && s'.running == 0
  {
    Unloaded
  }

  /** The backend calls retro_deinit makes: a destroy for each non-null
      handle (texture, renderer, window), then SDL_Quit. */
  function DeinitCalls(s: Resources): (calls: seq<Event>)
    ensures |calls| == |Held(s)| + 1
  {
    DestroyIfSet(s.texture, DestroyTexture(s.texture),
      DestroyIfSet(s.renderer, DestroyRenderer(s.renderer),
        DestroyIfSet(s.window, DestroyWindow(s.window),
          [VideoQuit])))
  }

  /** `destroy` followed by `rest` when `h` is not null, else just `rest`. */
  function DestroyIfSet(h: Handle, destroy: Event, rest: seq<Event>): seq<Event>
  {
    if h != Null then [destroy] + rest else rest
  }

  /** The calls retro_run makes, given the buffer's contents before the frame.
      The lock records the buffer as handed out and the unlock the buffer as
      given back, so both loop nests lie between the two. */
  function RunCalls(s: Resources, cbs: Callbacks, lock: LockResult, before: seq<Word>): (calls: seq<Event>)
    requires s.running != 0 && lock.Locked? ==> FrameFits(lock.pitch, |before|)
    ensures s.running == 0 ==> calls == []
    ensures lock.LockFailed? ==> HostCalls(calls) == [] && forall e | e in calls :: !e.UnlockTexture?
  {
    if s.running == 0 then []
    else match lock
      case LockFailed => [LockTexture(s.texture, false, [])]
      case Locked(pitch) =>
        [LockTexture(s.texture, true, before)] + ([UnlockTexture(s.texture, Rendered(before, Stride(pitch)))] +
        ([VideoRefresh(cbs.video, Rendered(before, Stride(pitch)), Width, Height, pitch)] +
        ([InputPoll(cbs.inputPoll)] + [AudioSampleBatch(cbs.audioBatch, 0)])))
  }

  /** The two requests retro_set_environment makes through `cb`. */
  function EnvironmentCalls(cb: Callback): (calls: seq<Event>)
    ensures |calls| == 2 && forall e | e in calls :: e.IsHostCall() && e.Environment? && e.env == cb
  {
    [Environment(cb, SetSupportNoGame(true)), Environment(cb, SetPixelFormat(XRGB8888))]
  }

  /** The core's globals. `trace` records every call the core makes into the
      backend or the host, oldest first. */
  class Core {
    var environCb: Callback
    var videoCb: Callback
    var audioCb: Callback
    var audioBatchCb: Callback
    var inputPollCb: Callback
    var inputStateCb: Callback

    var window: Handle
    var renderer: Handle
    var screenTexture: Handle
    var running: int

    ghost var trace: seq<Event>

    function State(): Resources
      reads this
    {
      Resources(window, renderer, screenTexture, running)
    }

    function Registered(): Callbacks
      reads this
    {
      Callbacks(environCb, videoCb, audioCb, audioBatchCb, inputPollCb, inputStateCb)
    }

    /** The core as loaded: nothing registered, nothing acquired. */
    constructor ()
      ensures State() == Unloaded
      ensures Registered() == Callbacks(Unset, Unset, Unset, Unset, Unset, Unset)
      ensures trace == []
    {
      environCb, videoCb, audioCb := Unset, Unset, Unset;
      audioBatchCb, inputPollCb, inputStateCb := Unset, Unset, Unset;
      window, renderer, screenTexture, running := Null, Null, Null, 0;
      trace := [];
    }

    /** retro_init: each acquisition step may fail; a failure rolls back
        what came before it and returns with `running` as it was. */
    method Init(o: InitOutcome)
      modifies this
      ensures State() == AfterInit(old(State()), o)
      ensures Registered() == old(Registered())
      ensures trace == old(trace) + InitCalls(o)
    {
      trace := trace + [VideoInit(o.videoOk)];
      if !o.videoOk {
        assert InitCalls(o) == [VideoInit(false)];
        return;
      }

      window := o.window;
      trace := trace + [CreateWindow(window)];
      if window == Null {
        trace := trace + [VideoQuit];
        assert InitCalls(o) == [VideoInit(true), CreateWindow(Null), VideoQuit];
        return;
      }

      renderer := o.renderer;
      trace := trace + [CreateRenderer(window, renderer)];
      if renderer == Null {
        trace := trace + [DestroyWindow(window), VideoQuit];
        assert InitCalls(o) == [VideoInit(true), CreateWindow(window), CreateRenderer(window, Null),
                                DestroyWindow(window), VideoQuit];
        return;
      }

      screenTexture := o.texture;
      trace := trace + [CreateTexture(renderer, screenTexture)];
      if screenTexture == Null {
        trace := trace + [DestroyRenderer(renderer), DestroyWindow(window), VideoQuit];
        assert InitCalls(o) == [VideoInit(true), CreateWindow(window), CreateRenderer(window, renderer),
                                CreateTexture(renderer, Null), DestroyRenderer(renderer), DestroyWindow(window),
                                VideoQuit];
        return;
      }

      assert InitCalls(o) == [VideoInit(true), CreateWindow(window), CreateRenderer(window, renderer),
                              CreateTexture(renderer, screenTexture)];
      running := 1;
    }

    /** retro_deinit: destroy whatever the handles still name, null them
        all and stop running; callable at any time. */
    method Deinit()
      modifies this
      ensures State() == AfterDeinit(old(State()))
      ensures Registered() == old(Registered())
      ensures trace == old(trace) + DeinitCalls(old(State()))
    {
      if screenTexture != Null {
        trace := trace + [DestroyTexture(screenTexture)];
      }
      if renderer != Null {
        trace := trace + [DestroyRenderer(renderer)];
      }
      if window != Null {
        trace := trace + [DestroyWindow(window)];
      }
      screenTexture := Null;
      renderer := Null;
      window := Null;
      trace := trace + [VideoQuit];
      running := 0;
    }

    /** retro_set_environment: store `cb`, then declare through it that the
        core runs without content and draws XRGB8888 pixels. */
    method SetEnvironment(cb: Callback)
      modifies this
      ensures Registered() == old(Registered()).(environ := cb)
      ensures State() == old(State())
      ensures trace == old(trace) + EnvironmentCalls(cb)
    {
      environCb := cb;
      trace := trace + [Environment(environCb, SetSupportNoGame(true))];
      trace := trace + [Environment(environCb, SetPixelFormat(XRGB8888))];
    }

    method SetVideoRefresh(cb: Callback)
      modifies this
      ensures Registered() == old(Registered()).(video := cb)
      ensures State() == old(State()) && trace == old(trace)
    {
      videoCb := cb;
    }

    method SetAudioSample(cb: Callback)
      modifies this
      ensures Registered() == old(Registered()).(audio := cb)
      ensures State() == old(State()) && trace == old(trace)
    {
      audioCb := cb;
    }

    method SetAudioSampleBatch(cb: Callback)
      modifies this
      ensures Registered() == old(Registered()).(audioBatch := cb)
      ensures State() == old(State()) && trace == old(trace)
    {
      audioBatchCb := cb;
    }

    method SetInputPoll(cb: Callback)
      modifies this
      ensures Registered() == old(Registered()).(inputPoll := cb)
      ensures State() == old(State()) && trace == old(trace)
    {
      inputPollCb := cb;
    }

    method SetInputState(cb: Callback)
      modifies this
      ensures Registered() == old(Registered()).(inputState := cb)
      ensures State() == old(State()) && trace == old(trace)
    {
      inputStateCb := cb;
    }

    /** retro_run: when running, lock the texture (`pixels` is the buffer
        the lock hands out), paint the frame, unlock, and hand the frame to
        the host; then poll input and report zero audio frames. */
    method Run(lock: LockResult, pixels: array<Word>)
      requires running != 0 && lock.Locked? ==> FrameFits(lock.pitch, pixels.Length)
      modifies this, pixels
      ensures State() == old(State()) && Registered() == old(Registered())
      ensures trace == old(trace) + RunCalls(old(State()), Registered(), lock, old(pixels[..]))
      ensures pixels[..] == if old(running) != 0 && lock.Locked?
                            then Rendered(old(pixels[..]), Stride(lock.pitch))
                            else old(pixels[..])
    {
      if running == 0 {
        return;
      }

      if lock.LockFailed? {
        trace := trace + [LockTexture(screenTexture, false, [])];
        return;
      }
      trace := trace + [LockTexture(screenTexture, true, pixels[..])];

      var stride := Stride(lock.pitch);
      FillRect(pixels, stride, 0, Height, 0, Width, OpaqueBlack);
      assert RectBottom * stride <= Height * stride;
      FillRect(pixels, stride, RectTop, RectBottom, RectLeft, RectRight, OpaqueRed);

      trace := trace + [UnlockTexture(screenTexture, pixels[..])];
      trace := trace + [VideoRefresh(videoCb, pixels[..], Width, Height, lock.pitch)];
      trace := trace + [InputPoll(inputPollCb)];
      trace := trace + [AudioSampleBatch(audioBatchCb, 0)];
    }
  }

  /** retro_init sets `running` only when every acquisition succeeds. */
  lemma InitRunsOnlyOnFullSuccess(s: Resources, o: InitOutcome)
    ensures s.running == 0 ==> (AfterInit(s, o).running == 1 <==> InitSucceeded(o))
    ensures s.running == 0 && !InitSucceeded(o) ==> AfterInit(s, o).running == 0
    ensures InitSucceeded(o) ==>
              Held(AfterInit(s, o)) == [WindowRes(o.window), RendererRes(o.renderer), TextureRes(o.texture)]
  {
  }

  /** A retro_init after a successful one that fails at the window step
      leaves `running` at 1 with the window handle nulled and the earlier
      renderer and texture handles still set. */
  lemma ReinitWindowFailureKeepsRunning(s: Resources, o: InitOutcome)
    requires s.running == 1 && o.videoOk && o.window == Null
    ensures AfterInit(s, o) == Resources(Null, s.renderer, s.texture, 1)
  {
  }

  /** A retro_init after a successful one that fails at the texture step
      leaves `running` at 1 with the texture handle nulled. */
  lemma ReinitTextureFailureKeepsRunning(s: Resources, o: InitOutcome)
    requires s.running == 1 && o.videoOk && o.window != Null && o.renderer != Null && o.texture == Null
    ensures AfterInit(s, o) == Resources(o.window, o.renderer, Null, 1)
  {
  }

  /** The five ways retro_init can end, with what each acquires and releases. */
  lemma InitVideoFailure(o: InitOutcome)
    requires !o.videoOk
    ensures Acquired(InitCalls(o)) == [] && Released(InitCalls(o)) == []
  {
    Step(VideoInit(false), []);
  }

  lemma InitWindowFailure(o: InitOutcome)
    requires o.videoOk && o.window == Null
    ensures Acquired(InitCalls(o)) == [VideoSubsystem] && Released(InitCalls(o)) == [VideoSubsystem]
  {
    Step(CreateWindow(Null), [VideoQuit]);
    Step(VideoInit(true), WindowStepCalls(o));
  }

  lemma InitRendererFailure(o: InitOutcome)
    requires o.videoOk && o.window != Null && o.renderer == Null
    ensures Acquired(InitCalls(o)) == [VideoSubsystem, WindowRes(o.window)]
    ensures Released(InitCalls(o)) == [WindowRes(o.window), VideoSubsystem]
  {
    Step(DestroyWindow(o.window), [VideoQuit]);
    Step(CreateRenderer(o.window, Null), [DestroyWindow(o.window)] + [VideoQuit]);
    Step(CreateWindow(o.window), RendererStepCalls(o));
    Step(VideoInit(true), WindowStepCalls(o));
  }

  lemma InitTextureFailure(o: InitOutcome)
    requires o.videoOk && o.window != Null && o.renderer != Null && o.texture == Null
    ensures Acquired(InitCalls(o)) == [VideoSubsystem, WindowRes(o.window), RendererRes(o.renderer)]
    ensures Released(InitCalls(o)) == [RendererRes(o.renderer), WindowRes(o.window), VideoSubsystem]
  {
    Step(DestroyWindow(o.window), [VideoQuit]);
    Step(DestroyRenderer(o.renderer), [DestroyWindow(o.window)] + [VideoQuit]);
    Step(CreateTexture(o.renderer, Null), [DestroyRenderer(o.renderer)] + ([DestroyWindow(o.window)] + [VideoQuit]));
    Step(CreateRenderer(o.window, o.renderer), TextureStepCalls(o));
    Step(CreateWindow(o.window), RendererStepCalls(o));
    Step(VideoInit(true), WindowStepCalls(o));
  }

  lemma InitSuccess(o: InitOutcome)
    requires InitSucceeded(o)
    ensures Acquired(InitCalls(o))
         == [VideoSubsystem, WindowRes(o.window), RendererRes(o.renderer), TextureRes(o.texture)]
    ensures Released(InitCalls(o)) == []
  {
    Step(CreateTexture(o.renderer, o.texture), []);
    Step(CreateRenderer(o.window, o.renderer), TextureStepCalls(o));
    Step(CreateWindow(o.window), RendererStepCalls(o));
    Step(VideoInit(true), WindowStepCalls(o));
  }

  /** retro_init ends with SDL_Quit exactly when it rolls back, and calls
      nothing in the host. */
  lemma InitCallsEnd(o: InitOutcome)
    ensures var calls := InitCalls(o);
      (calls[|calls| - 1] == VideoQuit <==> o.videoOk && !InitSucceeded(o)) && HostCalls(calls) == []
  {
    var calls := InitCalls(o);
    var w, r, t := o.window, o.renderer, o.texture;
    if !o.videoOk {
      assert calls == [VideoInit(false)];
    } else if w == Null {
      assert calls == [VideoInit(true), CreateWindow(w), VideoQuit];
    } else if r == Null {
      assert calls == [VideoInit(true), CreateWindow(w), CreateRenderer(w, r), DestroyWindow(w), VideoQuit];
    } else if t == Null {
      assert calls == [VideoInit(true), CreateWindow(w), CreateRenderer(w, r), CreateTexture(r, t),
                       DestroyRenderer(r), DestroyWindow(w), VideoQuit];
    } else {
      assert calls == [VideoInit(true), CreateWindow(w), CreateRenderer(w, r), CreateTexture(r, t)];
    }
    NoHostCalls(calls);
  }

  /** A failed retro_init releases exactly what it acquired, last first;
      a successful one releases nothing and holds the three handles. */
  lemma InitRollsBack(o: InitOutcome)
    ensures !InitSucceeded(o) ==> Released(InitCalls(o)) == Reverse(Acquired(InitCalls(o)))
    ensures InitSucceeded(o) ==> Released(InitCalls(o)) == []
    ensures InitSucceeded(o) ==>
              Acquired(InitCalls(o)) == [VideoSubsystem, WindowRes(o.window), RendererRes(o.renderer), TextureRes(o.texture)]
  {
    if !o.videoOk {
      InitVideoFailure(o);
    } else if o.window == Null {
      InitWindowFailure(o);
    } else if o.renderer == Null {
      InitRendererFailure(o);
    } else if o.texture == Null {
      InitTextureFailure(o);
    } else {
      InitSuccess(o);
    }
  }

  /** The resource a handle names, if it is not null. */
  function HeldAs(h: Handle, res: Resource): seq<Resource>
  {
    if h != Null then [res] else []
  }

  lemma DestroyIfSetReleases(h: Handle, destroy: Event, res: Resource, rest: seq<Event>)
    requires ReleasedBy(destroy) == [res]
    ensures Released(DestroyIfSet(h, destroy, rest)) == HeldAs(h, res) + Released(rest)
  {
    Step(destroy, rest);
  }

  lemma DestroyIfSetAcquires(h: Handle, destroy: Event, rest: seq<Event>)
    requires AcquiredBy(destroy) == []
    ensures Acquired(DestroyIfSet(h, destroy, rest)) == Acquired(rest)
  {
    Step(destroy, rest);
  }

  /** retro_deinit's releases, broken into the three optional destroys. */
  lemma DeinitReleases(s: Resources)
    ensures Released(DeinitCalls(s))
         == HeldAs(s.texture, TextureRes(s.texture))
            + (HeldAs(s.renderer, RendererRes(s.renderer)) + (HeldAs(s.window, WindowRes(s.window)) + [VideoSubsystem]))
  {
    var w := DestroyIfSet(s.window, DestroyWindow(s.window), [VideoQuit]);
    var r := DestroyIfSet(s.renderer, DestroyRenderer(s.renderer), w);
    DestroyIfSetReleases(s.window, DestroyWindow(s.window), WindowRes(s.window), [VideoQuit]);
    DestroyIfSetReleases(s.renderer, DestroyRenderer(s.renderer), RendererRes(s.renderer), w);
    DestroyIfSetReleases(s.texture, DestroyTexture(s.texture), TextureRes(s.texture), r);
  }

  /** retro_deinit acquires nothing. */
  lemma DeinitAcquiresNothing(s: Resources)
    ensures Acquired(DeinitCalls(s)) == []
  {
    var w := DestroyIfSet(s.window, DestroyWindow(s.window), [VideoQuit]);
    var r := DestroyIfSet(s.renderer, DestroyRenderer(s.renderer), w);
    DestroyIfSetAcquires(s.window, DestroyWindow(s.window), [VideoQuit]);
    DestroyIfSetAcquires(s.renderer, DestroyRenderer(s.renderer), w);
    DestroyIfSetAcquires(s.texture, DestroyTexture(s.texture), r);
  }

  /** retro_deinit releases exactly the resources the handles still name,
      in the reverse of their acquisition order, then the video subsystem. */
  lemma DeinitReleasesHeldInReverse(s: Resources)
    ensures Released(DeinitCalls(s)) == Reverse(Held(s)) + [VideoSubsystem]
    ensures Acquired(DeinitCalls(s)) == []
  {
    var ht, hr, hw := HeldAs(s.texture, TextureRes(s.texture)), HeldAs(s.renderer, RendererRes(s.renderer)),
                      HeldAs(s.window, WindowRes(s.window));
    DeinitReleases(s);
    DeinitAcquiresNothing(s);
    assert Held(s) == hw + (hr + ht);
    ReverseOfThree(hw, hr, ht);
  }

  /** retro_deinit ends with SDL_Quit and calls nothing in the host. */
  lemma DeinitCallsEnd(s: Resources)
    ensures var calls := DeinitCalls(s);
      calls[|calls| - 1] == VideoQuit && HostCalls(calls) == []
  {
    var calls := DeinitCalls(s);
    var w := DestroyIfSet(s.window, DestroyWindow(s.window), [VideoQuit]);
    var r := DestroyIfSet(s.renderer, DestroyRenderer(s.renderer), w);
    assert forall i | 0 <= i < |w| :: w[i] == DestroyWindow(s.window) || w[i] == VideoQuit;
    assert forall i | 0 <= i < |r| :: r[i] == DestroyRenderer(s.renderer) || r[i] in w;
    assert forall i | 0 <= i < |calls| :: calls[i] == DestroyTexture(s.texture) || calls[i] in r;
    NoHostCalls(calls);
  }

  /** A second retro_deinit destroys no handle and changes nothing. */
  lemma DeinitIdempotent(s: Resources)
    ensures DeinitCalls(AfterDeinit(s)) == [VideoQuit]
    ensures Released(DeinitCalls(AfterDeinit(s))) == [VideoSubsystem]
    ensures AfterDeinit(AfterDeinit(s)) == AfterDeinit(s)
  {
  }

  /** The resources a successful retro_init followed by retro_deinit
      acquires and releases, in order. */
  lemma InitThenDeinitTrace(s: Resources, o: InitOutcome)
    requires InitSucceeded(o)
    ensures var t := InitCalls(o) + DeinitCalls(AfterInit(s, o));
      Acquired(t) == [VideoSubsystem, WindowRes(o.window), RendererRes(o.renderer), TextureRes(o.texture)] &&
      Released(t) == [TextureRes(o.texture), RendererRes(o.renderer), WindowRes(o.window), VideoSubsystem]
  {
    var init, deinit := InitCalls(o), DeinitCalls(AfterInit(s, o));
    InitSuccess(o);
    DeinitReleases(AfterInit(s, o));
    DeinitAcquiresNothing(AfterInit(s, o));
    AcquiredAppend(init, deinit);
    ReleasedAppend(init, deinit);
  }

  /** After a successful retro_init, retro_deinit releases every resource
      acquired, each exactly once, in reverse acquisition order. */
  lemma InitThenDeinitBalanced(s: Resources, o: InitOutcome)
    requires InitSucceeded(o)
    ensures var t := InitCalls(o) + DeinitCalls(AfterInit(s, o));
      Released(t) == Reverse(Acquired(t)) &&
      forall res | res in Acquired(t) :: Count(Released(t), res) == 1
  {
    var w, r, t := WindowRes(o.window), RendererRes(o.renderer), TextureRes(o.texture);
    InitThenDeinitTrace(s, o);
    assert Reverse([VideoSubsystem, w, r, t]) == [t, r, w, VideoSubsystem];
    assert multiset([t, r, w, VideoSubsystem]) == multiset{t} + multiset{r} + multiset{w} + multiset{VideoSubsystem};
  }

  /** The whole lifecycle, retro_init then retro_deinit, makes no host call. */
  lemma InitThenDeinitNoHostCalls(s: Resources, o: InitOutcome)
    ensures HostCalls(InitCalls(o) + DeinitCalls(AfterInit(s, o))) == []
  {
    InitCallsEnd(o);
    DeinitCallsEnd(AfterInit(s, o));
    HostCallsAppend(InitCalls(o), DeinitCalls(AfterInit(s, o)));
  }

  /** When creating the renderer fails, retro_init destroys the window but
      leaves its handle set, so a later retro_deinit destroys it a second time. */
  lemma RendererFailureThenDeinitDestroysWindowTwice(s: Resources, o: InitOutcome)
    requires o.videoOk && o.window != Null && o.renderer == Null
    ensures Count(Released(InitCalls(o) + DeinitCalls(AfterInit(s, o))), WindowRes(o.window)) == 2
  {
    var s' := AfterInit(s, o);
    InitRendererFailure(o);
    DeinitReleases(s');
    ReleasedAppend(InitCalls(o), DeinitCalls(s'));
    assert Released(DeinitCalls(s')) == HeldAs(s'.texture, TextureRes(s'.texture)) + ([WindowRes(o.window)] + [VideoSubsystem]);
  }

  /** When creating the texture fails, a later retro_deinit destroys both the
      renderer and the window a second time. */
  lemma TextureFailureThenDeinitDestroysTwice(s: Resources, o: InitOutcome)
    requires o.videoOk && o.window != Null && o.renderer != Null && o.texture == Null
    ensures var t := Released(InitCalls(o) + DeinitCalls(AfterInit(s, o)));
      Count(t, WindowRes(o.window)) == 2 && Count(t, RendererRes(o.renderer)) == 2
  {
    var s' := AfterInit(s, o);
    InitTextureFailure(o);
    DeinitReleases(s');
    ReleasedAppend(InitCalls(o), DeinitCalls(s'));
    assert Released(DeinitCalls(s')) == [RendererRes(o.renderer)] + ([WindowRes(o.window)] + [VideoSubsystem]);
  }

  /** A frame whose lock succeeds: the buffer is handed out as it was and
      given back rendered, so both fills happen while the texture is locked;
      the texture is unlocked before the host sees the frame, and the host is called exactly three times, in the
      order video refresh (the rendered 640 x 480 frame and the pitch),
      input poll, audio batch with zero frames. */
  lemma FrameCallOrder(s: Resources, cbs: Callbacks, pitch: int, before: seq<Word>)
    requires s.running != 0 && FrameFits(pitch, |before|)
    ensures var calls := RunCalls(s, cbs, Locked(pitch), before);
      calls[0] == LockTexture(s.texture, true, before) &&
      calls[1] == UnlockTexture(s.texture, Rendered(before, Stride(pitch))) &&
      (forall i | 2 <= i < |calls| :: calls[i].IsHostCall()) &&
      HostCalls(calls) == [VideoRefresh(cbs.video, Rendered(before, Stride(pitch)), Width, Height, pitch),
                           InputPoll(cbs.inputPoll), AudioSampleBatch(cbs.audioBatch, 0)]
  {
    var video := VideoRefresh(cbs.video, Rendered(before, Stride(pitch)), Width, Height, pitch);
    var poll, audio := InputPoll(cbs.inputPoll), AudioSampleBatch(cbs.audioBatch, 0);
    Step(poll, [audio]);
    Step(video, [poll] + [audio]);
    var unlock := UnlockTexture(s.texture, Rendered(before, Stride(pitch)));
    Step(unlock, [video] + ([poll] + [audio]));
    Step(LockTexture(s.texture, true, before), [unlock] + ([video] + ([poll] + [audio])));
  }

  /** The frame handed to the host has the size the core advertises. */
  lemma FrameMatchesGeometry(s: Resources, cbs: Callbacks, pitch: int, before: seq<Word>)
    requires s.running != 0 && FrameFits(pitch, |before|)
    ensures var e := RunCalls(s, cbs, Locked(pitch), before)[2];
      e.VideoRefresh? && e.width == SystemAvGeometry().baseWidth && e.height == SystemAvGeometry().baseHeight
      && |e.frame| == |before|
  {
  }
}
