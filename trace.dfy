/** What the core does through the outside world, recorded as events: the
    rendering backend's acquire, release, lock and unlock steps, and the
    calls it makes through the host's callbacks. */
module Trace {
  import opened Pixels

  /** An opaque backend object (window, renderer or texture); Null is the
      null pointer the backend returns when a creation step fails. */
  datatype Handle = Null | Handle(id: nat)

  /** A host-supplied function pointer; Unset until the host registers one
      (the C globals start out zero-initialised). */
  datatype Callback = Unset | Callback(id: nat)

  datatype PixelFormat = XRGB8888

  /** The environment requests retro_set_environment makes. */
  datatype EnvCommand =
    | SetSupportNoGame(support: bool)
    | SetPixelFormat(format: PixelFormat)

  datatype Event =
    | VideoInit(ok: bool)                                // SDL_Init(SDL_INIT_VIDEO) and whether it succeeded
    | CreateWindow(window: Handle)                       // hidden 640x480 window; Null on failure
    | CreateRenderer(window: Handle, renderer: Handle)   // software renderer for `window`; Null on failure
    | CreateTexture(renderer: Handle, texture: Handle)   // 640x480 ARGB8888 streaming texture; Null on failure
    | DestroyTexture(texture: Handle)
    | DestroyRenderer(renderer: Handle)
    | DestroyWindow(window: Handle)
    | VideoQuit                                          // SDL_Quit
    | LockTexture(texture: Handle, ok: bool, frame: seq<Word>)  // the locked buffer's contents as handed out; [] on failure
    | UnlockTexture(texture: Handle, frame: seq<Word>)         // the buffer's contents when it is given back
    | VideoRefresh(video: Callback, frame: seq<Word>, width: int, height: int, pitch: int)
    | InputPoll(poll: Callback)
    | AudioSampleBatch(batch: Callback, frames: nat)     // the sample pointer is always NULL
    | Environment(env: Callback, cmd: EnvCommand)
  {
    /** A call into the host rather than into the backend. */
    predicate IsHostCall()
    {
      VideoRefresh? || InputPoll? || AudioSampleBatch? || Environment?
    }
  }

  /** A resource the backend hands out and the core must give back. */
  datatype Resource =
    | VideoSubsystem
    | WindowRes(window: Handle)
    | RendererRes(renderer: Handle)
    | TextureRes(texture: Handle)

  /** The resource an event acquires: only successful acquisitions count. */
  function AcquiredBy(e: Event): seq<Resource>
  {
    match e
    case VideoInit(ok) => if ok then [VideoSubsystem] else []
    case CreateWindow(w) => if w != Null then [WindowRes(w)] else []
    case CreateRenderer(_, r) => if r != Null then [RendererRes(r)] else []
    case CreateTexture(_, t) => if t != Null then [TextureRes(t)] else []
    case _ => []
  }

  /** The resource an event gives back. */
  function ReleasedBy(e: Event): seq<Resource>
  {
    match e
    case VideoQuit => [VideoSubsystem]
    case DestroyWindow(w) => [WindowRes(w)]
    case DestroyRenderer(r) => [RendererRes(r)]
    case DestroyTexture(t) => [TextureRes(t)]
    case _ => []
  }

  /** Resources acquired along a trace, in order. */
  function Acquired(t: seq<Event>): seq<Resource>
  {
    if t == [] then [] else AcquiredBy(t[0]) + Acquired(t[1..])
  }

  /** Resources released along a trace, in order. */
  function Released(t: seq<Event>): seq<Resource>
  {
    if t == [] then [] else ReleasedBy(t[0]) + Released(t[1..])
  }

  /** The calls made into the host along a trace, in order. */
  function HostCalls(t: seq<Event>): seq<Event>
  {
    if t == [] then [] else (if t[0].IsHostCall() then [t[0]] else []) + HostCalls(t[1..])
  }

  function Reverse<T>(s: seq<T>): seq<T>
  {
    seq(|s|, i requires 0 <= i < |s| => s[|s| - 1 - i])
  }

  /** How many times `x` occurs in `s`. */
  function Count<T(==)>(s: seq<T>, x: T): nat
  {
    multiset(s)[x]
  }

  /** One step of the three trace functions: the first event, then the rest. */
  lemma Step(e: Event, t: seq<Event>)
    ensures Acquired([e] + t) == AcquiredBy(e) + Acquired(t)
    ensures Released([e] + t) == ReleasedBy(e) + Released(t)
    ensures HostCalls([e] + t) == (if e.IsHostCall() then [e] else []) + HostCalls(t)
  {
    assert ([e] + t)[1..] == t;
  }

  /** A trace none of whose events is a host call has no host calls. */
  lemma {:induction false} NoHostCalls(t: seq<Event>)
    requires forall i | 0 <= i < |t| :: !t[i].IsHostCall()
    ensures HostCalls(t) == []
  {
    if t != [] {
      NoHostCalls(t[1..]);
    }
  }

  lemma {:induction false} AcquiredAppend(a: seq<Event>, b: seq<Event>)
    ensures Acquired(a + b) == Acquired(a) + Acquired(b)
  {
    if a != [] {
      assert (a + b)[1..] == a[1..] + b;
      AcquiredAppend(a[1..], b);
    } else {
      assert a + b == b;
    }
  }

  lemma {:induction false} ReleasedAppend(a: seq<Event>, b: seq<Event>)
    ensures Released(a + b) == Released(a) + Released(b)
  {
    if a != [] {
      assert (a + b)[1..] == a[1..] + b;
      ReleasedAppend(a[1..], b);
    } else {
      assert a + b == b;
    }
  }

  lemma {:induction false} HostCallsAppend(a: seq<Event>, b: seq<Event>)
    ensures HostCalls(a + b) == HostCalls(a) + HostCalls(b)
  {
    if a != [] {
      assert (a + b)[1..] == a[1..] + b;
      HostCallsAppend(a[1..], b);
    } else {
      assert a + b == b;
    }
  }

  lemma ReverseAppend<T>(a: seq<T>, b: seq<T>)
    ensures Reverse(a + b) == Reverse(b) + Reverse(a)
  {
    assert |Reverse(a + b)| == |Reverse(b) + Reverse(a)|;
    forall i | 0 <= i < |a| + |b|
      ensures Reverse(a + b)[i] == (Reverse(b) + Reverse(a))[i]
    {
      if i < |b| {
        assert (a + b)[|a| + |b| - 1 - i] == b[|b| - 1 - i];
      } else {
        assert (a + b)[|a| + |b| - 1 - i] == a[|a| - 1 - (i - |b|)];
      }
    }
  }

  /** Reversing three pieces of at most one element each. */
  lemma ReverseOfThree<T>(a: seq<T>, b: seq<T>, c: seq<T>)
    requires |a| <= 1 && |b| <= 1 && |c| <= 1
    ensures Reverse(a + (b + c)) == c + (b + a)
  {
    ReverseAppend(a, b + c);
    ReverseAppend(b, c);
    assert Reverse(a) == a && Reverse(b) == b && Reverse(c) == c;
  }
}
