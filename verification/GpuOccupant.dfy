/** The one DiT a worker holds on its GPU, and the style pack applied to it. The worker keeps a
    record of what the handler has loaded; what the handler really has is a ghost. */
module GpuOccupant {
  import opened Common

  datatype Profile = Iterate | Polish | Quality | StudioOps

  /** The base checkpoint that style packs are trained on. */
  const LORA_BASE_PROFILE := StudioOps

  type LoraId = string
  /** One constructed `AceStepHandler`. */
  type HandlerId = nat

  /** What is really on a handler: the adapters it holds, the active one, and whether it is used. */
  datatype Adapters = Adapters(loaded: set<LoraId>, active: Option<LoraId>, used: bool)

  const CLEAN := Adapters({}, None, false)

  /** How one call into ACE-Step ended: it did what it says, it failed in a way that surfaces as
      `WorkerUnavailable`, or it raised anything else. A call that did not return may have left the
      handler in any state. */
  datatype Call = Returns | Fails(after: Adapters) | Raises(after: Adapters)

  /** What a caller sees. */
  datatype Signal = Fine | Unavailable | Crashed | Stopped

  /** The calls of one load: the imports, the offload check, the DiT, the LM. */
  datatype LoadCalls = LoadCalls(imports: bool, supported: bool, dit: Call, lm: Call)

  datatype AdapterCalls = AdapterCalls(unload: Call, add: Call, activate: Call, use: Call)

  /** The module's `_STATE`, and behind it: the handler's adapters, the handlers something still
      refers to, and how many were constructed. */
  datatype State = State(
    handler: Option<HandlerId>, profile: Option<Profile>, lora: Option<LoraId>, lm: bool,
    adapters: Adapters, held: set<HandlerId>, built: nat)

  const INITIAL := State(None, None, None, false, CLEAN, {}, 0)

  /** The handler has exactly the wanted adapter, active and in use; none when none is wanted. */
  predicate Agrees(want: Option<LoraId>, actual: Adapters) {
    actual == match want
              case None => CLEAN
              case Some(id) => Adapters({id}, Some(id), true)
  }

  /** The record agrees with the handler, and at most that one DiT is held. */
  ghost predicate Agreement(s: State) {
    && (s.handler.None? ==> s.profile.None? && s.lora.None? && s.held == {})
    && (s.handler.Some? ==> s.profile.Some? && Agrees(s.lora, s.adapters) && s.held == {s.handler.value})
    && (forall h :: h in s.held ==> h < s.built)
  }

  // ---- the transitions ----

  /** Every way out of a training run or a failed transition forgets the handler. */
  function Invalidated(s: State): State {
    s.(handler := None, profile := None, lora := None)
  }

  /** The caller's own references go out of scope. */
  function Released(s: State): State {
    s.(held := if s.handler.Some? then s.held * {s.handler.value} else {})
  }

  /** `_ensure_loaded`. */
  function Loaded(s: State, profile: Profile, calls: LoadCalls): (State, Signal) {
    if !calls.imports then (s, Unavailable)
    else if s.profile != Some(profile) || s.handler.None? then
      var empty := Invalidated(s).(held := {});
      if profile == Quality && !calls.supported then (empty, Unavailable)
      else match calls.dit
        case Fails(_) => (empty.(built := s.built + 1), Unavailable)
        case Raises(_) => (empty.(built := s.built + 1), Crashed)
        case Returns =>
          WithLm(empty.(handler := Some(s.built), profile := Some(profile), adapters := CLEAN,
                        held := {s.built}, built := s.built + 1), calls.lm)
    else WithLm(s, calls.lm)
  }

  function WithLm(s: State, lm: Call): (State, Signal) {
    if s.lm then (s, Fine)
    else match lm
      case Returns => (s.(lm := true), Fine)
      case Fails(_) => (s, Unavailable)
      case Raises(_) => (s, Crashed)
  }

  /** What a call leaves on the handler. */
  function After(call: Call, done: Adapters): Adapters {
    match call
    case Returns => done
    case Fails(after) => after
    case Raises(after) => after
  }

  function SignalOf(call: Call): Signal {
    match call
    case Returns => Fine
    case Fails(_) => Unavailable
    case Raises(_) => Crashed
  }

  /** A call of the transition ended it: `WorkerUnavailable` forgets the handler, anything else
      passes through with the record as it is. */
  function Ended(s: State, call: Call): (State, Signal) {
    var s' := s.(adapters := After(call, s.adapters));
    (if call.Fails? then Invalidated(s') else s', SignalOf(call))
  }

  function Unloaded(s: State): State {
    s.(lora := None, adapters := CLEAN)
  }

  /** `_ensure_lora_adapter`. */
  function Adapted(s: State, want: Option<LoraId>, calls: AdapterCalls): (State, Signal) {
    if want == s.lora then (s, Fine)
    else if s.lora.Some? && !calls.unload.Returns? then Ended(s, calls.unload)
    else
      var s1 := if s.lora.Some? then Unloaded(s) else s;
      match want
      case None => (s1, Fine)
      case Some(id) => Added(s1, id, calls)
  }

  function Added(s: State, id: LoraId, calls: AdapterCalls): (State, Signal) {
    if !calls.add.Returns? then Ended(s, calls.add)
    else
      var s2 := s.(adapters := s.adapters.(loaded := s.adapters.loaded + {id}));
      if !calls.activate.Returns? then Ended(s2, calls.activate)
      else
        var s3 := s2.(adapters := s2.adapters.(active := Some(id)));
        if !calls.use.Returns? then Ended(s3, calls.use)
        else (s3.(adapters := s3.adapters.(used := true), lora := Some(id)), Fine)
  }

  /** One `generate_music`: what was asked for, and what was on the handler. */
  datatype Render = Render(profile: Profile, want: Option<LoraId>, loaded: Option<Profile>, actual: Adapters)

  /** `run_job` under the lock, up to the render: load, adapter, resolve and freeze, render. The
      two flags are a cancel (or a lost fence) seen after the load, and before the render. */
  function JobRun(s: State, profile: Profile, want: Option<LoraId>, load: LoadCalls, adapt: AdapterCalls,
                  stopsAfterLoad: bool, stopsBeforeRender: bool): (State, Signal, Option<Render>) {
    var (s1, loaded) := Loaded(s, profile, load);
    if loaded != Fine then (Released(s1), loaded, None)
    else if stopsAfterLoad then (Released(s1), Stopped, None)
    else if want.Some? && s1.profile != Some(LORA_BASE_PROFILE) then (Released(s1), Unavailable, None)
    else
      var (s2, adapted) := Adapted(s1, want, adapt);
      if adapted != Fine then (Released(s2), adapted, None)
      else if stopsBeforeRender then (Released(s2), Stopped, None)
      else (Released(s2), Fine, Some(Render(profile, want, s2.profile, s2.adapters)))
  }

  /** `train_lora` under the lock: training wraps the decoder behind the record's back, so every
      exit forgets the handler. */
  function Trained(s: State, load: LoadCalls, training: Call): (State, Signal) {
    var (s1, loaded) := Loaded(s, LORA_BASE_PROFILE, load);
    if loaded != Fine then (Released(s1), loaded)
    else (Released(Invalidated(s1.(adapters := After(training, s1.adapters)))), SignalOf(training))
  }

  // ---- the worker, in place ----

  class Occupant {
    var handler: Option<HandlerId>
    var profile: Option<Profile>
    var lora: Option<LoraId>
    var lm: bool
    var built: nat
    ghost var adapters: Adapters
    ghost var held: set<HandlerId>

    ghost function Abstract(): State
      reads this
    {
      State(handler, profile, lora, lm, adapters, held, built)
    }

    constructor ()
      ensures Abstract() == INITIAL
    {
      handler, profile, lora, lm, built := None, None, None, false, 0;
      adapters, held := CLEAN, {};
    }

    /** `peak` is the largest number of DiTs held at once, a DiT under construction included: the
        previous one is let go before the next is built. */
    method EnsureLoaded(wanted: Profile, calls: LoadCalls) returns (signal: Signal, ghost peak: nat)
      modifies this
      ensures (Abstract(), signal) == Loaded(old(Abstract()), wanted, calls)
      ensures |old(held)| <= 1 ==> peak <= 1
      ensures signal == Fine <==>
        && calls.imports && (old(lm) || calls.lm.Returns?)
        && ((old(profile) == Some(wanted) && old(handler).Some?)
            || ((wanted == Quality ==> calls.supported) && calls.dit.Returns?))
      ensures signal == Fine ==> profile == Some(wanted) && handler.Some? && lm
      ensures !calls.imports || (old(profile) == Some(wanted) && old(handler).Some?) ==>
        && handler == old(handler) && profile == old(profile) && lora == old(lora) && built == old(built)
        && adapters == old(adapters) && held == old(held)
      ensures calls.imports && !(old(profile) == Some(wanted) && old(handler).Some?) ==>
        && lora == None && built == old(built) + (if wanted == Quality && !calls.supported then 0 else 1)
        && if calls.dit.Returns? && (wanted == Quality ==> calls.supported)
           then handler == Some(old(built)) && profile == Some(wanted) && adapters == Adapters({}, None, false)
             && held == {old(built)}
           else handler == None && profile == None && held == {} && signal != Fine
    {
      peak := |held|;
      if !calls.imports {
        return Unavailable, peak;
      }
      if profile != Some(wanted) || handler.None? {
        handler, profile, lora := None, None, None;
        held := {};
        if wanted == Quality && !calls.supported {
          return Unavailable, peak;
        }
        var constructed := built;
        built := built + 1;
        peak := if |held| + 1 > peak then |held| + 1 else peak;
        if !calls.dit.Returns? {
          return SignalOf(calls.dit), peak;
        }
        handler, profile := Some(constructed), Some(wanted);
        adapters, held := CLEAN, {constructed};
      }
      if !lm {
        if !calls.lm.Returns? {
          return SignalOf(calls.lm), peak;
        }
        lm := true;
      }
      return Fine, peak;
    }

    /** The body of `_ensure_lora_adapter`'s `try`. */
    method Transition(want: Option<LoraId>, calls: AdapterCalls) returns (signal: Signal)
      requires want != lora
      modifies this
      ensures signal == Unavailable ==> Invalidated(Abstract()) == Adapted(old(Abstract()), want, calls).0
      ensures signal != Unavailable ==> Abstract() == Adapted(old(Abstract()), want, calls).0
      ensures signal == Adapted(old(Abstract()), want, calls).1
    {
      if lora.Some? {
        adapters := After(calls.unload, CLEAN);
        if !calls.unload.Returns? {
          return SignalOf(calls.unload);
        }
        lora := None;
      }
      if want.Some? {
        adapters := After(calls.add, adapters.(loaded := adapters.loaded + {want.value}));
        if !calls.add.Returns? {
          return SignalOf(calls.add);
        }
        adapters := After(calls.activate, adapters.(active := want));
        if !calls.activate.Returns? {
          return SignalOf(calls.activate);
        }
        adapters := After(calls.use, adapters.(used := true));
        if !calls.use.Returns? {
          return SignalOf(calls.use);
        }
        lora := want;
      }
      return Fine;
    }

    method EnsureLoraAdapter(want: Option<LoraId>, calls: AdapterCalls) returns (signal: Signal)
      modifies this
      ensures (Abstract(), signal) == Adapted(old(Abstract()), want, calls)
      ensures signal == Fine <==>
        || want == old(lora)
        || ((old(lora).Some? ==> calls.unload.Returns?)
            && (want.Some? ==> calls.add.Returns? && calls.activate.Returns? && calls.use.Returns?))
      ensures signal == Fine ==> lora == want && handler == old(handler) && profile == old(profile)
      ensures want == old(lora) ==> adapters == old(adapters)
      ensures signal == Fine && want != old(lora) && want.None? ==> adapters == Adapters({}, None, false)
      ensures signal == Fine && want != old(lora) && want.Some? ==>
        adapters == Adapters((if old(lora).Some? then {} else old(adapters).loaded) + {want.value}, want, true)
      ensures signal == Unavailable ==> handler == None && profile == None && lora == None
      ensures signal == Crashed ==>
        && handler == old(handler) && profile == old(profile)
        && lora == if old(lora).Some? && calls.unload.Raises? then old(lora) else None
      ensures built == old(built) && lm == old(lm) && held == old(held)
    {
      if want == lora {
        return Fine;
      }
      signal := Transition(want, calls);
      if signal == Unavailable {
        handler, profile, lora := None, None, None;
      }
    }

    method RunJob(wanted: Profile, want: Option<LoraId>, load: LoadCalls, adapt: AdapterCalls,
                  stopsAfterLoad: bool, stopsBeforeRender: bool) returns (signal: Signal, ghost render: Option<Render>)
      modifies this
      ensures (Abstract(), signal, render)
        == JobRun(old(Abstract()), wanted, want, load, adapt, stopsAfterLoad, stopsBeforeRender)
      ensures signal == Fine <==> render.Some?
      ensures render.Some? <==>
        && Loaded(old(Abstract()), wanted, load).1 == Fine && !stopsAfterLoad
        && (want.Some? ==> wanted == StudioOps)
        && Adapted(Loaded(old(Abstract()), wanted, load).0, want, adapt).1 == Fine && !stopsBeforeRender
    {
      render := None;
      ghost var peak;
      signal, peak := EnsureLoaded(wanted, load);
      if signal == Fine {
        if stopsAfterLoad {
          signal := Stopped;
        } else if want.Some? && profile != Some(LORA_BASE_PROFILE) {
          signal := Unavailable;
        } else {
          signal := EnsureLoraAdapter(want, adapt);
          if signal == Fine {
            if stopsBeforeRender {
              signal := Stopped;
            } else {
              render := Some(Render(wanted, want, profile, adapters));
            }
          }
        }
      }
      held := if handler.Some? then held * {handler.value} else {};
    }

    method TrainLora(load: LoadCalls, training: Call) returns (signal: Signal)
      modifies this
      ensures (Abstract(), signal) == Trained(old(Abstract()), load, training)
      ensures Loaded(old(Abstract()), StudioOps, load).1 == Fine ==>
        && handler == None && profile == None && lora == None
        && (signal == Fine <==> training.Returns?) && (signal == Unavailable <==> training.Fails?)
      ensures Loaded(old(Abstract()), StudioOps, load).1 != Fine ==>
        signal == Loaded(old(Abstract()), StudioOps, load).1 && adapters == Loaded(old(Abstract()), StudioOps, load).0.adapters
    {
      ghost var peak;
      signal, peak := EnsureLoaded(LORA_BASE_PROFILE, load);
      if signal == Fine {
        adapters := After(training, adapters);
        signal := SignalOf(training);
        handler, profile, lora := None, None, None;
      }
      held := if handler.Some? then held * {handler.value} else {};
    }
  }

  // ---- agreement ----

  lemma LoadKeepsAgreement(s: State, profile: Profile, calls: LoadCalls)
    requires Agreement(s)
    ensures var (s', signal) := Loaded(s, profile, calls);
      Agreement(s') && (signal == Fine ==> s'.profile == Some(profile) && s'.handler.Some?)
  {
  }

  /** The call that ends a transition early: the first that does not return. */
  function Culprit(s: State, calls: AdapterCalls): Call {
    if s.lora.Some? && !calls.unload.Returns? then calls.unload
    else if !calls.add.Returns? then calls.add
    else if !calls.activate.Returns? then calls.activate
    else calls.use
  }

  /** A transition that ends, or fails as `WorkerUnavailable`, leaves record and handler in
      agreement. One that raises anything else does if and only if the raising call left the handler
      as it was, when that call was the unload, or without any adapter, when it was a later one. */
  lemma TransitionAgrees(s: State, want: Option<LoraId>, calls: AdapterCalls)
    requires Agreement(s) && s.handler.Some?
    ensures var (s', signal) := Adapted(s, want, calls);
      && (signal == Fine ==> Agreement(s') && s'.lora == want && Agrees(want, s'.adapters))
      && (signal == Unavailable ==> Agreement(Released(s')) && s'.handler.None?)
      && (signal == Crashed <==>
            want != s.lora && Culprit(s, calls).Raises? && (want.Some? || (s.lora.Some? && calls.unload.Raises?)))
      && (signal == Crashed ==>
            (Agreement(s') <==>
              Culprit(s, calls).after == if s.lora.Some? && calls.unload.Raises? then s.adapters else CLEAN))
      && (signal != Unavailable ==> s'.handler == s.handler && s'.profile == s.profile)
  {
  }

  lemma ReleaseKeepsAgreement(s: State)
    requires Agreement(s)
    ensures Released(s) == s
  {
  }

  /** Whenever `generate_music` is reached, the handler is of the requested profile and has exactly
      the requested adapter; and the next job finds record and handler in agreement, unless a call
      of the transition raised what nothing catches. */
  lemma JobRendersWhatWasAsked(s: State, profile: Profile, want: Option<LoraId>, load: LoadCalls, adapt: AdapterCalls,
                               stopsAfterLoad: bool, stopsBeforeRender: bool)
    requires Agreement(s)
    ensures var (s', signal, render) := JobRun(s, profile, want, load, adapt, stopsAfterLoad, stopsBeforeRender);
      && (render.Some? ==>
            && Agrees(want, render.value.actual) && render.value.loaded == Some(profile)
            && (want.Some? ==> profile == LORA_BASE_PROFILE))
      && (signal != Crashed ==> Agreement(s'))
      && |s'.held| <= 1
  {
    LoadKeepsAgreement(s, profile, load);
    var (s1, loaded) := Loaded(s, profile, load);
    ReleaseKeepsAgreement(s1);
    if loaded == Fine {
      TransitionAgrees(s1, want, adapt);
      hide Loaded, Adapted;
    }
  }

  /** Training leaves a decoder nobody knows, and no record of it. */
  lemma TrainingKeepsAgreement(s: State, load: LoadCalls, training: Call)
    requires Agreement(s)
    ensures Agreement(Trained(s, load, training).0)
  {
    LoadKeepsAgreement(s, LORA_BASE_PROFILE, load);
    hide Loaded;
  }

  // ---- whole runs ----

  datatype Work =
    | Generate(profile: Profile, want: Option<LoraId>, load: LoadCalls, adapt: AdapterCalls, stopsAfterLoad: bool,
               stopsBeforeRender: bool)
    | Train(load: LoadCalls, training: Call)
    | Preload(load: LoadCalls)

  /** No adapter call raises anything but what surfaces as `WorkerUnavailable`. */
  predicate Catchable(calls: AdapterCalls) {
    !calls.unload.Raises? && !calls.add.Raises? && !calls.activate.Raises? && !calls.use.Raises?
  }

  function Worked(s: State, work: Work): (State, Option<Render>) {
    match work
    case Generate(profile, want, load, adapt, stopsAfterLoad, stopsBeforeRender) =>
      var (s', _, render) := JobRun(s, profile, want, load, adapt, stopsAfterLoad, stopsBeforeRender);
      (s', render)
    case Train(load, training) => (Trained(s, load, training).0, None)
    case Preload(load) => (Released(Loaded(s, Iterate, load).0), None)
  }

  function Renders(s: State, works: seq<Work>): seq<Render>
    decreases |works|
  {
    if works == [] then []
    else
      var (s', render) := Worked(s, works[0]);
      (if render.Some? then [render.value] else []) + Renders(s', works[1..])
  }

  /** A crash in a load leaves nothing on record; one in a transition is excluded. */
  lemma WorkKeepsAgreement(s: State, work: Work)
    requires Agreement(s) && (work.Generate? ==> Catchable(work.adapt))
    ensures Agreement(Worked(s, work).0)
    ensures Worked(s, work).1.Some? ==>
      work.Generate? && var r := Worked(s, work).1.value;
      r.profile == work.profile && r.want == work.want
      && Agrees(r.want, r.actual) && r.loaded == Some(r.profile)
  {
    match work
    case Generate(profile, want, load, adapt, stopsAfterLoad, stopsBeforeRender) =>
      JobRendersWhatWasAsked(s, profile, want, load, adapt, stopsAfterLoad, stopsBeforeRender);
      LoadKeepsAgreement(s, profile, load);
      var (s1, loaded) := Loaded(s, profile, load);
      ReleaseKeepsAgreement(s1);
      CatchableNeverCrashes(s1, want, adapt);
      hide Loaded, Adapted;
    case Train(load, training) => TrainingKeepsAgreement(s, load, training);
    case Preload(load) =>
      LoadKeepsAgreement(s, Iterate, load);
      ReleaseKeepsAgreement(Loaded(s, Iterate, load).0);
  }

  lemma CatchableNeverCrashes(s: State, want: Option<LoraId>, calls: AdapterCalls)
    requires Catchable(calls)
    ensures Adapted(s, want, calls).1 != Crashed
  {
  }

  /** Over any sequence of jobs, profile swaps, adapter changes, training runs and failures that
      surface as `WorkerUnavailable`, every render has exactly the adapter it asked for. */
  lemma {:induction false} EveryRenderHasItsAdapter(s: State, works: seq<Work>)
    requires Agreement(s)
    requires forall n | 0 <= n < |works| :: works[n].Generate? ==> Catchable(works[n].adapt)
    ensures forall r | r in Renders(s, works) :: Agrees(r.want, r.actual) && r.loaded == Some(r.profile)
    decreases |works|
  {
    if works != [] {
      WorkKeepsAgreement(s, works[0]);
      EveryRenderHasItsAdapter(Worked(s, works[0]).0, works[1..]);
    }
  }

  /** The exception is real: an `add_lora` that runs out of memory half-way is not caught, and the
      next plain job renders with the adapter it left behind. */
  lemma UncaughtFailureLeaksAdapter(id: LoraId)
    ensures var fine := LoadCalls(true, true, Returns, Returns);
      var oom := AdapterCalls(Returns, Raises(Adapters({id}, Some(id), true)), Returns, Returns);
      var works := [Generate(StudioOps, Some(id), fine, oom, false, false),
                    Generate(StudioOps, None, fine, oom, false, false)];
      exists r :: r in Renders(INITIAL, works) && r.want.None? && r.actual == Adapters({id}, Some(id), true)
  {
    var fine := LoadCalls(true, true, Returns, Returns);
    var oom := AdapterCalls(Returns, Raises(Adapters({id}, Some(id), true)), Returns, Returns);
    var first := Generate(StudioOps, Some(id), fine, oom, false, false);
    var second := Generate(StudioOps, None, fine, oom, false, false);
    var (s1, r1) := Worked(INITIAL, first);
    var (s2, r2) := Worked(s1, second);
    assert [first, second][1..] == [second];
    assert r2.value in Renders(s1, [second]);
    assert r2.value in Renders(INITIAL, [first, second]);
  }
}
