/** The life cycle of a plugin under every interleaving of Load, Dispose and Reload
    (crux-kernel/fiber/fiber.go). */
module Fiber {
  import opened Wrappers

  datatype State = Pending | Loading | Active | Failed | Disposed

  /** The mutable fields of a fiber. Disposers are numbered by the loader calls that made them. */
  datatype Fields = Fields(state: State, disposer: Option<nat>, err: Option<string>,
                           loader: nat, config: Option<string>, epoch: string)

  /** What a loader returns: possibly a disposer, possibly an error, possibly both. */
  datatype LoaderOutcome = LoaderOutcome(disposer: Option<nat>, err: Option<string>)

  datatype ReloadArgs = ReloadArgs(loader: Option<nat>, config: Option<string>, epoch: string)

  /** How a Reload goes on after it has released the lock. */
  datatype ReloadPlan = Rejected | Skipped | LoadNext | DisposeThenLoad(disposer: nat)

  function New(loader: nat, config: Option<string>): Fields {
    Fields(Pending, None, None, loader, config, "")
  }

  // ---------------------------------------------------------------- the critical sections

  predicate CanLoad(f: Fields) {
    f.state.Pending? || f.state.Failed?
  }

  function LoadBegun(f: Fields): Fields {
    if CanLoad(f) then f.(state := Loading, err := None) else f
  }

  function LoadEnded(f: Fields, outcome: LoaderOutcome): Fields {
    if outcome.err.Some? then f.(state := Failed, err := outcome.err)
    else f.(state := Active, disposer := outcome.disposer)
  }

  predicate CanDispose(f: Fields) {
    f.state.Active? || f.state.Failed?
  }

  function DisposeDone(f: Fields): Fields {
    if CanDispose(f) then f.(state := State.Disposed, disposer := None) else f
  }

  function PlanReload(f: Fields, args: ReloadArgs): ReloadPlan {
    if !CanDispose(f) then Rejected
    else if args.config.None? && args.epoch != "" && args.epoch == f.epoch then Skipped
    else if f.state.Active? && f.disposer.Some? then DisposeThenLoad(f.disposer.value)
    else LoadNext
  }

  function ReloadBegun(f: Fields, args: ReloadArgs): Fields {
    match PlanReload(f, args)
    case Rejected => f
    case Skipped => f
    case plan =>
      Fields(Pending, if plan.DisposeThenLoad? then None else f.disposer, f.err,
             if args.loader.Some? then args.loader.value else f.loader,
             if args.config.Some? then args.config else f.config,
             if args.epoch != "" then args.epoch else f.epoch)
  }

  /** A fiber that has reloaded for this epoch is not reloaded again unless it is given a configuration. */
  predicate Reloaded(f: Fields, args: ReloadArgs) {
    args.config.None? && args.epoch != "" && args.epoch == f.epoch
  }

  /** The object itself; `ran` records the disposers it calls. */
  class PluginFiber {
    const name: string
    var state: State
    var disposer: Option<nat>
    var err: Option<string>
    var loader: nat
    var config: Option<string>
    var epoch: string
    ghost var ran: seq<nat>

    constructor (name: string, loader: nat, config: Option<string>)
      ensures this.name == name && Value() == New(loader, config) && ran == []
    {
      this.name, this.loader, this.config := name, loader, config;
      state, disposer, err, epoch, ran := Pending, None, None, "", [];
    }

    function Value(): Fields
      reads this
    {
      Fields(state, disposer, err, loader, config, epoch)
    }

    /** Up to the call of the loader, which runs without the lock. */
    method BeginLoad() returns (started: Option<nat>)
      modifies this`state, this`err
      ensures Value() == LoadBegun(old(Value()))
      ensures if old(state).Pending? || old(state).Failed? then started == Some(loader) && state.Loading? && err == None
              else started == None && Value() == old(Value())
    {
      if state != Pending && state != Failed {
        return None;
      }
      state := Loading;
      err := None;
      started := Some(loader);
    }

    method EndLoad(outcome: LoaderOutcome) returns (e: Option<string>)
      modifies this`state, this`err, this`disposer
      ensures Value() == LoadEnded(old(Value()), outcome)
      ensures e.Some? <==> outcome.err.Some?
      ensures if outcome.err.Some? then state.Failed? && err == outcome.err && disposer == old(disposer)
              else state.Active? && disposer == outcome.disposer && err == old(err)
    {
      if outcome.err.Some? {
        state := Failed;
        err := outcome.err;
        return Some("fiber: load plugin " + name + " failed: " + outcome.err.value);
      }
      disposer := outcome.disposer;
      state := Active;
      e := None;
    }

    /** Calls the disposer under the lock; `disposeErr` is what it returns. */
    method Dispose(disposeErr: Option<string>) returns (e: Option<string>)
      modifies this`state, this`disposer, this`ran
      ensures Value() == DisposeDone(old(Value()))
      ensures if old(state).Active? || old(state).Failed? then
                && state.Disposed? && disposer == None
                && ran == old(ran) + if old(disposer).Some? then [old(disposer).value] else []
              else Value() == old(Value()) && ran == old(ran)
      ensures e.Some? <==>
                if old(state).Disposed? then false
                else if old(state).Active? || old(state).Failed? then old(disposer).Some? && disposeErr.Some?
                else true
    {
      if state == State.Disposed {
        return None;
      }
      if state != Active && state != Failed {
        return Some("fiber: cannot dispose plugin " + name);
      }
      e := None;
      if disposer.Some? {
        ran := ran + [disposer.value];
        e := disposeErr;
        disposer := None;
      }
      state := State.Disposed;
    }

    /** The loader, the configuration and the epoch that are given are taken over; the others stay. */
    predicate Takes(was: Fields, args: ReloadArgs)
      reads this
    {
      && loader == (if args.loader.Some? then args.loader.value else was.loader)
      && config == (if args.config.Some? then args.config else was.config)
      && epoch == if args.epoch == "" then was.epoch else args.epoch
    }

    /** Up to the release of the lock. */
    method BeginReload(args: ReloadArgs) returns (plan: ReloadPlan)
      modifies this`state, this`disposer, this`loader, this`config, this`epoch
      ensures plan == PlanReload(old(Value()), args)
      ensures Value() == ReloadBegun(old(Value()), args)
      ensures plan.Rejected? <==> !old(state).Active? && !old(state).Failed?
      ensures plan.Skipped? <==> !plan.Rejected? && Reloaded(old(Value()), args)
      ensures plan.DisposeThenLoad? ==> old(state).Active? && old(disposer) == Some(plan.disposer) && disposer == None
      ensures plan.LoadNext? ==> !(old(state).Active? && old(disposer).Some?) && disposer == old(disposer)
      ensures if plan.Rejected? || plan.Skipped? then Value() == old(Value())
              else state.Pending? && Takes(old(Value()), args)
    {
      if state != Active && state != Failed {
        return Rejected;
      }
      if args.config.None? && args.epoch != "" && args.epoch == epoch {
        return Skipped;
      }
      if args.loader.Some? {
        loader := args.loader.value;
      }
      if args.config.Some? {
        config := args.config;
      }
      if args.epoch != "" {
        epoch := args.epoch;
      }
      if state == Active && disposer.Some? {
        plan := DisposeThenLoad(disposer.value);
        disposer := None;
        state := Pending;
      } else {
        state := Pending;
        plan := LoadNext;
      }
    }

    /** An undisturbed Load. */
    method Load(outcome: LoaderOutcome) returns (e: Option<string>)
      modifies this`state, this`err, this`disposer
      ensures CanLoad(old(Value())) ==>
                Value() == LoadEnded(LoadBegun(old(Value())), outcome) && e.Some? == outcome.err.Some?
      ensures !CanLoad(old(Value())) ==> Value() == old(Value()) && e.Some?
    {
      var started := BeginLoad();
      if started.None? {
        return Some("fiber: cannot load plugin " + name);
      }
      e := EndLoad(outcome);
    }

    /** An undisturbed Reload runs the old disposer, if there is one, before the new loader. */
    method Reload(args: ReloadArgs, disposeErr: Option<string>, outcome: LoaderOutcome) returns (e: Option<string>)
      modifies this
      ensures if !old(state).Active? && !old(state).Failed? then e.Some? && Value() == old(Value()) && ran == old(ran)
              else if Reloaded(old(Value()), args) then e == None && Value() == old(Value()) && ran == old(ran)
              else
                var disposes := old(state).Active? && old(disposer).Some?;
                && ran == old(ran) + (if disposes then [old(disposer).value] else [])
                && Takes(old(Value()), args)
                && (if outcome.err.Some? then state.Failed? && err == outcome.err
                                              && disposer == if disposes then None else old(disposer)
                    else state.Active? && err == None && disposer == outcome.disposer)
                && e.Some? == (outcome.err.Some? || (disposes && disposeErr.Some?))
    {
      var plan := BeginReload(args);
      if plan.Rejected? {
        return Some("fiber: cannot reload plugin " + name);
      }
      if plan.Skipped? {
        return None;
      }
      var disposeFailed := None;
      if plan.DisposeThenLoad? {
        ran := ran + [plan.disposer];
        disposeFailed := disposeErr;
      }
      var loadFailed := Load(outcome);
      if disposeFailed.Some? && loadFailed.Some? {
        return Some("fiber: reload plugin " + name + " failed: dispose error: " + disposeFailed.value
                    + ", load error: " + loadFailed.value);
      }
      if disposeFailed.Some? {
        return Some("fiber: reload plugin " + name + ": dispose error: " + disposeFailed.value);
      }
      e := loadFailed;
    }
  }

  // ---------------------------------------------------------------- interleavings

  /** Where a goroutine stands between two critical sections. */
  datatype Pc = Idle | InLoader | BeforeDisposer(disposer: nat) | BeforeLoad

  /** One goroutine's next atomic step; a step that its goroutine cannot take changes nothing. */
  datatype Step =
    | StepLoad(i: nat)                              // a Load, or the Load inside a Reload
    | StepLoaderReturns(i: nat, disposes: bool, err: Option<string>)
    | StepDispose(i: nat)
    | StepReload(i: nat, args: ReloadArgs)
    | StepRunDisposer(i: nat)

  /** A fiber, the goroutines that use it, and what has become of the disposers. */
  datatype System = System(fiber: Fields, threads: seq<Pc>, made: nat, ran: multiset<nat>, discarded: multiset<nat>)

  function Enter(s: System, i: nat, fiber: Fields, pc: Pc): System
    requires i < |s.threads|
  {
    s.(fiber := fiber, threads := s.threads[i := pc])
  }

  function After(s: System, step: Step): System {
    if step.i >= |s.threads| then s
    else
      var pc := s.threads[step.i];
      match step
      case StepLoad(i) =>
        if !pc.Idle? && !pc.BeforeLoad? then s
        else Enter(s, i, LoadBegun(s.fiber), if CanLoad(s.fiber) then InLoader else Idle)
      case StepLoaderReturns(i, disposes, err) =>
        if !pc.InLoader? then s
        else
          var d := if disposes then Some(s.made) else None;
          Enter(s, i, LoadEnded(s.fiber, LoaderOutcome(d, err)), Idle)
            .(made := s.made + if disposes then 1 else 0,
              discarded := s.discarded + if disposes && err.Some? then multiset{s.made} else multiset{})
      case StepDispose(i) =>
        if !pc.Idle? then s
        else
          Enter(s, i, DisposeDone(s.fiber), Idle)
            .(ran := s.ran + if CanDispose(s.fiber) && s.fiber.disposer.Some? then multiset{s.fiber.disposer.value}
                             else multiset{})
      case StepReload(i, args) =>
        if !pc.Idle? then s
        else
          Enter(s, i, ReloadBegun(s.fiber, args),
                match PlanReload(s.fiber, args)
                case Rejected => Idle
                case Skipped => Idle
                case LoadNext => BeforeLoad
                case DisposeThenLoad(d) => BeforeDisposer(d))
      case StepRunDisposer(i) =>
        if !pc.BeforeDisposer? then s
        else Enter(s, i, s.fiber, BeforeLoad).(ran := s.ran + multiset{pc.disposer})
  }

  function Run(s: System, steps: seq<Step>): System {
    if steps == [] then s else After(Run(s, steps[..|steps| - 1]), steps[|steps| - 1])
  }

  function IdleThreads(n: nat): (t: seq<Pc>)
    ensures |t| == n && forall i | 0 <= i < n :: t[i] == Idle
  {
    if n == 0 then [] else IdleThreads(n - 1) + [Idle]
  }

  function Initial(n: nat, loader: nat, config: Option<string>): System {
    System(New(loader, config), IdleThreads(n), 0, multiset{}, multiset{})
  }

  function Loads(pc: Pc): nat {
    if pc.InLoader? then 1 else 0
  }

  function Hands(pc: Pc, d: nat): nat {
    if pc == BeforeDisposer(d) then 1 else 0
  }

  function LoadersIn(threads: seq<Pc>): nat {
    if threads == [] then 0 else LoadersIn(threads[..|threads| - 1]) + Loads(threads[|threads| - 1])
  }

  /** How many Reloads have taken disposer `d` and not called it yet. */
  function InHands(threads: seq<Pc>, d: nat): nat {
    if threads == [] then 0 else InHands(threads[..|threads| - 1], d) + Hands(threads[|threads| - 1], d)
  }

  function Held(f: Fields, d: nat): nat {
    if f.disposer == Some(d) then 1 else 0
  }

  /** How often disposer `d` was run, is about to be run by a Reload, is held, or was dropped with an error. */
  function Traces(s: System, d: nat): nat {
    s.ran[d] + InHands(s.threads, d) + Held(s.fiber, d) + s.discarded[d]
  }

  predicate AccountedFor(s: System, d: nat) {
    Traces(s, d) == if d < s.made then 1 else 0
  }

  ghost predicate Inv(s: System) {
    && LoadersIn(s.threads) == (if s.fiber.state.Loading? then 1 else 0)
    && (s.fiber.disposer.Some? ==> s.fiber.state.Active?)
    && forall d: nat :: AccountedFor(s, d)
  }

  /** Moving one goroutine changes the totals by exactly what it held. */
  lemma {:induction false} UpdateTotals(threads: seq<Pc>, i: nat, pc: Pc, d: nat)
    requires i < |threads|
    ensures LoadersIn(threads[i := pc]) + Loads(threads[i]) == LoadersIn(threads) + Loads(pc)
    ensures InHands(threads[i := pc], d) + Hands(threads[i], d) == InHands(threads, d) + Hands(pc, d)
  {
    var last := |threads| - 1;
    if i == last {
      assert threads[i := pc][..last] == threads[..last];
    } else {
      assert threads[i := pc][..last] == threads[..last][i := pc];
      UpdateTotals(threads[..last], i, pc, d);
    }
  }

  lemma {:induction false} IdleTotals(n: nat, d: nat)
    ensures LoadersIn(IdleThreads(n)) == 0 && InHands(IdleThreads(n), d) == 0
  {
    if n > 0 {
      IdleTotals(n - 1, d);
      assert IdleThreads(n)[..n - 1] == IdleThreads(n - 1);
    }
  }

  lemma {:induction false} OneOfMany(threads: seq<Pc>, i: nat)
    requires i < |threads|
    ensures LoadersIn(threads) >= Loads(threads[i])
  {
    if i < |threads| - 1 {
      OneOfMany(threads[..|threads| - 1], i);
    }
  }

  lemma {:induction false} TwoOfMany(threads: seq<Pc>, i: nat, j: nat)
    requires i < j < |threads|
    ensures LoadersIn(threads) >= Loads(threads[i]) + Loads(threads[j])
  {
    if j < |threads| - 1 {
      TwoOfMany(threads[..|threads| - 1], i, j);
    } else {
      OneOfMany(threads[..j], i);
    }
  }

  lemma StepAccounts(s: System, step: Step, d: nat)
    requires Inv(s)
    ensures AccountedFor(After(s, step), d)
  {
    hide LoadersIn, InHands;
    assert AccountedFor(s, d);
    if step.i < |s.threads| {
      OneOfMany(s.threads, step.i);
      UpdateTotals(s.threads, step.i, After(s, step).threads[step.i], d);
      assert s.threads[step.i := s.threads[step.i]] == s.threads;
    }
  }

  /** Every atomic step keeps the invariant. */
  lemma StepKeepsInv(s: System, step: Step)
    requires Inv(s)
    ensures Inv(After(s, step))
  {
    hide AccountedFor, LoadersIn;
    forall d: nat
      ensures AccountedFor(After(s, step), d)
    {
      StepAccounts(s, step, d);
    }
    if step.i < |s.threads| {
      OneOfMany(s.threads, step.i);
      UpdateTotals(s.threads, step.i, After(s, step).threads[step.i], 0);
    }
  }

  lemma {:induction false} RunKeepsInv(n: nat, loader: nat, config: Option<string>, steps: seq<Step>)
    ensures Inv(Run(Initial(n, loader, config), steps))
    ensures |Run(Initial(n, loader, config), steps).threads| == n
  {
    hide Inv, After;
    if steps == [] {
      InitialInv(n, loader, config);
    } else {
      RunKeepsInv(n, loader, config, steps[..|steps| - 1]);
      StepKeepsInv(Run(Initial(n, loader, config), steps[..|steps| - 1]), steps[|steps| - 1]);
      SameThreads(Run(Initial(n, loader, config), steps[..|steps| - 1]), steps[|steps| - 1]);
    }
  }

  lemma InitialInv(n: nat, loader: nat, config: Option<string>)
    ensures Inv(Initial(n, loader, config))
  {
    IdleTotals(n, 0);
    forall d: nat
      ensures AccountedFor(Initial(n, loader, config), d)
    {
      IdleTotals(n, d);
    }
  }

  lemma SameThreads(s: System, step: Step)
    ensures |After(s, step).threads| == |s.threads|
  {
  }

  // ---------------------------------------------------------------- what every run guarantees

  /** In every interleaving of any number of goroutines: never two loaders at once, one exactly in state
      loading; a held disposer means active; every disposer is in exactly one place, so none is lost or run twice. */
  lemma EveryInterleaving(n: nat, loader: nat, config: Option<string>, steps: seq<Step>)
    ensures var s := Run(Initial(n, loader, config), steps);
            && (forall i, j | 0 <= i < j < |s.threads| :: !(s.threads[i].InLoader? && s.threads[j].InLoader?))
            && (forall i | 0 <= i < |s.threads| :: s.threads[i].InLoader? ==> s.fiber.state.Loading?)
            && (s.fiber.disposer.Some? ==> s.fiber.state.Active?)
            && forall d: nat :: Traces(s, d) == if d < s.made then 1 else 0
  {
    hide LoadersIn, Run, Initial;
    var s := Run(Initial(n, loader, config), steps);
    RunKeepsInv(n, loader, config, steps);
    forall i, j | 0 <= i < j < |s.threads|
      ensures !(s.threads[i].InLoader? && s.threads[j].InLoader?)
    {
      TwoOfMany(s.threads, i, j);
    }
    forall i | 0 <= i < |s.threads|
      ensures s.threads[i].InLoader? ==> s.fiber.state.Loading?
    {
      OneOfMany(s.threads, i);
    }
    forall d: nat
      ensures Traces(s, d) == if d < s.made then 1 else 0
    {
      assert AccountedFor(s, d);
    }
  }

  /** Once disposed, no step changes the fiber, no loader runs, and no disposer is left but those a Reload still
      holds. */
  lemma {:induction false} DisposedForGood(s: System, steps: seq<Step>)
    requires Inv(s) && s.fiber.state.Disposed?
    ensures Inv(Run(s, steps)) && Run(s, steps).fiber == s.fiber && Run(s, steps).made == s.made
    ensures LoadersIn(Run(s, steps).threads) == 0
  {
    if steps != [] {
      var before := Run(s, steps[..|steps| - 1]);
      var step := steps[|steps| - 1];
      DisposedForGood(s, steps[..|steps| - 1]);
      StepKeepsInv(before, step);
      DisposedStep(before, step);
    }
  }

  lemma DisposedStep(s: System, step: Step)
    requires Inv(s) && s.fiber.state.Disposed?
    ensures After(s, step).fiber == s.fiber && After(s, step).made == s.made
  {
    if step.i < |s.threads| {
      OneOfMany(s.threads, step.i);
    }
  }

  /** When all goroutines have returned and the fiber is not active, every disposer of a successful load has run,
      once. */
  lemma NothingLeaks(n: nat, loader: nat, config: Option<string>, steps: seq<Step>)
    requires Run(Initial(n, loader, config), steps).threads == IdleThreads(n)
    requires !Run(Initial(n, loader, config), steps).fiber.state.Active?
    ensures var s := Run(Initial(n, loader, config), steps);
            forall d: nat | d < s.made :: s.ran[d] + s.discarded[d] == 1
  {
    hide Run, Initial;
    var s := Run(Initial(n, loader, config), steps);
    RunKeepsInv(n, loader, config, steps);
    forall d: nat | d < s.made
      ensures s.ran[d] + s.discarded[d] == 1
    {
      assert AccountedFor(s, d);
      IdleTotals(n, d);
    }
  }

  /** A running loader returns a disposer together with an error. */
  predicate Drops(s: System, step: Step) {
    && step.StepLoaderReturns? && step.i < |s.threads| && s.threads[step.i].InLoader?
    && step.disposes && step.err.Some?
  }

  /** A disposer is dropped exactly there; it is the one just made. */
  lemma DroppedExactly(s: System, step: Step)
    ensures After(s, step).discarded == s.discarded + if Drops(s, step) then multiset{s.made} else multiset{}
  {
    assert s.discarded + multiset{} == s.discarded;
  }

  /** A run drops nothing exactly when no loader in it returns a disposer together with an error. */
  lemma {:induction false} OnlyFailedLoadsDrop(s: System, steps: seq<Step>)
    requires s.discarded == multiset{}
    ensures Run(s, steps).discarded == multiset{}
       <==> forall k | 0 <= k < |steps| :: !Drops(Run(s, steps[..k]), steps[k])
  {
    hide Run, After, Drops;
    if steps == [] {
      NoSteps(s);
    } else {
      var n := |steps| - 1;
      OnlyFailedLoadsDrop(s, steps[..n]);
      OneMoreStep(s, steps, n);
      DroppedExactly(Run(s, steps[..n]), steps[n]);
      assert forall k | 0 <= k < n :: steps[..n][..k] == steps[..k];
      assert steps[..|steps|] == steps;
    }
  }

  lemma NoSteps(s: System)
    ensures Run(s, []) == s
  {
  }

  lemma OneMoreStep(s: System, steps: seq<Step>, k: nat)
    requires k < |steps|
    ensures Run(s, steps[..k + 1]) == After(Run(s, steps[..k]), steps[k])
  {
    assert steps[..k + 1][..k] == steps[..k];
  }
}
