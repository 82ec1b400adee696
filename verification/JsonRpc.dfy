/** Matching JSON-RPC responses to concurrent callers (crux-plugin/process.go; JSON-RPC 2.0, sections 4 and 5). */
module JsonRpc {
  import opened Wrappers

  /** A response frame; `serial` numbers the frames the reader has matched to a caller. */
  datatype Response = Response(id: int, body: string, serial: nat)

  datatype Outcome = Answered(response: Response) | NotRunning | WriteFailed | Cancelled | BadRequest

  datatype Pc = Starting | Allocated | Registered | Waiting | Leaving(outcome: Outcome) | Returned(outcome: Outcome)

  /** One goroutine inside Call: `id` is its request id, 0 before it has one; `slot` is its channel of capacity one. */
  datatype Caller = Caller(pc: Pc, id: int, slot: Option<Response>)

  /** The reader between the lookup, under the lock, and the send, outside it. */
  datatype Reader = Scanning | Sending(response: Response, caller: nat)

  datatype System = System(running: bool, nextId: int, pending: map<int, nat>, callers: seq<Caller>,
                           reader: Reader, matched: nat)

  datatype Step =
    | Allocate(i: nat, marshals: bool)
    | Register(i: nat)
    | Write(i: nat, ok: bool)
    | Cancel(i: nat)
    | Receive(i: nat)
    | Unregister(i: nat)
    | ReadResponse(id: int, body: string)
    | ReadOther                            // a notification, or a line that is no JSON
    | Send
    | Stop

  function With(s: System, i: nat, c: Caller): System
    requires i < |s.callers|
  {
    s.(callers := s.callers[i := c])
  }

  /** A step that its goroutine cannot take changes nothing; a full channel blocks the reader. */
  function After(s: System, step: Step): System {
    match step
    case Stop => s.(running := false)
    case ReadOther => s
    case ReadResponse(id, body) =>
      if s.reader.Scanning? && id in s.pending
      then s.(reader := Sending(Response(id, body, s.matched), s.pending[id]), matched := s.matched + 1)
      else s
    case Send =>
      if s.reader.Sending? && s.reader.caller < |s.callers| && s.callers[s.reader.caller].slot.None?
      then With(s, s.reader.caller, s.callers[s.reader.caller].(slot := Some(s.reader.response))).(reader := Scanning)
      else s
    case Allocate(i, marshals) =>
      if i < |s.callers| && s.callers[i].pc.Starting?
      then
        var pc := if marshals then Allocated else Returned(BadRequest);
        With(s, i, Caller(pc, s.nextId + 1, None)).(nextId := s.nextId + 1)
      else s
    case Register(i) =>
      if i >= |s.callers| || !s.callers[i].pc.Allocated? then s
      else if !s.running then With(s, i, s.callers[i].(pc := Returned(NotRunning)))
      else With(s, i, s.callers[i].(pc := Registered)).(pending := s.pending[s.callers[i].id := i])
    case Write(i, ok) =>
      if i < |s.callers| && s.callers[i].pc.Registered?
      then With(s, i, s.callers[i].(pc := if ok then Waiting else Leaving(WriteFailed)))
      else s
    case Cancel(i) =>
      if i < |s.callers| && s.callers[i].pc.Waiting? then With(s, i, s.callers[i].(pc := Leaving(Cancelled))) else s
    case Receive(i) =>
      if i < |s.callers| && s.callers[i].pc.Waiting? && s.callers[i].slot.Some?
      then With(s, i, Caller(Leaving(Answered(s.callers[i].slot.value)), s.callers[i].id, None))
      else s
    case Unregister(i) =>
      if i < |s.callers| && s.callers[i].pc.Leaving?
      then With(s, i, s.callers[i].(pc := Returned(s.callers[i].pc.outcome))).(pending := s.pending - {s.callers[i].id})
      else s
  }

  function Run(s: System, steps: seq<Step>): System {
    if steps == [] then s else After(Run(s, steps[..|steps| - 1]), steps[|steps| - 1])
  }

  function Starters(n: nat): (c: seq<Caller>)
    ensures |c| == n && forall i | 0 <= i < n :: c[i] == Caller(Starting, 0, None)
  {
    if n == 0 then [] else Starters(n - 1) + [Caller(Starting, 0, None)]
  }

  function Initial(n: nat): System {
    System(true, 0, map[], Starters(n), Scanning, 0)
  }

  // ---------------------------------------------------------------- the invariant

  /** From registration until the deferred deletion. */
  predicate Inside(c: Caller) {
    c.pc.Registered? || c.pc.Waiting? || c.pc.Leaving?
  }

  function Delivered(c: Caller): Option<Response> {
    if (c.pc.Leaving? || c.pc.Returned?) && c.pc.outcome.Answered? then Some(c.pc.outcome.response) else None
  }

  predicate CallerOk(s: System, i: nat)
    requires i < |s.callers|
  {
    var c := s.callers[i];
    && (c.pc.Starting? <==> c.id == 0)
    && 0 <= c.id <= s.nextId
    && (c.slot.Some? ==> c.slot.value.id == c.id && !c.pc.Starting? && !c.pc.Allocated?)
    && (Delivered(c).Some? ==> Delivered(c).value.id == c.id)
    && (Inside(c) ==> c.id in s.pending && s.pending[c.id] == i)
  }

  predicate PendingOk(s: System, id: int)
    requires id in s.pending
  {
    s.pending[id] < |s.callers| && s.callers[s.pending[id]].id == id && Inside(s.callers[s.pending[id]])
  }

  predicate ReaderOk(s: System) {
    s.reader.Sending? ==>
      && s.reader.caller < |s.callers| && s.callers[s.reader.caller].id == s.reader.response.id != 0
      && !s.callers[s.reader.caller].pc.Allocated?
  }

  /** Which responses are counted: one matched frame, or all with an id. */
  datatype Key = BySerial(serial: nat) | ById(id: int)

  function Counts(r: Response, k: Key): nat {
    match k
    case BySerial(serial) => if r.serial == serial then 1 else 0
    case ById(id) => if r.id == id then 1 else 0
  }

  /** How many counted responses are in the channel of the caller, or delivered to it. */
  function HeldBy(c: Caller, k: Key): nat {
    (if c.slot.Some? then Counts(c.slot.value, k) else 0)
        + (if Delivered(c).Some? then Counts(Delivered(c).value, k) else 0)
  }

  function HeldByAll(callers: seq<Caller>, k: Key): nat {
    if callers == [] then 0 else HeldByAll(callers[..|callers| - 1], k) + HeldBy(callers[|callers| - 1], k)
  }

  function InHand(r: Reader, k: Key): nat {
    if r.Sending? then Counts(r.response, k) else 0
  }

  function Places(s: System, k: Key): nat {
    HeldByAll(s.callers, k) + InHand(s.reader, k)
  }

  predicate InOnePlace(s: System, serial: nat) {
    Places(s, BySerial(serial)) == if serial < s.matched then 1 else 0
  }

  predicate Apart(a: Caller, b: Caller) {
    a.id == b.id ==> a.id == 0
  }

  ghost predicate Inv(s: System) {
    && (forall i | 0 <= i < |s.callers| :: CallerOk(s, i))
    && (forall i, j | 0 <= i < j < |s.callers| :: Apart(s.callers[i], s.callers[j]))
    && (forall id | id in s.pending :: PendingOk(s, id))
    && ReaderOk(s)
    && s.nextId >= 0
    && forall serial: nat :: InOnePlace(s, serial)
  }

  lemma {:induction false} Updated(callers: seq<Caller>, i: nat, c: Caller, k: Key)
    requires i < |callers|
    ensures HeldByAll(callers[i := c], k) + HeldBy(callers[i], k) == HeldByAll(callers, k) + HeldBy(c, k)
  {
    var last := |callers| - 1;
    if i == last {
      assert callers[i := c][..last] == callers[..last];
    } else {
      assert callers[i := c][..last] == callers[..last][i := c];
      Updated(callers[..last], i, c, k);
    }
  }

  /** The caller a step changes, if any. */
  function Mover(s: System, step: Step): nat {
    match step
    case Allocate(i, _) => i
    case Register(i) => i
    case Write(i, _) => i
    case Cancel(i) => i
    case Receive(i) => i
    case Unregister(i) => i
    case Send => if s.reader.Sending? then s.reader.caller else 0
    case Stop => 0
    case ReadResponse(_, _) => 0
    case ReadOther => 0
  }

  lemma OneMoves(s: System, step: Step)
    ensures |After(s, step).callers| == |s.callers|
    ensures var i := Mover(s, step);
            if i < |s.callers| then After(s, step).callers == s.callers[i := After(s, step).callers[i]]
            else After(s, step).callers == s.callers
  {
  }

  lemma StepKeepsIds(s: System, step: Step)
    requires Inv(s)
    ensures var t := After(s, step);
            && t.nextId >= 0
            && forall i, j | 0 <= i < j < |t.callers| :: Apart(t.callers[i], t.callers[j])
  {
    hide InOnePlace, PendingOk;
    OneMoves(s, step);
    forall i, j | 0 <= i < j < |s.callers|
      ensures Apart(After(s, step).callers[i], After(s, step).callers[j])
    {
      assert CallerOk(s, i) && CallerOk(s, j) && Apart(s.callers[i], s.callers[j]);
    }
  }

  lemma StepKeepsCaller(s: System, step: Step, i: nat)
    requires Inv(s) && i < |s.callers|
    ensures CallerOk(After(s, step), i)
  {
    hide InOnePlace, PendingOk;
    assert CallerOk(s, i);
    OneMoves(s, step);
    if Mover(s, step) < |s.callers| {
      assert CallerOk(s, Mover(s, step));
    }
  }

  lemma StepKeepsPending(s: System, step: Step, id: int)
    requires Inv(s) && id in After(s, step).pending
    ensures PendingOk(After(s, step), id)
  {
    hide InOnePlace;
    OneMoves(s, step);
    var i := Mover(s, step);
    if i < |s.callers| {
      assert CallerOk(s, i);
    }
    if id in s.pending {
      assert PendingOk(s, id) && CallerOk(s, s.pending[id]);
    }
  }

  lemma StepKeepsReader(s: System, step: Step)
    requires Inv(s)
    ensures ReaderOk(After(s, step))
  {
    hide InOnePlace;
    OneMoves(s, step);
    if s.reader.Sending? {
      assert CallerOk(s, s.reader.caller);
    }
    if step.ReadResponse? && step.id in s.pending {
      assert PendingOk(s, step.id) && CallerOk(s, s.pending[step.id]);
    }
  }

  lemma StepKeepsPlace(s: System, step: Step, serial: nat)
    requires Inv(s)
    ensures InOnePlace(After(s, step), serial)
  {
    hide PendingOk, Apart, HeldByAll, ReaderOk;
    assert InOnePlace(s, serial);
    OneMoves(s, step);
    var i := Mover(s, step);
    if i < |s.callers| {
      assert CallerOk(s, i);
      Updated(s.callers, i, After(s, step).callers[i], BySerial(serial));
    }
  }

  /** Every atomic step keeps the invariant. */
  lemma StepKeepsInv(s: System, step: Step)
    requires Inv(s)
    ensures Inv(After(s, step))
  {
    hide CallerOk, PendingOk, ReaderOk, InOnePlace, After;
    StepKeepsIds(s, step);
    StepKeepsReader(s, step);
    forall i | 0 <= i < |After(s, step).callers|
      ensures CallerOk(After(s, step), i)
    {
      OneMoves(s, step);
      StepKeepsCaller(s, step, i);
    }
    forall id | id in After(s, step).pending
      ensures PendingOk(After(s, step), id)
    {
      StepKeepsPending(s, step, id);
    }
    forall serial: nat
      ensures InOnePlace(After(s, step), serial)
    {
      StepKeepsPlace(s, step, serial);
    }
  }

  lemma {:induction false} RunKeepsInv(n: nat, steps: seq<Step>)
    ensures Inv(Run(Initial(n), steps)) && |Run(Initial(n), steps).callers| == n
  {
    if steps == [] {
      forall serial: nat
        ensures InOnePlace(Initial(n), serial)
      {
        NothingHeld(n, BySerial(serial));
      }
    } else {
      RunKeepsInv(n, steps[..|steps| - 1]);
      StepKeepsInv(Run(Initial(n), steps[..|steps| - 1]), steps[|steps| - 1]);
      OneMoves(Run(Initial(n), steps[..|steps| - 1]), steps[|steps| - 1]);
    }
  }

  lemma {:induction false} NothingHeld(n: nat, k: Key)
    ensures HeldByAll(Starters(n), k) == 0
  {
    if n > 0 {
      NothingHeld(n - 1, k);
      assert Starters(n)[..n - 1] == Starters(n - 1);
    }
  }

  lemma {:induction false} HolderCounts(callers: seq<Caller>, i: nat, k: Key)
    requires i < |callers|
    ensures HeldByAll(callers, k) >= HeldBy(callers[i], k)
  {
    if i < |callers| - 1 {
      HolderCounts(callers[..|callers| - 1], i, k);
    }
  }

  lemma {:induction false} HoldersCount(callers: seq<Caller>, i: nat, j: nat, k: Key)
    requires i < j < |callers|
    ensures HeldByAll(callers, k) >= HeldBy(callers[i], k) + HeldBy(callers[j], k)
  {
    if j < |callers| - 1 {
      HoldersCount(callers[..|callers| - 1], i, j, k);
    } else {
      HolderCounts(callers[..j], i, k);
    }
  }

  // ---------------------------------------------------------------- what every run guarantees

  /** Request ids are pairwise distinct. */
  lemma DistinctIds(n: nat, steps: seq<Step>)
    ensures var s := Run(Initial(n), steps);
            forall i, j | 0 <= i < j < |s.callers| && !s.callers[i].pc.Starting? :: s.callers[i].id != s.callers[j].id
  {
    var s := Run(Initial(n), steps);
    RunKeepsInv(n, steps);
    forall i, j | 0 <= i < j < |s.callers| && !s.callers[i].pc.Starting?
      ensures s.callers[i].id != s.callers[j].id
    {
      assert CallerOk(s, i) && Apart(s.callers[i], s.callers[j]);
    }
  }

  /** The pending map holds exactly the registered calls that have not returned, each under its own id. */
  lemma PendingIsInside(n: nat, steps: seq<Step>)
    ensures var s := Run(Initial(n), steps);
            && (forall i | 0 <= i < |s.callers| :: Inside(s.callers[i]) <==> s.callers[i].id in s.pending)
            && forall id | id in s.pending :: s.pending[id] < |s.callers| && s.callers[s.pending[id]].id == id
  {
    var s := Run(Initial(n), steps);
    RunKeepsInv(n, steps);
    forall i | 0 <= i < |s.callers|
      ensures Inside(s.callers[i]) <==> s.callers[i].id in s.pending
    {
      assert CallerOk(s, i);
      if s.callers[i].id in s.pending {
        assert PendingOk(s, s.callers[i].id);
        assert CallerOk(s, s.pending[s.callers[i].id]);
      }
    }
    assert forall id | id in s.pending :: PendingOk(s, id);
  }

  /** A delivered response bears the caller's id, and no response is delivered to two callers. */
  lemma OwnResponseOnly(n: nat, steps: seq<Step>)
    ensures var s := Run(Initial(n), steps);
            && (forall i | 0 <= i < |s.callers| && Delivered(s.callers[i]).Some? ::
                Delivered(s.callers[i]).value.id == s.callers[i].id)
            && forall i, j | 0 <= i < j < |s.callers|
                             && Delivered(s.callers[i]).Some? && Delivered(s.callers[j]).Some? ::
                 Delivered(s.callers[i]).value.serial != Delivered(s.callers[j]).value.serial
  {
    var s := Run(Initial(n), steps);
    RunKeepsInv(n, steps);
    forall i | 0 <= i < |s.callers| && Delivered(s.callers[i]).Some?
      ensures Delivered(s.callers[i]).value.id == s.callers[i].id
    {
      assert CallerOk(s, i);
    }
    forall i, j | 0 <= i < j < |s.callers| && Delivered(s.callers[i]).Some? && Delivered(s.callers[j]).Some?
      ensures Delivered(s.callers[i]).value.serial != Delivered(s.callers[j]).value.serial
    {
      var serial := Delivered(s.callers[i]).value.serial;
      assert InOnePlace(s, serial);
      HoldersCount(s.callers, i, j, BySerial(serial));
    }
  }

  /** A matched response is in the reader's hand, in one channel, or delivered: none is lost or doubled. */
  lemma MatchedOnce(n: nat, steps: seq<Step>, serial: nat)
    ensures var s := Run(Initial(n), steps);
            Places(s, BySerial(serial)) == if serial < s.matched then 1 else 0
  {
    hide HeldByAll;
    RunKeepsInv(n, steps);
    assert InOnePlace(Run(Initial(n), steps), serial);
  }

  /** The steps that led caller `i` where it stands. */
  predicate LedTo(steps: seq<Step>, i: nat, pc: Pc) {
    match pc
    case Starting => true
    case Allocated => Allocate(i, true) in steps
    case Registered => Allocate(i, true) in steps
    case Waiting => Write(i, true) in steps
    case Leaving(outcome) => Led(steps, i, outcome)
    case Returned(outcome) => Led(steps, i, outcome)
  }

  predicate Led(steps: seq<Step>, i: nat, outcome: Outcome) {
    match outcome
    case Answered(_) => Write(i, true) in steps && Receive(i) in steps
    case NotRunning => Stop in steps
    case WriteFailed => Write(i, false) in steps
    case Cancelled => Write(i, true) in steps && Cancel(i) in steps
    case BadRequest => Allocate(i, false) in steps
  }

  lemma StillLed(steps: seq<Step>, step: Step, i: nat, pc: Pc)
    requires LedTo(steps, i, pc)
    ensures LedTo(steps + [step], i, pc)
  {
    assert forall x | x in steps :: x in steps + [step];
  }

  lemma LedByStep(s: System, steps: seq<Step>, step: Step, i: nat)
    requires i < |s.callers| && LedTo(steps, i, s.callers[i].pc) && (!s.running ==> Stop in steps)
    ensures i < |After(s, step).callers| && LedTo(steps + [step], i, After(s, step).callers[i].pc)
  {
    OneMoves(s, step);
    StillLed(steps, step, i, s.callers[i].pc);
    assert step in steps + [step];
    assert forall x | x in steps :: x in steps + [step];
  }

  lemma StoppedByStep(s: System, steps: seq<Step>, step: Step)
    requires !s.running ==> Stop in steps
    ensures |After(s, step).callers| == |s.callers| && (!After(s, step).running ==> Stop in steps + [step])
  {
    OneMoves(s, step);
    assert step in steps + [step];
    assert forall x | x in steps :: x in steps + [step];
  }

  /** What a call returns tells what happened to it: a failed write, a cancellation, a bad request, a process that had
      been stopped, or a response received after a successful write. */
  lemma {:induction false} OutcomesTell(n: nat, steps: seq<Step>)
    ensures var s := Run(Initial(n), steps);
            && |s.callers| == n && (!s.running ==> Stop in steps)
            && forall i | 0 <= i < n :: LedTo(steps, i, s.callers[i].pc)
  {
    if steps != [] {
      var front, step := steps[..|steps| - 1], steps[|steps| - 1];
      OutcomesTell(n, front);
      hide LedTo, After;
      var s := Run(Initial(n), front);
      StoppedByStep(s, front, step);
      assert steps == front + [step];
      forall i | 0 <= i < n
        ensures LedTo(steps, i, After(s, step).callers[i].pc)
      {
        LedByStep(s, front, step, i);
      }
    }
  }

  /** Once the process has been stopped no call is registered any more. */
  lemma {:induction false} StoppedAdmitsNobody(s: System, steps: seq<Step>)
    requires !s.running
    ensures !Run(s, steps).running && Run(s, steps).pending.Keys <= s.pending.Keys
  {
    if steps != [] {
      StoppedAdmitsNobody(s, steps[..|steps| - 1]);
    }
  }

  /** The steps of a call whose response comes back before anything else happens. */
  function WholeCall(i: nat, id: int, body: string): seq<Step> {
    [Allocate(i, true), Register(i), Write(i, true), ReadResponse(id, body), Send, Receive(i), Unregister(i)]
  }

  /** Such a call returns that response, unless the process has been stopped: then it is refused. */
  lemma UndisturbedCall(s: System, i: nat, body: string)
    requires i < |s.callers| && s.callers[i].pc.Starting? && s.reader.Scanning?
    ensures var id := s.nextId + 1;
            var t := Run(s, WholeCall(i, id, body));
            && i < |t.callers|
            && if s.running then
                 t.callers[i].pc == Returned(Answered(Response(id, body, s.matched))) && t.pending == s.pending - {id}
               else id !in s.pending ==> t.callers[i].pc == Returned(NotRunning) && t.pending == s.pending
  {
    hide Run;
    SevenSteps(s, WholeCall(i, s.nextId + 1, body));
  }

  lemma SevenSteps(s: System, steps: seq<Step>)
    requires |steps| == 7
    ensures Run(s, steps) == After(After(After(After(After(After(After(s,
              steps[0]), steps[1]), steps[2]), steps[3]), steps[4]), steps[5]), steps[6])
  {
    hide After;
    assert steps[..0] == [] && steps[..7] == steps;
    forall k | 0 <= k < 7
      ensures Run(s, steps[..k + 1]) == After(Run(s, steps[..k]), steps[k])
    {
      assert steps[..k + 1][..k] == steps[..k];
    }
    hide Run;
    assert Run(s, steps[..7]) == After(Run(s, steps[..6]), steps[6]);
    assert Run(s, steps[..6]) == After(Run(s, steps[..5]), steps[5]);
    assert Run(s, steps[..5]) == After(Run(s, steps[..4]), steps[4]);
    assert Run(s, steps[..4]) == After(Run(s, steps[..3]), steps[3]);
    assert Run(s, steps[..3]) == After(Run(s, steps[..2]), steps[2]);
    assert Run(s, steps[..2]) == After(Run(s, steps[..1]), steps[1]);
    assert Run(s, steps[..1]) == After(Run(s, steps[..0]), steps[0]);
    RunNothing(s);
  }

  lemma RunNothing(s: System)
    ensures Run(s, []) == s
  {
  }

  /** The response is the one the plugin sent in step `t`, matched then, as the `serial`-th, to a pending call. */
  predicate ReadAt(n: nat, steps: seq<Step>, r: Response, t: nat) {
    && t < |steps| && steps[t] == ReadResponse(r.id, r.body)
    && var s := Run(Initial(n), steps[..t]);
       s.reader.Scanning? && r.id in s.pending && s.matched == r.serial
  }

  ghost predicate WasRead(n: nat, steps: seq<Step>, r: Response) {
    exists t: nat :: ReadAt(n, steps, r, t)
  }

  ghost predicate CallerGenuine(n: nat, steps: seq<Step>, c: Caller) {
    && (c.slot.Some? ==> WasRead(n, steps, c.slot.value))
    && (Delivered(c).Some? ==> WasRead(n, steps, Delivered(c).value))
  }

  ghost predicate Genuine(n: nat, steps: seq<Step>, s: System) {
    && (forall i | 0 <= i < |s.callers| :: CallerGenuine(n, steps, s.callers[i]))
    && (s.reader.Sending? ==> WasRead(n, steps, s.reader.response))
  }

  lemma StillRead(n: nat, steps: seq<Step>, step: Step, r: Response)
    requires WasRead(n, steps, r)
    ensures WasRead(n, steps + [step], r)
  {
    hide Run;
    var t: nat :| ReadAt(n, steps, r, t);
    assert (steps + [step])[..t] == steps[..t];
    assert ReadAt(n, steps + [step], r, t);
  }

  lemma StillGenuine(n: nat, steps: seq<Step>, step: Step, s: System)
    requires Genuine(n, steps, s)
    ensures Genuine(n, steps + [step], s)
  {
    hide WasRead;
    forall r | WasRead(n, steps, r)
      ensures WasRead(n, steps + [step], r)
    {
      StillRead(n, steps, step, r);
    }
    forall i | 0 <= i < |s.callers|
      ensures CallerGenuine(n, steps + [step], s.callers[i])
    {
      assert CallerGenuine(n, steps, s.callers[i]);
    }
  }

  lemma JustRead(n: nat, steps: seq<Step>, step: Step)
    requires step.ReadResponse?
    ensures var s := Run(Initial(n), steps);
            s.reader.Scanning? && step.id in s.pending ==>
              WasRead(n, steps + [step], Response(step.id, step.body, s.matched))
  {
    hide Run;
    var s := Run(Initial(n), steps);
    if s.reader.Scanning? && step.id in s.pending {
      assert (steps + [step])[..|steps|] == steps;
      assert ReadAt(n, steps + [step], Response(step.id, step.body, s.matched), |steps|);
    }
  }

  /** A step only moves responses, except where it reads one. */
  lemma GenuineStep(n: nat, steps: seq<Step>, step: Step)
    requires Genuine(n, steps, Run(Initial(n), steps)) && Inv(Run(Initial(n), steps))
    ensures Genuine(n, steps + [step], After(Run(Initial(n), steps), step))
  {
    hide Run, WasRead, InOnePlace, PendingOk, Apart;
    var s := Run(Initial(n), steps);
    StillGenuine(n, steps, step, s);
    if step.ReadResponse? {
      JustRead(n, steps, step);
    }
    OneMoves(s, step);
    forall i | 0 <= i < |s.callers|
      ensures CallerGenuine(n, steps + [step], After(s, step).callers[i])
    {
      assert CallerGenuine(n, steps + [step], s.callers[i]);
    }
  }

  lemma {:induction false} RunIsGenuine(n: nat, steps: seq<Step>)
    ensures Genuine(n, steps, Run(Initial(n), steps))
  {
    if steps != [] {
      var front, last := steps[..|steps| - 1], steps[|steps| - 1];
      RunIsGenuine(n, front);
      RunKeepsInv(n, front);
      GenuineStep(n, front, last);
      assert steps == front + [last];
    }
  }

  /** What a caller is given is, body included, a response that the plugin sent while that id was pending. */
  lemma DeliveredWasRead(n: nat, steps: seq<Step>, i: nat) returns (t: nat)
    requires i < |Run(Initial(n), steps).callers| && Delivered(Run(Initial(n), steps).callers[i]).Some?
    ensures ReadAt(n, steps, Delivered(Run(Initial(n), steps).callers[i]).value, t)
  {
    hide Run;
    RunIsGenuine(n, steps);
    assert CallerGenuine(n, steps, Run(Initial(n), steps).callers[i]);
    t :| ReadAt(n, steps, Delivered(Run(Initial(n), steps).callers[i]).value, t);
  }

  // ---------------------------------------------------------------- the reader and duplicate responses

  /** The reader waits for room in a channel that nobody will read again. */
  predicate Stuck(s: System) {
    && s.reader.Sending? && s.reader.caller < |s.callers|
    && s.callers[s.reader.caller].slot.Some?
    && (s.callers[s.reader.caller].pc.Leaving? || s.callers[s.reader.caller].pc.Returned?)
  }

  /** From then on no response reaches anybody any more. */
  lemma {:induction false} StuckForGood(s: System, steps: seq<Step>)
    requires Stuck(s)
    ensures Stuck(Run(s, steps)) && Run(s, steps).reader == s.reader && Run(s, steps).matched == s.matched
  {
    if steps != [] {
      StuckForGood(s, steps[..|steps| - 1]);
      OneMoves(Run(s, steps[..|steps| - 1]), steps[|steps| - 1]);
    }
  }

  /** The ids of the responses the plugin sent, in order. */
  function Responses(steps: seq<Step>): seq<int> {
    if steps == [] then []
    else
      var last := steps[|steps| - 1];
      Responses(steps[..|steps| - 1]) + if last.ReadResponse? then [last.id] else []
  }

  function SentCount(steps: seq<Step>, id: int): nat {
    multiset(Responses(steps))[id]
  }

  lemma SentOneMore(steps: seq<Step>, step: Step, id: int)
    ensures Responses(steps + [step]) == Responses(steps) + if step.ReadResponse? then [step.id] else []
    ensures SentCount(steps + [step], id) == SentCount(steps, id) + if step.ReadResponse? && step.id == id then 1 else 0
  {
    assert (steps + [step])[..|steps|] == steps;
  }

  lemma {:induction false} PlacesAreSent(n: nat, steps: seq<Step>, id: int)
    ensures Places(Run(Initial(n), steps), ById(id)) <= SentCount(steps, id)
  {
    if steps == [] {
      NothingHeld(n, ById(id));
    } else {
      hide Inv, Places, After, Responses, SentCount, Initial;
      var front, step := steps[..|steps| - 1], steps[|steps| - 1];
      RunKeepsInv(n, front);
      PlacesAreSent(n, front, id);
      SentOneMore(front, step, id);
      assert steps == front + [step];
      StepPlaces(Run(Initial(n), front), step, id);
    }
  }

  lemma StepPlaces(s: System, step: Step, id: int)
    requires Inv(s)
    ensures Places(After(s, step), ById(id)) <=
              Places(s, ById(id)) + if step.ReadResponse? && step.id == id then 1 else 0
  {
    hide PendingOk, InOnePlace;
    OneMoves(s, step);
    var i := Mover(s, step);
    if i < |s.callers| {
      assert CallerOk(s, i);
      Updated(s.callers, i, After(s, step).callers[i], ById(id));
    }
  }

  /** How many callers have drawn an id. */
  function Drawn(callers: seq<Caller>): (d: nat)
    ensures d <= |callers|
  {
    if callers == [] then 0 else Drawn(callers[..|callers| - 1]) + if callers[|callers| - 1].pc.Starting? then 0 else 1
  }

  lemma {:induction false} DrawnUpdated(callers: seq<Caller>, i: nat, c: Caller)
    requires i < |callers|
    ensures Drawn(callers[i := c]) + (if callers[i].pc.Starting? then 0 else 1)
         == Drawn(callers) + if c.pc.Starting? then 0 else 1
  {
    var last := |callers| - 1;
    if i == last {
      assert callers[i := c][..last] == callers[..last];
    } else {
      assert callers[i := c][..last] == callers[..last][i := c];
      DrawnUpdated(callers[..last], i, c);
    }
  }

  lemma {:induction false} NothingDrawn(n: nat)
    ensures Drawn(Starters(n)) == 0
  {
    if n > 0 {
      NothingDrawn(n - 1);
      assert Starters(n)[..n - 1] == Starters(n - 1);
    }
  }

  /** The id counter is the number of callers that have drawn, so no id exceeds the number of callers. */
  lemma {:induction false} NextIdIsDrawn(n: nat, steps: seq<Step>)
    ensures Run(Initial(n), steps).nextId == Drawn(Run(Initial(n), steps).callers)
    ensures |Run(Initial(n), steps).callers| == n
  {
    if steps == [] {
      NothingDrawn(n);
    } else {
      NextIdIsDrawn(n, steps[..|steps| - 1]);
      DrawnStep(Run(Initial(n), steps[..|steps| - 1]), steps[|steps| - 1]);
      OneMoves(Run(Initial(n), steps[..|steps| - 1]), steps[|steps| - 1]);
    }
  }

  lemma DrawnStep(s: System, step: Step)
    ensures After(s, step).nextId - s.nextId == Drawn(After(s, step).callers) - Drawn(s.callers)
  {
    OneMoves(s, step);
    var i := Mover(s, step);
    if i < |s.callers| {
      DrawnUpdated(s.callers, i, After(s, step).callers[i]);
    }
  }

  /** A reader that has a response in hand finds its channel empty. */
  predicate HasRoom(s: System) {
    s.reader.Sending? ==> s.reader.caller < |s.callers| && s.callers[s.reader.caller].slot.None?
  }

  /** If the plugin answers each id that can be drawn at most once, the reader always finds room. */
  lemma ReaderNeverBlocks(n: nat, steps: seq<Step>)
    requires forall id | 1 <= id <= n :: SentCount(steps, id) <= 1
    ensures HasRoom(Run(Initial(n), steps))
  {
    var s := Run(Initial(n), steps);
    RunKeepsInv(n, steps);
    NextIdIsDrawn(n, steps);
    if s.reader.Sending? {
      var i, id := s.reader.caller, s.reader.response.id;
      assert CallerOk(s, i);
      PlacesAreSent(n, steps, id);
      HolderCounts(s.callers, i, ById(id));
      assert SentCount(steps, id) <= 1;
    }
  }

  // ---------------------------------------------------------------- a schedule that stops the reader

  function Reads(ids: seq<int>): (steps: seq<Step>)
    ensures |steps| == |ids|
  {
    if ids == [] then [] else Reads(ids[..|ids| - 1]) + [ReadResponse(ids[|ids| - 1], "")]
  }

  function OneMore(s: System, steps: seq<Step>, step: Step): (r: seq<Step>)
    ensures r == steps + [step] && Run(s, r) == After(Run(s, steps), step)
  {
    assert (steps + [step])[..|steps|] == steps;
    steps + [step]
  }

  lemma NoSteps(s: System)
    ensures Run(s, []) == s && Responses([]) == []
  {
  }

  /** Responses to ids that are not pending change nothing. */
  lemma {:induction false} Ignored(s: System, ids: seq<int>)
    requires forall k | 0 <= k < |ids| :: ids[k] !in s.pending
    ensures Run(s, Reads(ids)) == s && Responses(Reads(ids)) == ids
  {
    hide Run, Responses;
    if ids == [] {
      NoSteps(s);
    } else {
      var front, last := ids[..|ids| - 1], ReadResponse(ids[|ids| - 1], "");
      Ignored(s, front);
      SentOneMore(Reads(front), last, 0);
      assert Reads(ids) == OneMore(s, Reads(front), last);
      assert ids == front + [last.id];
    }
  }

  function Allocations(k: nat): (steps: seq<Step>)
    ensures |steps| == k
  {
    if k == 0 then [] else Allocations(k - 1) + [Allocate(k - 1, true)]
  }

  /** The first `k` of `n` callers draw the ids 1 to `k`. */
  lemma {:induction false} AfterAllocations(n: nat, k: nat)
    requires k <= n
    ensures Responses(Allocations(k)) == []
    ensures var s := Run(Initial(n), Allocations(k));
            && s == Initial(n).(nextId := k, callers := s.callers) && |s.callers| == n
            && (forall i | 0 <= i < k :: s.callers[i] == Caller(Allocated, i + 1, None))
            && forall i | k <= i < n :: s.callers[i] == Caller(Starting, 0, None)
  {
    hide Run, Responses;
    if k == 0 {
      NoSteps(Initial(n));
    } else {
      AfterAllocations(n, k - 1);
      SentOneMore(Allocations(k - 1), Allocate(k - 1, true), 0);
      assert Allocations(k) == OneMore(Initial(n), Allocations(k - 1), Allocate(k - 1, true));
    }
  }

  lemma {:induction false} RunConcat(s: System, a: seq<Step>, b: seq<Step>)
    ensures Run(s, a + b) == Run(Run(s, a), b) && Responses(a + b) == Responses(a) + Responses(b)
  {
    if b == [] {
      assert a + b == a;
    } else {
      assert (a + b)[..|a + b| - 1] == a + b[..|b| - 1];
      RunConcat(s, a, b[..|b| - 1]);
    }
  }

  /** The caller that drew `id` registers, writes, and its first response reaches its channel. */
  lemma FirstResponse(n: nat, id: nat, before: seq<Step>) returns (steps: seq<Step>)
    requires 1 <= id <= n && Run(Initial(n), before) == Run(Initial(n), Allocations(id))
    ensures Responses(steps) == Responses(before) + [id]
    ensures var s := Run(Initial(n), steps);
            && s.reader.Scanning? && s.pending == map[id := id - 1] && |s.callers| == n
            && s.callers[id - 1].pc.Waiting? && s.callers[id - 1].slot.Some?
  {
    hide Run, Responses;
    var s0 := Initial(n);
    AfterAllocations(n, id);
    SentOneMore(before, Register(id - 1), 0);
    var registered := OneMore(s0, before, Register(id - 1));
    SentOneMore(registered, Write(id - 1, true), 0);
    var waiting := OneMore(s0, registered, Write(id - 1, true));
    SentOneMore(waiting, ReadResponse(id, ""), 0);
    var read := OneMore(s0, waiting, ReadResponse(id, ""));
    SentOneMore(read, Send, 0);
    steps := OneMore(s0, read, Send);
  }

  /** A second response to an id, and the cancellation of its caller, stop the reader. */
  lemma SecondResponse(n: nat, id: nat, before: seq<Step>) returns (steps: seq<Step>)
    requires 1 <= id <= n
    requires var s := Run(Initial(n), before);
             && s.reader.Scanning? && s.pending == map[id := id - 1] && |s.callers| == n
             && s.callers[id - 1].pc.Waiting? && s.callers[id - 1].slot.Some?
    ensures Responses(steps) == Responses(before) + [id] && Stuck(Run(Initial(n), steps))
  {
    hide Run, Responses;
    SentOneMore(before, ReadResponse(id, ""), 0);
    var read := OneMore(Initial(n), before, ReadResponse(id, ""));
    SentOneMore(read, Cancel(id - 1), 0);
    steps := OneMore(Initial(n), read, Cancel(id - 1));
  }

  /** Two neighbouring responses to the same id in a sequence. */
  lemma {:induction false} Neighbours(r: seq<int>, id: int) returns (a: nat, b: nat)
    requires multiset(r)[id] > 1
    ensures a < b < |r| && r[a] == r[b] == id && forall k | a < k < b :: r[k] != id
  {
    var last := |r| - 1;
    assert r == r[..last] + [r[last]];
    if multiset(r[..last])[id] > 1 {
      a, b := Neighbours(r[..last], id);
    } else {
      b := last;
      a := LastAt(r[..last], id);
    }
  }

  lemma {:induction false} LastAt(r: seq<int>, id: int) returns (a: nat)
    requires multiset(r)[id] > 0
    ensures a < |r| && r[a] == id && forall k | a < k < |r| :: r[k] != id
  {
    a := |r| - 1;
    assert r == r[..a] + [r[a]];
    if r[a] != id {
      a := LastAt(r[..a], id);
    }
  }

  /** Whatever responses the plugin sends, if one of the ids that `n` callers can draw is answered twice,
      some schedule of callers and reader stops the reader for good. */
  lemma DuplicateStopsTheReader(n: nat, r: seq<int>, id: nat) returns (steps: seq<Step>)
    requires 1 <= id <= n && multiset(r)[id] > 1
    ensures Responses(steps) <= r && Stuck(Run(Initial(n), steps))
  {
    hide Run, Responses, Stuck;
    var a, b := Neighbours(r, id);
    Ignored(Initial(n), r[..a]);
    RunConcat(Initial(n), Reads(r[..a]), Allocations(id));
    AfterAllocations(n, id);
    var first := FirstResponse(n, id, Reads(r[..a]) + Allocations(id));
    Ignored(Run(Initial(n), first), r[a + 1..b]);
    RunConcat(Initial(n), first, Reads(r[a + 1..b]));
    steps := SecondResponse(n, id, first + Reads(r[a + 1..b]));
    assert r[..a] + [] + [id] + r[a + 1..b] + [id] == r[..b + 1];
  }

  /** For a given sequence of responses every schedule leaves the reader room, and none stops it, exactly when
      no id that a caller can draw is answered twice. */
  lemma RoomExactlyWithoutDuplicates(n: nat, r: seq<int>)
    ensures (forall steps | Responses(steps) <= r :: HasRoom(Run(Initial(n), steps)))
        <==> forall id | 1 <= id <= n :: multiset(r)[id] <= 1
    ensures (forall steps | Responses(steps) <= r :: !Stuck(Run(Initial(n), steps)))
        <==> forall id | 1 <= id <= n :: multiset(r)[id] <= 1
  {
    hide Run, Responses;
    if id: nat :| 1 <= id <= n && multiset(r)[id] > 1 {
      var steps := DuplicateStopsTheReader(n, r, id);
    } else {
      forall steps | Responses(steps) <= r
        ensures HasRoom(Run(Initial(n), steps))
      {
        assert r == Responses(steps) + r[|Responses(steps)|..];
        assert forall id :: multiset(r)[id] >= SentCount(steps, id);
        ReaderNeverBlocks(n, steps);
      }
    }
  }

  // ---------------------------------------------------------------- the process object

  /** The shared state and its critical sections; each method is one step of one goroutine. */
  class Process {
    var running: bool
    var nextId: int
    var pending: map<int, nat>
    var callers: seq<Caller>
    var reader: Reader
    var matched: nat

    constructor (n: nat)
      ensures Value() == Initial(n)
    {
      running, nextId, pending, callers, reader, matched := true, 0, map[], Starters(n), Scanning, 0;
    }

    function Value(): System
      reads this
    {
      System(running, nextId, pending, callers, reader, matched)
    }

    /** Draws a request id; the id is spent even if the request cannot be encoded. */
    method DrawId(i: nat, marshals: bool) returns (id: int)
      requires i < |callers| && callers[i].pc.Starting?
      modifies this`nextId, this`callers
      ensures Value() == After(old(Value()), Allocate(i, marshals)) && callers[i].id == id
    {
      nextId := nextId + 1;
      id := nextId;
      callers := callers[i := Caller(if marshals then Allocated else Returned(BadRequest), id, None)];
    }

    method AddPending(i: nat) returns (ok: bool)
      requires i < |callers| && callers[i].pc.Allocated?
      modifies this`pending, this`callers
      ensures Value() == After(old(Value()), Register(i)) && ok == running
    {
      if !running {
        callers := callers[i := callers[i].(pc := Returned(NotRunning))];
        return false;
      }
      pending := pending[callers[i].id := i];
      callers := callers[i := callers[i].(pc := Registered)];
      ok := true;
    }

    method FinishWrite(i: nat, ok: bool)
      requires i < |callers| && callers[i].pc.Registered?
      modifies this`callers
      ensures Value() == After(old(Value()), Write(i, ok))
    {
      callers := callers[i := callers[i].(pc := if ok then Waiting else Leaving(WriteFailed))];
    }

    /** The select: a response in the channel, or the end of the context. */
    method Await(i: nat, cancelled: bool)
      requires i < |callers| && callers[i].pc.Waiting? && (cancelled || callers[i].slot.Some?)
      modifies this`callers
      ensures Value() == After(old(Value()), if cancelled then Cancel(i) else Receive(i))
    {
      if cancelled {
        callers := callers[i := callers[i].(pc := Leaving(Cancelled))];
      } else {
        callers := callers[i := Caller(Leaving(Answered(callers[i].slot.value)), callers[i].id, None)];
      }
    }

    /** The deferred deletion, on every way out after registration. */
    method DropPending(i: nat)
      requires i < |callers| && callers[i].pc.Leaving?
      modifies this`pending, this`callers
      ensures Value() == After(old(Value()), Unregister(i))
    {
      pending := pending - {callers[i].id};
      callers := callers[i := callers[i].(pc := Returned(callers[i].pc.outcome))];
    }

    /** The reader finds the channel of a response; an unknown id is only logged. */
    method Lookup(id: int, body: string)
      requires reader.Scanning?
      modifies this`reader, this`matched
      ensures Value() == After(old(Value()), ReadResponse(id, body))
    {
      if id in pending {
        reader := Sending(Response(id, body, matched), pending[id]);
        matched := matched + 1;
      }
    }

    /** Outside the lock; not possible while the channel is full. */
    method Deliver()
      requires reader.Sending? && reader.caller < |callers| && callers[reader.caller].slot.None?
      modifies this`reader, this`callers
      ensures Value() == After(old(Value()), Send)
    {
      callers := callers[reader.caller := callers[reader.caller].(slot := Some(reader.response))];
      reader := Scanning;
    }

    method MarkStopped()
      modifies this`running
      ensures Value() == After(old(Value()), Stop)
    {
      running := false;
    }

    /** One step of whichever goroutine the scheduler picks, if that goroutine stands where it can take it. */
    method Execute(step: Step)
      modifies this
      ensures Value() == After(old(Value()), step)
    {
      match step
      case Allocate(i, marshals) =>
        if i < |callers| && callers[i].pc.Starting? {
          var _ := DrawId(i, marshals);
        }
      case Register(i) =>
        if i < |callers| && callers[i].pc.Allocated? {
          var _ := AddPending(i);
        }
      case Write(i, ok) =>
        if i < |callers| && callers[i].pc.Registered? {
          FinishWrite(i, ok);
        }
      case Cancel(i) =>
        if i < |callers| && callers[i].pc.Waiting? {
          Await(i, true);
        }
      case Receive(i) =>
        if i < |callers| && callers[i].pc.Waiting? && callers[i].slot.Some? {
          Await(i, false);
        }
      case Unregister(i) =>
        if i < |callers| && callers[i].pc.Leaving? {
          DropPending(i);
        }
      case ReadResponse(id, body) =>
        if reader.Scanning? {
          Lookup(id, body);
        }
      case ReadOther =>
      case Send =>
        if reader.Sending? && reader.caller < |callers| && callers[reader.caller].slot.None? {
          Deliver();
        }
      case Stop =>
        MarkStopped();
    }

    /** Any interleaving of the critical sections is a run, so that every statement about runs is one about
        the object: ids are distinct, each caller gets a response that was sent for its own id, or none, and no
        response goes to two callers. */
    method Interleave(steps: seq<Step>)
      requires Value() == Initial(|callers|)
      modifies this
      ensures Value() == Run(Initial(old(|callers|)), steps)
      ensures forall i, j | 0 <= i < j < |callers| && !callers[i].pc.Starting? :: callers[i].id != callers[j].id
      ensures forall i | 0 <= i < |callers| && Delivered(callers[i]).Some? ::
                Delivered(callers[i]).value.id == callers[i].id
      ensures forall i | 0 <= i < |callers| && Delivered(callers[i]).Some? ::
                WasRead(old(|callers|), steps, Delivered(callers[i]).value)
      ensures forall i, j | 0 <= i < j < |callers|
                            && Delivered(callers[i]).Some? && Delivered(callers[j]).Some? ::
                Delivered(callers[i]).value.serial != Delivered(callers[j]).value.serial
    {
      ghost var n := |callers|;
      for k := 0 to |steps|
        invariant Value() == Run(Initial(n), steps[..k])
      {
        assert steps[..k + 1][..k] == steps[..k];
        Execute(steps[k]);
      }
      assert steps[..|steps|] == steps;
      DistinctIds(n, steps);
      OwnResponseOnly(n, steps);
      RunIsGenuine(n, steps);
      assert forall i | 0 <= i < |callers| :: CallerGenuine(n, steps, callers[i]);
    }
  }
}
