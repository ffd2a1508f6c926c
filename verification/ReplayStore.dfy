/**
  The attestation replay store (scripts/cross_file_artifact_bridge.py, lines 429-493): any number of `consume`
  processes share a lock and a file, every process may stop between any two steps, and a write is not atomic
  while a rename is.
 */
module ReplayStore {
  import opened Wrappers
  import opened Sequences

  type Pid = nat
  type Signature = string

  datatype Entry = Entry(run: string, nonce: string)

  /** A file on disk; a torn one holds only part of what is being written. */
  datatype File = Missing | Torn | Whole(consumed: map<Signature, Entry>)

  function Contents(f: File): map<Signature, Entry> {
    if f.Whole? then f.consumed else map[]
  }

  /** Where a consume call is. `seen` is what it loaded. */
  datatype Phase =
    | Waiting
    | Locked
    | Loaded(seen: map<Signature, Entry>)
    | Writing(seen: map<Signature, Entry>)
    | Written(seen: map<Signature, Entry>)
    | Replaced
    | Succeeded
    | Refused
    | Failed
    | Crashed

  datatype Process = Process(signature: Signature, entry: Entry, phase: Phase)

  datatype World = World(
    file: File,
    lock: Option<Pid>,
    temps: map<Pid, File>,
    procs: map<Pid, Process>,
    /** Signatures in the order their consume calls returned. */
    returned: seq<Signature>)

  datatype Action =
    | Begin(pid: Pid, signature: Signature, entry: Entry)
    | Acquire(pid: Pid)
    | Load(pid: Pid)
    | Refuse(pid: Pid)
    | StartWrite(pid: Pid)
    | FinishWrite(pid: Pid)
    | Replace(pid: Pid)
    | Return(pid: Pid)
    | Fail(pid: Pid)
    | Crash(pid: Pid)

  predicate InSection(p: Phase) {
    p.Locked? || p.Loaded? || p.Writing? || p.Written? || p.Replaced?
  }

  predicate Ended(p: Phase) {
    p.Succeeded? || p.Refused? || p.Failed? || p.Crashed?
  }

  function Move(w: World, pid: Pid, phase: Phase): World
    requires pid in w.procs
  {
    w.(procs := w.procs[pid := w.procs[pid].(phase := phase)])
  }

  /** The operating system drops a lock when its holder lets go or dies. */
  function Unlock(w: World, pid: Pid): World {
    if w.lock == Some(pid) then w.(lock := None) else w
  }

  /** One step of one process; an action that is not possible changes nothing. */
  function Step(w: World, a: Action): World {
    if a.Begin? then
      if a.pid in w.procs then w else w.(procs := w.procs[a.pid := Process(a.signature, a.entry, Waiting)])
    else if a.pid !in w.procs then w
    else
      var p := w.procs[a.pid];
      match a
      case Acquire(pid) =>
        if p.phase.Waiting? && w.lock.None? then Move(w.(lock := Some(pid)), pid, Locked) else w
      case Load(pid) =>
        if !p.phase.Locked? then w
        else if w.file.Torn? then Unlock(Move(w, pid, Failed), pid)
        else Move(w, pid, Loaded(Contents(w.file)))
      case Refuse(pid) =>
        if p.phase.Loaded? && p.signature in p.phase.seen then Unlock(Move(w, pid, Refused), pid) else w
      case StartWrite(pid) =>
        if p.phase.Loaded? && p.signature !in p.phase.seen
        then Move(w.(temps := w.temps[pid := Torn]), pid, Writing(p.phase.seen)) else w
      case FinishWrite(pid) =>
        if p.phase.Writing?
        then Move(w.(temps := w.temps[pid := Whole(p.phase.seen[p.signature := p.entry])]), pid, Written(p.phase.seen))
        else w
      case Replace(pid) =>
        if p.phase.Written? && pid in w.temps
        then Move(w.(file := w.temps[pid], temps := w.temps - {pid}), pid, Replaced) else w
      case Return(pid) =>
        if p.phase.Replaced? then Unlock(Move(w.(returned := w.returned + [p.signature]), pid, Succeeded), pid) else w
      case Fail(pid) =>
        if Ended(p.phase) then w
        else Unlock(Move(w.(temps := w.temps - {pid}), pid, Failed), pid)
      case Crash(pid) =>
        if Ended(p.phase) then w else Unlock(Move(w, pid, Crashed), pid)
  }

  function Run(w: World, actions: seq<Action>): World {
    if actions == [] then w else Step(Run(w, actions[..|actions| - 1]), actions[|actions| - 1])
  }

  function Start(file: File): World {
    World(file, None, map[], map[], [])
  }

  // ----- The invariant ------------------------------------------------------

  /** What holds of one process: inside the section it owns the lock, and what it loaded is still current. */
  ghost predicate ProcOk(w: World, pid: Pid)
    requires pid in w.procs
  {
    var p := w.procs[pid];
    && (InSection(p.phase) ==> w.lock == Some(pid))
    && (p.phase.Loaded? || p.phase.Writing? || p.phase.Written? ==> p.phase.seen == Contents(w.file))
    && (p.phase.Writing? || p.phase.Written? ==> p.signature !in p.phase.seen)
    && (p.phase.Written? ==> pid in w.temps && w.temps[pid] == Whole(p.phase.seen[p.signature := p.entry]))
    && (p.phase.Replaced? ==> p.signature in Contents(w.file) && p.signature !in w.returned)
  }

  ghost predicate Inv(w: World) {
    && !w.file.Torn?
    && (forall pid :: pid in w.procs ==> ProcOk(w, pid))
    && (w.lock.Some? ==> w.lock.value in w.procs && InSection(w.procs[w.lock.value].phase))
    && Distinct(w.returned)
    && (forall s :: s in w.returned ==> s in Contents(w.file))
  }

  /** Entries stay and keep their value. */
  ghost predicate Keeps(a: map<Signature, Entry>, b: map<Signature, Entry>) {
    forall s :: s in a ==> s in b && b[s] == a[s]
  }

  /** The atomic view: the file is unchanged, or one signature that was not there is added whole. */
  ghost predicate Atomic(w: World, a: Action, next: World) {
    || next.file == w.file
    || (a.Replace? && a.pid in w.procs && w.procs[a.pid].signature !in Contents(w.file)
        && next.file == Whole(Contents(w.file)[w.procs[a.pid].signature := w.procs[a.pid].entry]))
  }

  /** Nobody but the acting process is affected. */
  lemma {:induction false} OthersUntouched(w: World, a: Action)
    ensures forall pid :: pid in w.procs && pid != a.pid ==>
              pid in Step(w, a).procs && Step(w, a).procs[pid] == w.procs[pid]
    ensures forall pid :: pid in w.temps && pid != a.pid ==>
              pid in Step(w, a).temps && Step(w, a).temps[pid] == w.temps[pid]
    ensures forall pid :: pid in Step(w, a).procs ==> pid in w.procs || pid == a.pid
  {
  }

  lemma {:induction false} StepFile(w: World, a: Action)
    requires Inv(w)
    ensures Atomic(w, a, Step(w, a))
    ensures Step(w, a).file != w.file ==> w.lock == Some(a.pid)
  {
    if a.Replace? && a.pid in w.procs {
      assert ProcOk(w, a.pid);
    }
  }

  lemma {:induction false} StepLock(w: World, a: Action)
    requires Inv(w)
    ensures var next := Step(w, a);
            next.lock.Some? ==> next.lock.value in next.procs && InSection(next.procs[next.lock.value].phase)
    ensures forall pid :: pid != a.pid && w.lock == Some(pid) ==> Step(w, a).lock == w.lock
  {
    hide Distinct;
    if a.pid in w.procs {
      assert ProcOk(w, a.pid);
    }
  }

  lemma {:induction false} StepReturned(w: World, a: Action)
    requires Inv(w)
    ensures Distinct(Step(w, a).returned)
    ensures forall s :: s in Step(w, a).returned ==> s in Contents(Step(w, a).file)
    ensures Step(w, a).returned != w.returned ==>
              a.Return? && a.pid in w.procs && w.procs[a.pid].phase.Replaced? && Step(w, a).file == w.file
              && Step(w, a).returned == w.returned + [w.procs[a.pid].signature]
  {
    if a.pid in w.procs {
      assert ProcOk(w, a.pid);
    }
    StepFile(w, a);
    hide Step;
  }

  lemma {:induction false} ActorOk(w: World, a: Action)
    requires Inv(w)
    ensures a.pid in Step(w, a).procs ==> ProcOk(Step(w, a), a.pid)
  {
    hide Distinct;
    if a.pid in w.procs {
      assert ProcOk(w, a.pid);
      if w.lock.Some? {
        assert ProcOk(w, w.lock.value);
      }
    }
  }

  /** A process other than the actor keeps what it knows: while it holds the lock the file cannot change. */
  lemma {:induction false} OtherOk(w: World, a: Action, pid: Pid)
    requires Inv(w) && pid in w.procs && pid != a.pid
    ensures pid in Step(w, a).procs && ProcOk(Step(w, a), pid)
  {
    OthersUntouched(w, a);
    StepFile(w, a);
    StepLock(w, a);
    StepReturned(w, a);
    assert ProcOk(w, pid);
    if a.pid in w.procs {
      assert ProcOk(w, a.pid);
    }
    hide Step;
  }

  lemma {:induction false} StepKeeps(w: World, a: Action)
    requires Inv(w)
    ensures Inv(Step(w, a)) && Keeps(Contents(w.file), Contents(Step(w, a).file))
  {
    StepFile(w, a);
    StepLock(w, a);
    StepReturned(w, a);
    OthersUntouched(w, a);
    ActorOk(w, a);
    forall pid | pid in Step(w, a).procs
      ensures ProcOk(Step(w, a), pid)
    {
      if pid != a.pid {
        OtherOk(w, a, pid);
      }
    }
    hide Step, ProcOk;
  }

  // ----- Whole runs ---------------------------------------------------------

  lemma {:induction false} RunKeeps(w: World, actions: seq<Action>)
    requires Inv(w)
    ensures Inv(Run(w, actions)) && Keeps(Contents(w.file), Contents(Run(w, actions).file))
  {
    if actions != [] {
      hide Inv, Step;
      var n := |actions| - 1;
      RunKeeps(w, actions[..n]);
      StepKeeps(Run(w, actions[..n]), actions[n]);
    }
  }

  lemma {:induction false} RunSplits(w: World, a: seq<Action>, b: seq<Action>)
    ensures Run(w, a + b) == Run(Run(w, a), b)
  {
    if b == [] {
      assert a + b == a;
    } else {
      var n := |b| - 1;
      RunSplits(w, a, b[..n]);
      assert (a + b)[..|a + b| - 1] == a + b[..n];
    }
  }

  /**
    For every interleaving with failures and crashes at any point, no signature is consumed successfully twice, a
    successful one is recorded, and the visible file is never torn.
   */
  lemma {:induction false} ConsumeOnce(file: File, actions: seq<Action>)
    requires !file.Torn?
    ensures var w := Run(Start(file), actions);
            && !w.file.Torn?
            && Distinct(w.returned)
            && (forall s :: s in w.returned ==> s in Contents(w.file))
  {
    hide Step;
    RunKeeps(Start(file), actions);
  }

  /** Nothing recorded at any time is lost or changed later. */
  lemma {:induction false} NothingLost(file: File, before: seq<Action>, after: seq<Action>)
    requires !file.Torn?
    ensures Keeps(Contents(Run(Start(file), before).file), Contents(Run(Start(file), before + after).file))
  {
    hide Step;
    RunKeeps(Start(file), before);
    RunSplits(Start(file), before, after);
    RunKeeps(Run(Start(file), before), after);
  }

  /** A signature on file before a call begins is never consumed again by it. */
  lemma {:induction false} RecordedIsRefused(w: World, actions: seq<Action>, s: Signature)
    requires Inv(w) && s in Contents(w.file) && s !in w.returned
    requires forall pid :: pid in w.procs && w.procs[pid].signature == s ==> !w.procs[pid].phase.Replaced?
    ensures s !in Run(w, actions).returned
    ensures var e := Run(w, actions);
            forall pid :: pid in e.procs && e.procs[pid].signature == s ==> !e.procs[pid].phase.Replaced?
  {
    if actions != [] {
      var n := |actions| - 1;
      var e, a := Run(w, actions[..n]), actions[n];
      RecordedIsRefused(w, actions[..n], s);
      RunKeeps(w, actions[..n]);
      StepReturned(e, a);
      OthersUntouched(e, a);
      if a.pid in e.procs {
        assert ProcOk(e, a.pid);
      }
    }
  }

  /** A call that succeeded, was refused, failed or crashed stays so whatever happens afterwards. */
  lemma {:induction false} EndsForGood(w: World, actions: seq<Action>, pid: Pid)
    requires pid in w.procs && (w.procs[pid].phase in {Succeeded, Refused, Failed, Crashed})
    ensures pid in Run(w, actions).procs && Run(w, actions).procs[pid] == w.procs[pid]
  {
    if actions != [] {
      var before := Run(w, actions[..|actions| - 1]);
      EndsForGood(w, actions[..|actions| - 1], pid);
      OthersUntouched(before, actions[|actions| - 1]);
    }
  }

  /** Every step of a run is a step of a store that consumes atomically. */
  lemma {:induction false} RefinesAtomicStore(file: File, actions: seq<Action>, a: Action)
    requires !file.Torn?
    ensures var w := Run(Start(file), actions);
            && Atomic(w, a, Step(w, a))
            && (Step(w, a).returned != w.returned ==>
                  a.Return? && a.pid in w.procs && w.procs[a.pid].signature in Contents(w.file))
  {
    var w := Run(Start(file), actions);
    RunKeeps(Start(file), actions);
    StepFile(w, a);
    StepReturned(w, a);
    if a.pid in w.procs {
      assert ProcOk(w, a.pid);
    }
  }

  // ----- One call without interference --------------------------------------

  class Store {
    var file: File
    var temp: File
    var locked: bool

    constructor (file: File)
      ensures this.file == file && temp == Missing && !locked
    {
      this.file := file;
      temp := Missing;
      locked := false;
    }

    /** Take the free lock, load, check, write beside the file and rename; lock and temporary are gone afterwards. */
    method Consume(signature: Signature, entry: Entry) returns (ok: bool)
      requires !locked
      modifies this
      ensures ok <==> !old(file).Torn? && signature !in Contents(old(file))
      ensures file == (if ok then Whole(Contents(old(file))[signature := entry]) else old(file))
      ensures temp == Missing && !locked
    {
      temp := Missing;
      locked := true;
      if file.Torn? {
        locked := false;
        return false;
      }
      var consumed := Contents(file);
      if signature in consumed {
        locked := false;
        return false;
      }
      consumed := consumed[signature := entry];
      temp := Torn;
      temp := Whole(consumed);
      file, temp := temp, Missing;
      locked := false;
      return true;
    }
  }

  lemma {:induction false} RunMore(w: World, actions: seq<Action>, a: Action)
    ensures Run(w, actions + [a]) == Step(Run(w, actions), a)
  {
    assert (actions + [a])[..|actions|] == actions;
  }

  /** A process alone, holding the lock in the given phase. */
  function Alone(file: File, temps: map<Pid, File>, pid: Pid, p: Process): World {
    World(file, Some(pid), temps, map[pid := p], [])
  }

  lemma {:induction false} Opens(file: File, pid: Pid, p: Process)
    requires !file.Torn? && p.phase == Waiting
    ensures Run(Start(file), [Begin(pid, p.signature, p.entry), Acquire(pid), Load(pid)])
         == Alone(file, map[], pid, p.(phase := Loaded(Contents(file))))
  {
    var begun := [Begin(pid, p.signature, p.entry)];
    RunMore(Start(file), [], begun[0]);
    assert [] + [begun[0]] == begun && Run(Start(file), []) == Start(file);
    RunMore(Start(file), begun, Acquire(pid));
    RunMore(Start(file), begun + [Acquire(pid)], Load(pid));
    assert begun + [Acquire(pid)] + [Load(pid)] == [begun[0], Acquire(pid), Load(pid)];
  }

  lemma {:induction false} Writes(file: File, pid: Pid, p: Process, seen: map<Signature, Entry>)
    requires p.signature !in seen
    ensures Step(Alone(file, map[], pid, p.(phase := Loaded(seen))), StartWrite(pid))
         == Alone(file, map[pid := Torn], pid, p.(phase := Writing(seen)))
    ensures Step(Alone(file, map[pid := Torn], pid, p.(phase := Writing(seen))), FinishWrite(pid))
         == Alone(file, map[pid := Whole(seen[p.signature := p.entry])], pid, p.(phase := Written(seen)))
  {
  }

  lemma {:induction false} Commits(file: File, after: File, pid: Pid, p: Process, seen: map<Signature, Entry>)
    ensures Step(Alone(file, map[pid := after], pid, p.(phase := Written(seen))), Replace(pid))
         == Alone(after, map[], pid, p.(phase := Replaced))
    ensures Step(Alone(after, map[], pid, p.(phase := Replaced)), Return(pid))
         == World(after, None, map[], map[pid := p.(phase := Succeeded)], [p.signature])
  {
  }

  lemma {:induction false} Refuses(file: File, pid: Pid, p: Process, seen: map<Signature, Entry>)
    requires p.signature in seen
    ensures Step(Alone(file, map[], pid, p.(phase := Loaded(seen))), Refuse(pid))
         == World(file, None, map[], map[pid := p.(phase := Refused)], [])
  {
  }

  /** A call that is not interrupted does what `Consume` does. */
  lemma {:induction false} CallIsARun(file: File, pid: Pid, p: Process)
    requires !file.Torn? && p.phase == Waiting
    ensures var ready := Run(Start(file), [Begin(pid, p.signature, p.entry), Acquire(pid), Load(pid)]);
            if p.signature in Contents(file) then
              Step(ready, Refuse(pid)) == World(file, None, map[], map[pid := p.(phase := Refused)], [])
            else
              Step(Step(Step(Step(ready, StartWrite(pid)), FinishWrite(pid)), Replace(pid)), Return(pid))
              == World(Whole(Contents(file)[p.signature := p.entry]), None, map[], map[pid := p.(phase := Succeeded)],
                       [p.signature])
  {
    hide Step, Run, Alone;
    Opens(file, pid, p);
    var seen := Contents(file);
    if p.signature in seen {
      Refuses(file, pid, p, seen);
    } else {
      Writes(file, pid, p, seen);
      Commits(file, Whole(seen[p.signature := p.entry]), pid, p, seen);
    }
  }
}
