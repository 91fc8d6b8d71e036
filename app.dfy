/** The browser session of `src/main.js`: the `pyodide` slot, the output log
    and the `run` pipeline. The interpreter runtime, micropip, the directory
    picker, the permission prompt, the native file-system mount and the
    script execution are collaborators whose answers are given as a
    `Platform` value. */
module App {
  import opened JsText

  datatype Option<T> = None | Some(value: T)

  /** A value a promise rejects with, or that a `catch` receives. */
  datatype Rejection =
    | ErrorObject(name: string, message: string)  // an instance of `Error`
    | OtherValue(text: string)                    // anything else that was thrown

  /** How an awaited call without a useful result settled. */
  datatype Outcome = Done | Failed(reason: Rejection)

  /** How an awaited call with a result settled. */
  datatype Settled<T> = Fulfilled(value: T) | Rejected(reason: Rejection)

  /** An initialised interpreter runtime and a picked directory, both opaque. */
  datatype Runtime = Runtime(id: nat)
  datatype DirHandle = DirHandle(id: nat)

  /** The `pyodide` data field: `null` until `mounted` finishes, then either
      the runtime or whatever the initialisation threw. */
  datatype Slot = Empty | Loaded(runtime: Runtime) | InitFailed(reason: Rejection)

  /** A call the pipeline makes into a collaborator. */
  datatype Call =
    | LoadPackage(package: string)              // pyodide.loadPackage
    | PyImport(name: string)                    // pyodide.pyimport
    | Install(requirement: string)              // micropip.install
    | ShowDirectoryPicker                       // window.showDirectoryPicker
    | RequestPermission(mode: string)           // dirHandle.requestPermission
    | MountNativeFS(path: string, handle: DirHandle)  // pyodide.mountNativeFS
    | RunPython(code: string)                   // pyodide.runPython

  /** A call together with how it settled. */
  datatype Step = Step(call: Call, result: Outcome)

  /** What one run did: the calls in the order made, how the run settled,
      and the stdout batches the runtime emitted meanwhile. */
  datatype Trace = Trace(steps: seq<Step>, outcome: Outcome, stdout: seq<string>)

  /** The collaborators' answers. `installs[k]` answers the `k`-th install
      call of the run (a missing answer is a success); since the `k`-th call
      always comes after the same `k` earlier installs, this can express a
      requirement that fails for want of an earlier one. `stdout` is what the
      script prints before `python` settles. */
  datatype Platform = Platform(
    loadPackage: Outcome,
    pyimport: Outcome,
    installs: seq<Outcome>,
    picker: Settled<DirHandle>,
    permission: Settled<string>,
    mount: Outcome,
    stdout: seq<string>,
    python: Outcome)

  /** How the `k`-th `micropip.install` call of a run settles. */
  function InstallAnswer(p: Platform, k: nat): Outcome {
    if k < |p.installs| then p.installs[k] else Done
  }

  const Micropip := "micropip"
  const ReadWrite := "readwrite"
  const Granted := "granted"
  /** Where the picked directory appears inside the runtime. */
  const MountPoint := "/home/pyodide/pyla"
  const InitialOutput: seq<string> := ["Output goes here ..."]
  /** What `run` throws when the permission is not granted. */
  const PermissionError := ErrorObject("Error", "read access to directory not granted")

  /** The TypeError thrown when `this.pyodide.<member>` is used while the slot
      holds `null` or an error instead of a runtime; the browser's wording is
      not modelled, only the member that was looked up. */
  function MissingRuntime(member: string): Rejection {
    ErrorObject("TypeError", member)
  }

  /** The requirements the run installs: none when the trimmed text is empty,
      otherwise every line of the trimmed text, blank and comment lines
      included. */
  function Requirements(text: string): (r: seq<string>)
    ensures r == [] <==> AllTrimmable(text)
    ensures r != [] ==> Join(r) == Trim(text)
    ensures forall i :: 0 <= i < |r| ==> '\n' !in r[i]
  {
    var t := Trim(text);
    if t == [] then [] else JoinSplit(t); Split(t)
  }

  /** The install loop from the `i`-th requirement on: one install per
      requirement, in order, stopping at the first rejection. */
  function InstallFrom(p: Platform, reqs: seq<string>, i: nat): Trace
    requires i <= |reqs|
    decreases |reqs| - i
  {
    if i == |reqs| then Trace([], Done, [])
    else
      var res := InstallAnswer(p, i);
      var step := Step(Install(reqs[i]), res);
      if res.Failed? then Trace([step], res, [])
      else
        var rest := InstallFrom(p, reqs, i + 1);
        Trace([step] + rest.steps, rest.outcome, [])
  }

  /** The part of a run after the installs: pick a directory, ask for
      read-write access, refuse anything but "granted", mount, run. */
  function DirectoryThenScript(slot: Slot, script: string, p: Platform): Trace {
    match p.picker
    case Rejected(e) => Trace([Step(ShowDirectoryPicker, Failed(e))], Failed(e), [])
    case Fulfilled(dir) =>
      var picked := [Step(ShowDirectoryPicker, Done)];
      match p.permission
      case Rejected(e) =>
        Trace(picked + [Step(RequestPermission(ReadWrite), Failed(e))], Failed(e), [])
      case Fulfilled(status) =>
        var asked := picked + [Step(RequestPermission(ReadWrite), Done)];
        if status != Granted then Trace(asked, Failed(PermissionError), [])
        else if !slot.Loaded? then Trace(asked, Failed(MissingRuntime("mountNativeFS")), [])
        else if p.mount.Failed? then
          Trace(asked + [Step(MountNativeFS(MountPoint, dir), p.mount)], p.mount, [])
        else
          Trace(asked + [Step(MountNativeFS(MountPoint, dir), Done), Step(RunPython(script), p.python)],
                p.python, p.stdout)
  }

  /** Lines 35-44 of `run`: nothing when there are no requirements,
      otherwise load micropip, import it, then install each requirement. */
  function PreparePackages(slot: Slot, reqs: seq<string>, p: Platform): Trace {
    if reqs == [] then Trace([], Done, [])
    else if !slot.Loaded? then Trace([], Failed(MissingRuntime("loadPackage")), [])
    else if p.loadPackage.Failed? then
      Trace([Step(LoadPackage(Micropip), p.loadPackage)], p.loadPackage, [])
    else if p.pyimport.Failed? then
      Trace([Step(LoadPackage(Micropip), Done), Step(PyImport(Micropip), p.pyimport)], p.pyimport, [])
    else
      var installs := InstallFrom(p, reqs, 0);
      Trace([Step(LoadPackage(Micropip), Done), Step(PyImport(Micropip), Done)] + installs.steps,
            installs.outcome, [])
  }

  /** Awaiting `first` and then `next`: a rejection of `first` settles the
      whole and `next` never starts. */
  function Then(first: Trace, next: Trace): Trace {
    if first.outcome.Failed? then first
    else Trace(first.steps + next.steps, next.outcome, first.stdout + next.stdout)
  }

  /** A failed first part is the whole result; a successful first part that
      printed nothing is followed by the second part. */
  lemma ThenCases(first: Trace, next: Trace)
    ensures first.outcome.Failed? ==> Then(first, next) == first
    ensures first.outcome.Done? && first.stdout == [] ==>
              Then(first, next) == Trace(first.steps + next.steps, next.outcome, next.stdout)
  {
    if first.outcome.Done? && first.stdout == [] {
      assert first.stdout + next.stdout == next.stdout;
    }
  }

  /** The whole of one `run`, as a function of the session state it reads and
      the collaborators' answers. */
  function RunTrace(slot: Slot, requirements: string, script: string, p: Platform): Trace {
    Then(PreparePackages(slot, Requirements(requirements), p), DirectoryThenScript(slot, script, p))
  }

  /** The state `mounted` leaves in the slot: the runtime, or what was thrown
      by `loadPyodide` or, after it, by `setStdout`. */
  function InitSlot(load: Settled<Runtime>, hook: Outcome): (s: Slot)
    ensures s.Loaded? <==> load.Fulfilled? && hook.Done?
    ensures load.Rejected? ==> s == InitFailed(load.reason)
    ensures load.Fulfilled? && hook.Failed? ==> s == InitFailed(hook.reason)
    ensures s.Loaded? ==> s.runtime == load.value
  {
    match load
    case Rejected(e) => InitFailed(e)
    case Fulfilled(rt) => if hook.Failed? then InitFailed(hook.reason) else Loaded(rt)
  }

  /** `globalError`: the slot's value exactly when it is an `Error`
      instance; `null` for an empty slot, a runtime, or a thrown non-error. */
  function GlobalError(slot: Slot): (r: Option<Rejection>)
    ensures r.Some? <==> slot.InitFailed? && slot.reason.ErrorObject?
    ensures r.Some? ==> slot == InitFailed(r.value)
  {
    if slot.InitFailed? && slot.reason.ErrorObject? then Some(slot.reason) else None
  }

  /** The component's data: the slot, the two text fields and the output log. */
  class Session {
    var pyodide: Slot
    var script: string
    var requirements: string
    var output: seq<string>

    constructor ()
      ensures pyodide == Empty && script == [] && requirements == []
      ensures output == InitialOutput
    {
      pyodide := Empty;
      script := [];
      requirements := [];
      output := InitialOutput;
    }

    /** `mounted`: store the runtime or the error in the slot. */
    method Mounted(load: Settled<Runtime>, hook: Outcome)
      modifies this`pyodide
      ensures pyodide == InitSlot(load, hook)
      ensures load.Rejected? && load.reason.ErrorObject? ==> GlobalError(pyodide) == Some(load.reason)
      ensures load.Fulfilled? && hook.Done? ==> GlobalError(pyodide) == None
    {
      match load {
        case Rejected(e) =>
          pyodide := InitFailed(e);
        case Fulfilled(rt) =>
          pyodide := Loaded(rt);
          if hook.Failed? {
            pyodide := InitFailed(hook.reason);
          }
      }
    }

    /** The batched stdout callback registered in `mounted`. */
    method OnStdout(msg: string)
      modifies this`output
      ensures output == old(output) + [msg]
    {
      output := output + [msg];
    }

    /** `run`: returns how the run settled and the calls it made, in order.
        The log only grows, by the batches the script printed. */
    method Run(p: Platform) returns (outcome: Outcome, steps: seq<Step>)
      modifies this`output
      ensures outcome == RunTrace(pyodide, requirements, script, p).outcome
      ensures steps == RunTrace(pyodide, requirements, script, p).steps
      ensures output == old(output) + RunTrace(pyodide, requirements, script, p).stdout
    {
      var reqs := Requirements(requirements);
      ghost var before := PreparePackages(pyodide, reqs, p);
      ghost var after := DirectoryThenScript(pyodide, script, p);
      ThenCases(before, after);
      outcome, steps := LoadAndInstall(reqs, p);
      if outcome.Failed? {
        assert output == old(output) + [];
        return;
      }
      var rest;
      outcome, rest := PickMountAndExecute(p);
      steps := steps + rest;
    }

    /** Lines 35-44 of `run`: with requirements, load and import micropip and
        install them one by one; each rejection ends this part. */
    method LoadAndInstall(reqs: seq<string>, p: Platform) returns (outcome: Outcome, steps: seq<Step>)
      ensures Trace(steps, outcome, []) == PreparePackages(pyodide, reqs, p)
    {
      if reqs == [] {
        return Done, [];
      }
      if !pyodide.Loaded? {
        return Failed(MissingRuntime("loadPackage")), [];
      }
      steps := [Step(LoadPackage(Micropip), p.loadPackage)];
      if p.loadPackage.Failed? {
        return p.loadPackage, steps;
      }
      steps := steps + [Step(PyImport(Micropip), p.pyimport)];
      if p.pyimport.Failed? {
        return p.pyimport, steps;
      }
      var installSteps;
      outcome, installSteps := InstallAll(p, reqs);
      steps := steps + installSteps;
    }

    /** Lines 45-54 of `run`: the directory prompt, the permission gate, the
        mount and the script. */
    method PickMountAndExecute(p: Platform) returns (outcome: Outcome, steps: seq<Step>)
      modifies this`output
      ensures var t := DirectoryThenScript(pyodide, script, p);
              outcome == t.outcome && steps == t.steps && output == old(output) + t.stdout
    {
      var dir: DirHandle;
      match p.picker {
        case Rejected(e) =>
          return Failed(e), [Step(ShowDirectoryPicker, Failed(e))];
        case Fulfilled(h) =>
          dir := h;
      }
      steps := [Step(ShowDirectoryPicker, Done)];
      var status: string;
      match p.permission {
        case Rejected(e) =>
          steps := steps + [Step(RequestPermission(ReadWrite), Failed(e))];
          return Failed(e), steps;
        case Fulfilled(s) =>
          status := s;
      }
      steps := steps + [Step(RequestPermission(ReadWrite), Done)];
      if status != Granted {
        return Failed(PermissionError), steps;
      }
      if !pyodide.Loaded? {
        return Failed(MissingRuntime("mountNativeFS")), steps;
      }
      steps := steps + [Step(MountNativeFS(MountPoint, dir), p.mount)];
      if p.mount.Failed? {
        return p.mount, steps;
      }
      // While the script runs, the runtime hands each stdout batch to the callback.
      for k := 0 to |p.stdout|
        invariant output == old(output) + p.stdout[..k]
      {
        OnStdout(p.stdout[k]);
      }
      steps := steps + [Step(RunPython(script), p.python)];
      outcome := p.python;
    }
  }

  /** The `for ... of` loop of `run`: each requirement is awaited before the
      next is started, and the first rejection ends the loop. */
  method InstallAll(p: Platform, reqs: seq<string>) returns (outcome: Outcome, steps: seq<Step>)
    ensures Trace(steps, outcome, []) == InstallFrom(p, reqs, 0)
  {
    steps := [];
    for i := 0 to |reqs|
      invariant InstallFrom(p, reqs, 0).steps == steps + InstallFrom(p, reqs, i).steps
      invariant InstallFrom(p, reqs, 0).outcome == InstallFrom(p, reqs, i).outcome
      invariant InstallFrom(p, reqs, 0).stdout == []
    {
      var res := InstallAnswer(p, i);
      steps := steps + [Step(Install(reqs[i]), res)];
      if res.Failed? {
        return res, steps;
      }
    }
    outcome := Done;
  }
}
