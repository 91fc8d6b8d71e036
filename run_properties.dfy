/** What every run of `src/main.js` does, stated over `App.RunTrace`: the
    calls follow one fixed plan, nothing is called after a rejection, the
    installs are exactly the requirement lines, and the mount and the
    script are gated by the permission. */
module RunProperties {
  import opened JsText
  import opened App

  /** One install call per requirement, in order. */
  function InstallCalls(reqs: seq<string>): (cs: seq<Call>)
    ensures |cs| == |reqs|
    ensures forall k :: 0 <= k < |reqs| ==> cs[k] == Install(reqs[k])
  {
    if reqs == [] then [] else [Install(reqs[0])] + InstallCalls(reqs[1..])
  }

  /** The calls of lines 35-44 when nothing fails. */
  function PackagePlan(reqs: seq<string>): seq<Call> {
    if reqs == [] then [] else [LoadPackage(Micropip), PyImport(Micropip)] + InstallCalls(reqs)
  }

  /** The calls of lines 45-54 when nothing fails. */
  function DirectoryPlan(script: string, dir: DirHandle): seq<Call> {
    [ShowDirectoryPicker, RequestPermission(ReadWrite), MountNativeFS(MountPoint, dir), RunPython(script)]
  }

  /** The calls a run makes when nothing fails, in the order it makes them. */
  function Plan(requirements: string, script: string, dir: DirHandle): seq<Call> {
    PackagePlan(Requirements(requirements)) + DirectoryPlan(script, dir)
  }

  /** The directory the picker returned, or an arbitrary one if it rejected. */
  function PickedDir(p: Platform): DirHandle {
    if p.picker.Fulfilled? then p.picker.value else DirHandle(0)
  }

  /** The calls of `steps` are the first `|steps|` calls of `plan`. */
  predicate Follows(steps: seq<Step>, plan: seq<Call>) {
    |steps| <= |plan| && forall i :: 0 <= i < |steps| ==> steps[i].call == plan[i]
  }

  predicate AllDone(steps: seq<Step>) {
    forall i :: 0 <= i < |steps| ==> steps[i].result.Done?
  }

  /** Every call but the last succeeded, and a rejected last call is how the
      run settled. */
  predicate StopsAtFirstFailure(t: Trace) {
    && (forall i :: 0 <= i < |t.steps| - 1 ==> t.steps[i].result.Done?)
    && (t.steps != [] && t.steps[|t.steps| - 1].result.Failed? ==> t.outcome == t.steps[|t.steps| - 1].result)
  }

  /** The last call of `t` was rejected, and that rejection settled `t`. */
  predicate FailsAtLastCall(t: Trace) {
    t.steps != [] && t.steps[|t.steps| - 1].result.Failed? && t.outcome == t.steps[|t.steps| - 1].result
  }

  predicate AllInstallsSucceed(p: Platform, reqs: seq<string>, i: nat) {
    forall k :: i <= k < |reqs| ==> InstallAnswer(p, k).Done?
  }

  /** A call that goes through the `pyodide` slot. */
  predicate UsesRuntime(c: Call) {
    c.LoadPackage? || c.PyImport? || c.Install? || c.MountNativeFS? || c.RunPython?
  }

  /** `t` makes the planned installs from `i` on, each settling as its
      answer says, stops at the first rejection, fails only by a rejected
      install and succeeds exactly when every install from `i` on does. */
  predicate InstallsShaped(p: Platform, reqs: seq<string>, i: nat, t: Trace)
    requires i <= |reqs|
  {
    && |t.steps| <= |reqs| - i
    && (forall k :: 0 <= k < |t.steps| ==> t.steps[k].call == Install(reqs[i + k]))
    && (forall k :: 0 <= k < |t.steps| ==> t.steps[k].result == InstallAnswer(p, i + k))
    && StopsAtFirstFailure(t)
    && (t.outcome.Failed? ==> t.steps != [] && t.steps[|t.steps| - 1].result.Failed?)
    && t.stdout == []
    && (t.outcome.Done? <==> AllInstallsSucceed(p, reqs, i))
    && (t.outcome.Done? ==> |t.steps| == |reqs| - i && AllDone(t.steps))
  }

  /** The install loop is shaped as its plan says. */
  lemma {:induction false} InstallFromShape(p: Platform, reqs: seq<string>, i: nat)
    requires i <= |reqs|
    ensures InstallsShaped(p, reqs, i, InstallFrom(p, reqs, i))
    decreases |reqs| - i
  {
    if i < |reqs| && InstallAnswer(p, i).Done? {
      InstallFromShape(p, reqs, i + 1);
      var rest := InstallFrom(p, reqs, i + 1);
      assert InstallFrom(p, reqs, i) == Trace([Step(Install(reqs[i]), Done)] + rest.steps, rest.outcome, []);
      InstallCons(p, reqs, i, rest);
    }
  }

  /** One successful install in front of a shaped rest is shaped. */
  lemma InstallCons(p: Platform, reqs: seq<string>, i: nat, rest: Trace)
    requires i < |reqs| && InstallAnswer(p, i).Done?
    requires InstallsShaped(p, reqs, i + 1, rest)
    ensures InstallsShaped(p, reqs, i, Trace([Step(Install(reqs[i]), Done)] + rest.steps, rest.outcome, []))
  {
    var s := [Step(Install(reqs[i]), Done)] + rest.steps;
    var t := Trace(s, rest.outcome, []);
    forall k | 1 <= k < |s| ensures s[k] == rest.steps[k - 1] && i + k == (i + 1) + (k - 1) {
    }
    assert AllInstallsSucceed(p, reqs, i) <==> AllInstallsSucceed(p, reqs, i + 1);
    if rest.steps != [] {
      assert s[|s| - 1] == rest.steps[|rest.steps| - 1];
    }
  }

  /** The `k`-th install answer is the first rejected one from `i` on. */
  predicate FirstRejectedInstall(p: Platform, reqs: seq<string>, i: nat, k: nat) {
    i <= k < |reqs| && InstallAnswer(p, k).Failed? && forall j :: i <= j < k ==> InstallAnswer(p, j).Done?
  }

  /** A shaped install trace reaches the first rejected install, calls
      nothing after it and settles with its rejection. */
  lemma ShapedFirstRejection(p: Platform, reqs: seq<string>, i: nat, t: Trace, k: nat)
    requires i <= |reqs| && InstallsShaped(p, reqs, i, t)
    requires FirstRejectedInstall(p, reqs, i, k)
    ensures |t.steps| == k - i + 1
    ensures t.steps[k - i] == Step(Install(reqs[k]), InstallAnswer(p, k))
    ensures t.outcome == InstallAnswer(p, k)
  {
    assert !InstallAnswer(p, i + (k - i)).Done?;
    var m := |t.steps| - 1;
    assert t.steps[m].result == InstallAnswer(p, i + m);
    forall j | i <= j < i + |t.steps| && InstallAnswer(p, j).Failed? ensures j == i + m {
      assert t.steps[j - i].result == InstallAnswer(p, i + (j - i));
    }
  }

  /** The package part follows its plan, stops at the first rejection and
      succeeds exactly when there is nothing to install or micropip and
      every install succeed; it fails either by a rejected call, which is
      its last, or by the TypeError at `loadPackage` when no runtime is
      loaded, before any call. */
  lemma PackagesShape(slot: Slot, reqs: seq<string>, p: Platform)
    ensures var a := PreparePackages(slot, reqs, p);
            && Follows(a.steps, PackagePlan(reqs))
            && StopsAtFirstFailure(a)
            && a.stdout == []
            && (a.outcome.Done? <==>
                  reqs == [] || (slot.Loaded? && p.loadPackage.Done? && p.pyimport.Done? && AllInstallsSucceed(p, reqs, 0)))
            && (a.outcome.Done? ==> |a.steps| == |PackagePlan(reqs)| && AllDone(a.steps))
            && (!slot.Loaded? ==> a.steps == [])
            && (|a.steps| > 2 ==> a.steps[0] == Step(LoadPackage(Micropip), Done) && a.steps[1] == Step(PyImport(Micropip), Done))
            && (a.outcome.Failed? ==>
                  || FailsAtLastCall(a)
                  || (reqs != [] && !slot.Loaded? && a.outcome == Failed(MissingRuntime("loadPackage"))))
  {
    var a := PreparePackages(slot, reqs, p);
    if reqs == [] || !slot.Loaded? {
      assert a.steps == [];
    } else if p.loadPackage.Failed? {
      assert a.steps == [Step(LoadPackage(Micropip), p.loadPackage)];
    } else if p.pyimport.Failed? {
      assert a.steps == [Step(LoadPackage(Micropip), Done), Step(PyImport(Micropip), p.pyimport)];
    } else {
      var ins := InstallFrom(p, reqs, 0);
      InstallFromShape(p, reqs, 0);
      InstallsFollowPlan(p, reqs);
      MicropipThenInstalls(ins, reqs);
      if ins.outcome.Failed? {
        FailsAtLastCallAfter([Step(LoadPackage(Micropip), Done), Step(PyImport(Micropip), Done)], ins);
      }
      assert a == Trace([Step(LoadPackage(Micropip), Done), Step(PyImport(Micropip), Done)] + ins.steps, ins.outcome, []);
    }
  }

  /** The install loop's calls are the planned installs. */
  lemma InstallsFollowPlan(p: Platform, reqs: seq<string>)
    ensures Follows(InstallFrom(p, reqs, 0).steps, InstallCalls(reqs))
  {
    var ins := InstallFrom(p, reqs, 0);
    InstallFromShape(p, reqs, 0);
    forall k | 0 <= k < |ins.steps| ensures ins.steps[k].call == InstallCalls(reqs)[k] {
      assert ins.steps[k].call == Install(reqs[0 + k]);
    }
  }

  /** The successful micropip prefix followed by any install trace that
      follows the install plan. */
  lemma MicropipThenInstalls(ins: Trace, reqs: seq<string>)
    requires reqs != []
    requires Follows(ins.steps, InstallCalls(reqs)) && StopsAtFirstFailure(ins)
    requires ins.outcome.Done? ==> |ins.steps| == |reqs| && AllDone(ins.steps)
    ensures var a := Trace([Step(LoadPackage(Micropip), Done), Step(PyImport(Micropip), Done)] + ins.steps, ins.outcome, []);
            && Follows(a.steps, PackagePlan(reqs))
            && StopsAtFirstFailure(a)
            && (a.outcome.Done? ==> |a.steps| == |PackagePlan(reqs)| && AllDone(a.steps))
  {
    var micropip := [LoadPackage(Micropip), PyImport(Micropip)];
    var front := Trace([Step(LoadPackage(Micropip), Done), Step(PyImport(Micropip), Done)], Done, []);
    assert Follows(front.steps, micropip);
    ThenShape(front, ins, micropip, InstallCalls(reqs));
    assert Then(front, ins).steps == front.steps + ins.steps;
    assert PackagePlan(reqs) == micropip + InstallCalls(reqs);
  }

  /** Calls in front of a trace that failed at its last call leave that
      call the last. */
  lemma FailsAtLastCallAfter(front: seq<Step>, t: Trace)
    requires FailsAtLastCall(t)
    ensures FailsAtLastCall(Trace(front + t.steps, t.outcome, []))
  {
    assert (front + t.steps)[|front + t.steps| - 1] == t.steps[|t.steps| - 1];
  }

  /** The directory part follows its plan and stops at the first rejection;
      the mount is reached exactly when a picked directory was granted and
      the runtime is loaded; the script comes right after a successful
      mount; it prints only if it ran the script; and it fails either by a
      rejected call, which is its last, or by an error `run` throws itself
      right after the permission request: the permission error, or the
      TypeError at `mountNativeFS` when no runtime is loaded. */
  lemma DirectoryShape(slot: Slot, script: string, p: Platform)
    ensures var d := DirectoryThenScript(slot, script, p);
            && 1 <= |d.steps|
            && Follows(d.steps, DirectoryPlan(script, PickedDir(p)))
            && StopsAtFirstFailure(d)
            && (d.outcome.Done? ==> |d.steps| == 4 && AllDone(d.steps))
            && (|d.steps| >= 3 <==> p.picker.Fulfilled? && p.permission == Fulfilled(Granted) && slot.Loaded?)
            && (|d.steps| == 4 <==> |d.steps| >= 3 && p.mount.Done?)
            && (|d.steps| == 4 ==> d.steps[2].result.Done?)
            && (p.picker.Fulfilled? && p.permission.Fulfilled? && p.permission.value != Granted ==>
                  |d.steps| == 2 && d.outcome == Failed(PermissionError))
            && d.stdout == (if |d.steps| == 4 then p.stdout else [])
            && (!slot.Loaded? ==> |d.steps| <= 2 && d.outcome.Failed?)
            && (d.outcome.Failed? ==>
                  || FailsAtLastCall(d)
                  || (|d.steps| == 2 && p.permission.Fulfilled? && p.permission.value != Granted &&
                      d.outcome == Failed(PermissionError))
                  || (|d.steps| == 2 && p.permission == Fulfilled(Granted) && !slot.Loaded? &&
                      d.outcome == Failed(MissingRuntime("mountNativeFS"))))
  {
  }

  /** Sequencing two parts keeps "follows the plan" and "stops at the first
      failure". */
  lemma ThenShape(a: Trace, b: Trace, pa: seq<Call>, pb: seq<Call>)
    requires Follows(a.steps, pa) && StopsAtFirstFailure(a)
    requires a.outcome.Done? ==> |a.steps| == |pa| && AllDone(a.steps)
    requires Follows(b.steps, pb) && StopsAtFirstFailure(b)
    requires b.outcome.Done? ==> |b.steps| == |pb| && AllDone(b.steps)
    ensures Follows(Then(a, b).steps, pa + pb)
    ensures StopsAtFirstFailure(Then(a, b))
    ensures Then(a, b).outcome.Done? ==> |Then(a, b).steps| == |pa + pb| && AllDone(Then(a, b).steps)
  {
    if a.outcome.Failed? {
      FollowsLonger(a.steps, pa, pb);
    } else {
      FollowsAppend(a.steps, b.steps, pa, pb);
      StopsAppend(a, b);
      if b.outcome.Done? {
        DoneAppend(a.steps, b.steps);
      }
    }
  }

  lemma FollowsLonger(steps: seq<Step>, pa: seq<Call>, pb: seq<Call>)
    requires Follows(steps, pa)
    ensures Follows(steps, pa + pb)
  {
    forall i | 0 <= i < |steps| ensures steps[i].call == (pa + pb)[i] {
      assert (pa + pb)[i] == pa[i];
    }
  }

  lemma FollowsAppend(sa: seq<Step>, sb: seq<Step>, pa: seq<Call>, pb: seq<Call>)
    requires Follows(sa, pa) && |sa| == |pa| && Follows(sb, pb)
    ensures Follows(sa + sb, pa + pb)
  {
    forall i | 0 <= i < |sa + sb| ensures (sa + sb)[i].call == (pa + pb)[i] {
      if i < |sa| {
        assert (sa + sb)[i] == sa[i] && (pa + pb)[i] == pa[i];
      } else {
        assert (sa + sb)[i] == sb[i - |sa|] && (pa + pb)[i] == pb[i - |pa|];
      }
    }
  }

  lemma DoneAppend(sa: seq<Step>, sb: seq<Step>)
    requires AllDone(sa) && AllDone(sb)
    ensures AllDone(sa + sb)
  {
    forall i | 0 <= i < |sa + sb| ensures (sa + sb)[i].result.Done? {
      if i < |sa| {
        assert (sa + sb)[i] == sa[i];
      } else {
        assert (sa + sb)[i] == sb[i - |sa|];
      }
    }
  }

  lemma StopsAppend(a: Trace, b: Trace)
    requires a.outcome.Done? && AllDone(a.steps) && StopsAtFirstFailure(b)
    ensures StopsAtFirstFailure(Then(a, b))
  {
    var s := a.steps + b.steps;
    assert Then(a, b).steps == s && Then(a, b).outcome == b.outcome;
    forall i | 0 <= i < |s| - 1 ensures s[i].result.Done? {
      if i < |a.steps| {
        assert s[i] == a.steps[i];
      } else {
        assert s[i] == b.steps[i - |a.steps|];
      }
    }
    if b.steps != [] {
      assert s[|s| - 1] == b.steps[|b.steps| - 1];
    } else if s != [] {
      assert s == a.steps;
    }
  }

  /** The calls a run makes are the first calls of `Plan`, i.e. in the order
      micropip load, micropip import, one install per requirement line,
      directory prompt, permission request, mount, script; a run that
      succeeds made all of them, each successfully, and its output is what
      the script printed. */
  lemma RunFollowsPlan(slot: Slot, requirements: string, script: string, p: Platform)
    ensures Follows(RunTrace(slot, requirements, script, p).steps, Plan(requirements, script, PickedDir(p)))
    ensures RunTrace(slot, requirements, script, p).outcome.Done? ==>
              && |RunTrace(slot, requirements, script, p).steps| == |Plan(requirements, script, PickedDir(p))|
              && AllDone(RunTrace(slot, requirements, script, p).steps)
              && RunTrace(slot, requirements, script, p).stdout == p.stdout
  {
    var reqs := Requirements(requirements);
    PackagesShape(slot, reqs, p);
    DirectoryShape(slot, script, p);
    ThenShape(PreparePackages(slot, reqs, p), DirectoryThenScript(slot, script, p),
              PackagePlan(reqs), DirectoryPlan(script, PickedDir(p)));
  }

  /** A rejected call aborts every later step: only the last call may have
      failed, and if it did the run settles with that same rejection. */
  lemma NothingRunsAfterFailure(slot: Slot, requirements: string, script: string, p: Platform)
    ensures StopsAtFirstFailure(RunTrace(slot, requirements, script, p))
  {
    var reqs := Requirements(requirements);
    PackagesShape(slot, reqs, p);
    DirectoryShape(slot, script, p);
    ThenShape(PreparePackages(slot, reqs, p), DirectoryThenScript(slot, script, p),
              PackagePlan(reqs), DirectoryPlan(script, PickedDir(p)));
  }

  /** Where each call stands in the plan. */
  lemma PlanAt(reqs: seq<string>, script: string, dir: DirHandle)
    ensures var pre := if reqs == [] then 0 else 2 + |reqs|;
            var plan := PackagePlan(reqs) + DirectoryPlan(script, dir);
            && |PackagePlan(reqs)| == pre
            && |plan| == pre + 4
            && (reqs != [] ==> plan[0] == LoadPackage(Micropip) && plan[1] == PyImport(Micropip))
            && (forall k :: 0 <= k < |reqs| ==> plan[2 + k] == Install(reqs[k]))
            && plan[pre] == ShowDirectoryPicker
            && plan[pre + 1] == RequestPermission(ReadWrite)
            && plan[pre + 2] == MountNativeFS(MountPoint, dir)
            && plan[pre + 3] == RunPython(script)
            && (forall i :: 0 <= i < pre ==> plan[i].LoadPackage? || plan[i].PyImport? || plan[i].Install?)
  {
    var plan := PackagePlan(reqs) + DirectoryPlan(script, dir);
    if reqs != [] {
      var front := [LoadPackage(Micropip), PyImport(Micropip)];
      assert PackagePlan(reqs) == front + InstallCalls(reqs);
      assert forall k :: 0 <= k < |reqs| ==> plan[2 + k] == InstallCalls(reqs)[k];
    }
  }

  /** What kind of call stands at position `i` of the plan: package calls
      before `PackageCalls(reqs)`, then the four directory calls in order. */
  lemma PlanKind(reqs: seq<string>, script: string, dir: DirHandle, i: int)
    requires 0 <= i < |PackagePlan(reqs) + DirectoryPlan(script, dir)|
    ensures var c := (PackagePlan(reqs) + DirectoryPlan(script, dir))[i];
            && (i < PackageCalls(reqs) <==> c.LoadPackage? || c.PyImport? || c.Install?)
            && (c.LoadPackage? ==> i == 0)
            && (c.PyImport? ==> i == 1)
            && (c.Install? ==> 2 <= i)
            && (c.ShowDirectoryPicker? <==> i == PackageCalls(reqs))
            && (c.RequestPermission? <==> i == PackageCalls(reqs) + 1)
            && (c.MountNativeFS? <==> i == PackageCalls(reqs) + 2)
            && (c.RunPython? <==> i == PackageCalls(reqs) + 3)
  {
    PlanAt(reqs, script, dir);
    if 2 <= i < PackageCalls(reqs) {
      assert (PackagePlan(reqs) + DirectoryPlan(script, dir))[2 + (i - 2)] == Install(reqs[i - 2]);
    }
  }

  /** Number of calls before the directory prompt when nothing fails. */
  function PackageCalls(reqs: seq<string>): nat {
    |PackagePlan(reqs)|
  }

  /** A run is its package part alone if that part fails, and the package
      part followed by the directory part otherwise. */
  lemma RunSplit(slot: Slot, requirements: string, script: string, p: Platform)
    ensures var reqs := Requirements(requirements);
            var a := PreparePackages(slot, reqs, p);
            var t := RunTrace(slot, requirements, script, p);
            a.outcome.Failed? ==> t == a && |t.steps| <= PackageCalls(reqs)
    ensures var reqs := Requirements(requirements);
            var a := PreparePackages(slot, reqs, p);
            var d := DirectoryThenScript(slot, script, p);
            var t := RunTrace(slot, requirements, script, p);
            a.outcome.Done? ==>
              && t.steps == a.steps + d.steps && |a.steps| == PackageCalls(reqs)
              && t.outcome == d.outcome && t.stdout == d.stdout
  {
    var reqs := Requirements(requirements);
    var a := PreparePackages(slot, reqs, p);
    var d := DirectoryThenScript(slot, script, p);
    assert RunTrace(slot, requirements, script, p) == Then(a, d);
    PackagesShape(slot, reqs, p);
    ThenCases(a, d);
  }

  /** With whitespace-only requirements micropip is never touched: the first
      call of the run is the directory prompt. */
  lemma BlankRequirementsSkipMicropip(slot: Slot, requirements: string, script: string, p: Platform)
    requires AllTrimmable(requirements)
    ensures RunTrace(slot, requirements, script, p).steps != []
    ensures RunTrace(slot, requirements, script, p).steps[0].call == ShowDirectoryPicker
    ensures forall i :: 0 <= i < |RunTrace(slot, requirements, script, p).steps| ==>
              var c := RunTrace(slot, requirements, script, p).steps[i].call;
              !c.LoadPackage? && !c.PyImport? && !c.Install?
  {
    var reqs := Requirements(requirements);
    assert reqs == [];
    var a := PreparePackages(slot, reqs, p);
    assert a == Trace([], Done, []);
    var d := DirectoryThenScript(slot, script, p);
    assert RunTrace(slot, requirements, script, p) == Then(a, d);
    NothingFirst(d);
    DirectoryShape(slot, script, p);
    DirectoryOnly(d.steps, script, PickedDir(p));
  }

  /** A part that makes no call and succeeds adds nothing. */
  lemma NothingFirst(d: Trace)
    ensures Then(Trace([], Done, []), d).steps == d.steps
  {
    assert [] + d.steps == d.steps;
  }

  /** A non-empty run of the directory part alone starts with the prompt and
      calls nothing of micropip. */
  lemma DirectoryOnly(steps: seq<Step>, script: string, dir: DirHandle)
    requires steps != [] && Follows(steps, DirectoryPlan(script, dir))
    ensures steps[0].call == ShowDirectoryPicker
    ensures forall i :: 0 <= i < |steps| ==> !steps[i].call.LoadPackage? && !steps[i].call.PyImport? && !steps[i].call.Install?
  {
  }

  /** micropip is loaded and imported, successfully, before any install. */
  lemma MicropipBeforeInstalls(slot: Slot, requirements: string, script: string, p: Platform)
    ensures var t := RunTrace(slot, requirements, script, p);
            forall i :: 0 <= i < |t.steps| && t.steps[i].call.Install? ==>
              && 2 <= i
              && t.steps[0] == Step(LoadPackage(Micropip), Done)
              && t.steps[1] == Step(PyImport(Micropip), Done)
  {
    RunFollowsPlan(slot, requirements, script, p);
    NothingRunsAfterFailure(slot, requirements, script, p);
    PlannedMicropipFirst(RunTrace(slot, requirements, script, p), Requirements(requirements), script, PickedDir(p));
  }

  lemma PlannedMicropipFirst(t: Trace, reqs: seq<string>, script: string, dir: DirHandle)
    requires Follows(t.steps, PackagePlan(reqs) + DirectoryPlan(script, dir))
    requires StopsAtFirstFailure(t)
    ensures forall i :: 0 <= i < |t.steps| && t.steps[i].call.Install? ==>
              && 2 <= i
              && t.steps[0] == Step(LoadPackage(Micropip), Done)
              && t.steps[1] == Step(PyImport(Micropip), Done)
  {
    forall i | 0 <= i < |t.steps| && t.steps[i].call.Install?
      ensures 2 <= i && t.steps[0] == Step(LoadPackage(Micropip), Done) && t.steps[1] == Step(PyImport(Micropip), Done)
    {
      PlanKind(reqs, script, dir, i);
      PlanAt(reqs, script, dir);
    }
  }

  /** The directory prompt is reached exactly when micropip and every install
      succeeded, or when there was nothing to install. */
  lemma PromptReachedExactly(slot: Slot, requirements: string, script: string, p: Platform)
    ensures var t := RunTrace(slot, requirements, script, p);
            var reqs := Requirements(requirements);
            (exists i :: 0 <= i < |t.steps| && t.steps[i].call == ShowDirectoryPicker) <==>
              reqs == [] || (slot.Loaded? && p.loadPackage.Done? && p.pyimport.Done? && AllInstallsSucceed(p, reqs, 0))
  {
    var reqs := Requirements(requirements);
    var a := PreparePackages(slot, reqs, p);
    var d := DirectoryThenScript(slot, script, p);
    var t := RunTrace(slot, requirements, script, p);
    RunSplit(slot, requirements, script, p);
    PackagesShape(slot, reqs, p);
    RunFollowsPlan(slot, requirements, script, p);
    NothingRunsAfterFailure(slot, requirements, script, p);
    PlannedPrompt(t, reqs, script, PickedDir(p));
    if a.outcome.Done? {
      DirectoryShape(slot, script, p);
      assert t.steps[PackageCalls(reqs)] == d.steps[0];
    }
    PromptOnParts(t, PackageCalls(reqs), a.outcome.Done?);
  }

  /** The prompt argument on a run `t` whose prompt can only be its `n`-th
      call: the prompt is reached exactly when the package part succeeded. */
  lemma PromptOnParts(t: Trace, n: nat, packagesDone: bool)
    requires !packagesDone ==> |t.steps| <= n
    requires packagesDone ==> n < |t.steps| && t.steps[n].call == ShowDirectoryPicker
    requires forall i :: 0 <= i < |t.steps| && t.steps[i].call == ShowDirectoryPicker ==> i == n
    ensures (exists i :: 0 <= i < |t.steps| && t.steps[i].call == ShowDirectoryPicker) <==> packagesDone
  {
  }

  /** Once the directory prompt is reached it is the call right after the
      installs, and the installs made were exactly the requirement lines, in
      order, one call each, all successful. */
  lemma InstallsAreTheLines(slot: Slot, requirements: string, script: string, p: Platform)
    ensures var t := RunTrace(slot, requirements, script, p);
            var reqs := Requirements(requirements);
            |t.steps| > PackageCalls(reqs) ==>
              && t.steps[PackageCalls(reqs)].call == ShowDirectoryPicker
              && forall k :: 0 <= k < |reqs| ==> t.steps[2 + k] == Step(Install(reqs[k]), Done)
  {
    RunFollowsPlan(slot, requirements, script, p);
    NothingRunsAfterFailure(slot, requirements, script, p);
    PlannedPrompt(RunTrace(slot, requirements, script, p), Requirements(requirements), script, PickedDir(p));
  }

  /** In a trace that follows the plan, the prompt can only stand right after
      the package calls, and once it is there every package call before it
      succeeded. */
  lemma PlannedPrompt(t: Trace, reqs: seq<string>, script: string, dir: DirHandle)
    requires Follows(t.steps, PackagePlan(reqs) + DirectoryPlan(script, dir))
    requires StopsAtFirstFailure(t)
    ensures forall i :: 0 <= i < |t.steps| && t.steps[i].call == ShowDirectoryPicker ==> i == PackageCalls(reqs)
    ensures |t.steps| > PackageCalls(reqs) ==>
              && t.steps[PackageCalls(reqs)].call == ShowDirectoryPicker
              && forall k :: 0 <= k < |reqs| ==> t.steps[2 + k] == Step(Install(reqs[k]), Done)
  {
    var pre := PackageCalls(reqs);
    forall i | 0 <= i < |t.steps| && t.steps[i].call == ShowDirectoryPicker ensures i == pre {
      PlanKind(reqs, script, dir, i);
    }
    if |t.steps| > pre {
      PlanAt(reqs, script, dir);
      forall k | 0 <= k < |reqs| ensures t.steps[2 + k] == Step(Install(reqs[k]), Done) {
        assert t.steps[2 + k].call == Install(reqs[k]);
      }
    }
  }

  /** In a trace that follows the plan, each directory call can only stand at
      its own place after the package calls. */
  lemma PlannedDirectoryCalls(t: Trace, reqs: seq<string>, script: string, dir: DirHandle)
    requires Follows(t.steps, PackagePlan(reqs) + DirectoryPlan(script, dir))
    requires StopsAtFirstFailure(t)
    ensures forall i :: 0 <= i < |t.steps| && t.steps[i].call.RequestPermission? ==> i == PackageCalls(reqs) + 1
    ensures forall i :: 0 <= i < |t.steps| && t.steps[i].call.MountNativeFS? ==> i == PackageCalls(reqs) + 2
    ensures forall i :: 0 <= i < |t.steps| && t.steps[i].call.RunPython? ==>
              && i == PackageCalls(reqs) + 3 && i == |t.steps| - 1
              && t.steps[i].call == RunPython(script)
              && t.steps[i - 1] == Step(MountNativeFS(MountPoint, dir), Done)
  {
    var pre := PackageCalls(reqs);
    forall i | 0 <= i < |t.steps| && t.steps[i].call.RequestPermission? ensures i == pre + 1 {
      PlanKind(reqs, script, dir, i);
    }
    forall i | 0 <= i < |t.steps| && t.steps[i].call.MountNativeFS? ensures i == pre + 2 {
      PlanKind(reqs, script, dir, i);
    }
    forall i | 0 <= i < |t.steps| && t.steps[i].call.RunPython?
      ensures i == pre + 3 && i == |t.steps| - 1 && t.steps[i].call == RunPython(script)
      ensures t.steps[i - 1] == Step(MountNativeFS(MountPoint, dir), Done)
    {
      PlanKind(reqs, script, dir, i);
      PlanAt(reqs, script, dir);
      assert t.steps[i - 1].call == MountNativeFS(MountPoint, dir);
    }
  }

  /** The mount and the script happen only after a picked directory was
      granted read-write access and the runtime is loaded; a status other
      than "granted", once the permission request is reached, ends the run
      right there, with the permission error. */
  lemma PermissionGatesMount(slot: Slot, requirements: string, script: string, p: Platform)
    ensures var t := RunTrace(slot, requirements, script, p);
            forall i :: 0 <= i < |t.steps| && (t.steps[i].call.MountNativeFS? || t.steps[i].call.RunPython?) ==>
              p.picker.Fulfilled? && p.permission == Fulfilled(Granted) && slot.Loaded?
    ensures var t := RunTrace(slot, requirements, script, p);
            forall i :: 0 <= i < |t.steps| && t.steps[i].call.RequestPermission? &&
                        p.permission.Fulfilled? && p.permission.value != Granted ==>
              i == |t.steps| - 1 && t.outcome == Failed(PermissionError)
  {
    var reqs := Requirements(requirements);
    var a := PreparePackages(slot, reqs, p);
    var d := DirectoryThenScript(slot, script, p);
    var t := RunTrace(slot, requirements, script, p);
    RunSplit(slot, requirements, script, p);
    RunFollowsPlan(slot, requirements, script, p);
    NothingRunsAfterFailure(slot, requirements, script, p);
    PlannedDirectoryCalls(t, reqs, script, PickedDir(p));
    DirectoryShape(slot, script, p);
    if p.picker.Rejected? {
      assert |d.steps| == 1;
    }
    GateOnParts(t, d, PackageCalls(reqs), a.outcome.Done?,
                p.picker.Fulfilled? && p.permission == Fulfilled(Granted) && slot.Loaded?,
                p.permission.Fulfilled? && p.permission.value != Granted);
  }

  /** The gate argument on a run `t` whose first `n` calls belong to the
      package part when that part succeeds, followed by the directory part
      `d`: a mount or a script run lies past the permission request, and a
      refused permission leaves nothing after the request. */
  lemma GateOnParts(t: Trace, d: Trace, n: nat, packagesDone: bool, granted: bool, refused: bool)
    requires !packagesDone ==> |t.steps| <= n
    requires packagesDone ==> |t.steps| == n + |d.steps| && t.outcome == d.outcome
    requires |d.steps| >= 3 ==> granted
    requires refused && |d.steps| >= 2 ==> |d.steps| == 2 && d.outcome == Failed(PermissionError)
    requires forall i :: 0 <= i < |t.steps| && t.steps[i].call.RequestPermission? ==> i == n + 1
    requires forall i :: 0 <= i < |t.steps| && t.steps[i].call.MountNativeFS? ==> i == n + 2
    requires forall i :: 0 <= i < |t.steps| && t.steps[i].call.RunPython? ==> i == n + 3
    ensures forall i :: 0 <= i < |t.steps| && (t.steps[i].call.MountNativeFS? || t.steps[i].call.RunPython?) ==> granted
    ensures forall i :: 0 <= i < |t.steps| && t.steps[i].call.RequestPermission? && refused ==>
              i == |t.steps| - 1 && t.outcome == Failed(PermissionError)
  {
  }

  /** The script runs at most once, as the very last call, right after the
      mount of the picked directory at the runtime's files path succeeded. */
  lemma ScriptRunsOnceAfterMount(slot: Slot, requirements: string, script: string, p: Platform)
    ensures var t := RunTrace(slot, requirements, script, p);
            forall i :: 0 <= i < |t.steps| && t.steps[i].call.RunPython? ==>
              && i == |t.steps| - 1 && 1 <= i
              && t.steps[i].call == RunPython(script)
              && t.steps[i - 1] == Step(MountNativeFS(MountPoint, PickedDir(p)), Done)
  {
    RunFollowsPlan(slot, requirements, script, p);
    NothingRunsAfterFailure(slot, requirements, script, p);
    PlannedDirectoryCalls(RunTrace(slot, requirements, script, p), Requirements(requirements), script, PickedDir(p));
  }

  /** How an answer with a result settles the call that received it. */
  function SettledAs<T>(s: Settled<T>): Outcome {
    if s.Fulfilled? then Done else Failed(s.reason)
  }

  /** The answer to the `k`-th call of the package part. */
  function PackageAnswer(p: Platform, k: nat): Outcome {
    if k == 0 then p.loadPackage else if k == 1 then p.pyimport else InstallAnswer(p, k - 2)
  }

  /** The answer to the `j`-th call of the directory part. */
  function DirectoryAnswer(p: Platform, j: nat): Outcome {
    if j == 0 then SettledAs(p.picker)
    else if j == 1 then SettledAs(p.permission)
    else if j == 2 then p.mount
    else p.python
  }

  /** The answer to the `i`-th planned call of a run. */
  function PlannedAnswer(p: Platform, reqs: seq<string>, i: nat): Outcome {
    if i < PackageCalls(reqs) then PackageAnswer(p, i) else DirectoryAnswer(p, i - PackageCalls(reqs))
  }

  /** Each call of the package part settles as its answer says. */
  lemma PackageAnswers(slot: Slot, reqs: seq<string>, p: Platform)
    ensures forall k :: 0 <= k < |PreparePackages(slot, reqs, p).steps| ==>
              PreparePackages(slot, reqs, p).steps[k].result == PackageAnswer(p, k)
  {
    var a := PreparePackages(slot, reqs, p);
    if reqs != [] && slot.Loaded? && p.loadPackage.Done? && p.pyimport.Done? {
      var ins := InstallFrom(p, reqs, 0);
      InstallFromShape(p, reqs, 0);
      assert a.steps == [Step(LoadPackage(Micropip), Done), Step(PyImport(Micropip), Done)] + ins.steps;
      forall k | 2 <= k < |a.steps| ensures a.steps[k].result == PackageAnswer(p, k) {
        assert a.steps[k] == ins.steps[k - 2];
        assert ins.steps[k - 2].result == InstallAnswer(p, 0 + (k - 2));
      }
    }
  }

  /** Each call of the directory part settles as its answer says, the script
      settles the part, and the part succeeds exactly when the picker, a
      "granted" permission, a loaded runtime, the mount and the script all
      succeed. */
  lemma DirectoryAnswers(slot: Slot, script: string, p: Platform)
    ensures var d := DirectoryThenScript(slot, script, p);
            forall j :: 0 <= j < |d.steps| ==> d.steps[j].result == DirectoryAnswer(p, j)
    ensures |DirectoryThenScript(slot, script, p).steps| == 4 ==> DirectoryThenScript(slot, script, p).outcome == p.python
    ensures DirectoryThenScript(slot, script, p).outcome.Done? <==>
              p.picker.Fulfilled? && p.permission == Fulfilled(Granted) && slot.Loaded? && p.mount.Done? && p.python.Done?
  {
  }

  /** Lifting the answers of both parts to the whole run, whose calls are
      the package part's alone or those followed by the directory part's. */
  lemma AnswersOfParts(t: Trace, a: Trace, d: Trace, p: Platform, reqs: seq<string>)
    requires |a.steps| <= PackageCalls(reqs)
    requires t.steps == a.steps || (|a.steps| == PackageCalls(reqs) && t.steps == a.steps + d.steps)
    requires forall k :: 0 <= k < |a.steps| ==> a.steps[k].result == PackageAnswer(p, k)
    requires forall j :: 0 <= j < |d.steps| ==> d.steps[j].result == DirectoryAnswer(p, j)
    ensures forall i :: 0 <= i < |t.steps| ==> t.steps[i].result == PlannedAnswer(p, reqs, i)
  {
    forall i | 0 <= i < |t.steps| ensures t.steps[i].result == PlannedAnswer(p, reqs, i) {
      if i < |a.steps| {
        assert t.steps[i] == a.steps[i];
      } else {
        assert t.steps[i] == d.steps[i - PackageCalls(reqs)];
      }
    }
  }

  /** The `i`-th call of a run settles as the answer to the `i`-th planned
      call says. */
  lemma RunAnswers(slot: Slot, requirements: string, script: string, p: Platform)
    ensures var t := RunTrace(slot, requirements, script, p);
            forall i :: 0 <= i < |t.steps| ==> t.steps[i].result == PlannedAnswer(p, Requirements(requirements), i)
  {
    var reqs := Requirements(requirements);
    var a := PreparePackages(slot, reqs, p);
    var d := DirectoryThenScript(slot, script, p);
    var t := RunTrace(slot, requirements, script, p);
    RunSplit(slot, requirements, script, p);
    PackageAnswers(slot, reqs, p);
    DirectoryAnswers(slot, script, p);
    AnswersOfParts(t, a, d, p, reqs);
  }

  /** Every recorded result is the answer of the collaborator that was
      called: `loadPackage`, `pyimport`, the `k`-th `install`, the picker,
      the permission request, the mount and `runPython`. */
  lemma CallAnswers(slot: Slot, requirements: string, script: string, p: Platform)
    ensures var t := RunTrace(slot, requirements, script, p);
            forall i :: 0 <= i < |t.steps| ==>
              var s := t.steps[i];
              && (s.call.LoadPackage? ==> s.result == p.loadPackage)
              && (s.call.PyImport? ==> s.result == p.pyimport)
              && (s.call.Install? ==> 2 <= i && s.result == InstallAnswer(p, i - 2))
              && (s.call.ShowDirectoryPicker? ==> s.result == SettledAs(p.picker))
              && (s.call.RequestPermission? ==> s.result == SettledAs(p.permission))
              && (s.call.MountNativeFS? ==> s.result == p.mount)
              && (s.call.RunPython? ==> s.result == p.python)
  {
    var reqs := Requirements(requirements);
    var t := RunTrace(slot, requirements, script, p);
    RunAnswers(slot, requirements, script, p);
    RunFollowsPlan(slot, requirements, script, p);
    forall i | 0 <= i < |t.steps| ensures
      var s := t.steps[i];
      && (s.call.LoadPackage? ==> s.result == p.loadPackage)
      && (s.call.PyImport? ==> s.result == p.pyimport)
      && (s.call.Install? ==> 2 <= i && s.result == InstallAnswer(p, i - 2))
      && (s.call.ShowDirectoryPicker? ==> s.result == SettledAs(p.picker))
      && (s.call.RequestPermission? ==> s.result == SettledAs(p.permission))
      && (s.call.MountNativeFS? ==> s.result == p.mount)
      && (s.call.RunPython? ==> s.result == p.python)
    {
      PlanKind(reqs, script, PickedDir(p), i);
    }
  }

  /** A rejected answer ends the run: the call that received it is the last
      one, and the run settles with that rejection. */
  lemma RejectedAnswerEndsRun(slot: Slot, requirements: string, script: string, p: Platform)
    ensures var t := RunTrace(slot, requirements, script, p);
            forall i :: 0 <= i < |t.steps| && PlannedAnswer(p, Requirements(requirements), i).Failed? ==>
              i == |t.steps| - 1 && t.outcome == PlannedAnswer(p, Requirements(requirements), i)
  {
    RunAnswers(slot, requirements, script, p);
    NothingRunsAfterFailure(slot, requirements, script, p);
    AnsweredRejectionIsLast(RunTrace(slot, requirements, script, p), p, Requirements(requirements));
  }

  /** In a trace that stops at the first failure and records the planned
      answers, a rejected answer is the last call and settles the trace. */
  lemma AnsweredRejectionIsLast(t: Trace, p: Platform, reqs: seq<string>)
    requires StopsAtFirstFailure(t)
    requires forall i :: 0 <= i < |t.steps| ==> t.steps[i].result == PlannedAnswer(p, reqs, i)
    ensures forall i :: 0 <= i < |t.steps| && PlannedAnswer(p, reqs, i).Failed? ==>
              i == |t.steps| - 1 && t.outcome == PlannedAnswer(p, reqs, i)
  {
  }

  /** A rejected `micropip.install` ends the loop and the run: no later
      install, and no directory prompt. */
  lemma RejectedInstallEndsRun(slot: Slot, requirements: string, script: string, p: Platform)
    ensures var t := RunTrace(slot, requirements, script, p);
            var reqs := Requirements(requirements);
            forall k :: 0 <= k < |reqs| && 2 + k < |t.steps| && InstallAnswer(p, k).Failed? ==>
              |t.steps| == 3 + k && t.steps[2 + k].result == InstallAnswer(p, k) && t.outcome == InstallAnswer(p, k)
  {
    RejectedAnswerEndsRun(slot, requirements, script, p);
    RunAnswers(slot, requirements, script, p);
    InstallRejectionIsLast(RunTrace(slot, requirements, script, p), p, Requirements(requirements));
  }

  /** The install part of `AnsweredRejectionIsLast`: the `k`-th install is
      the planned call `2 + k`. */
  lemma InstallRejectionIsLast(t: Trace, p: Platform, reqs: seq<string>)
    requires forall i :: 0 <= i < |t.steps| ==> t.steps[i].result == PlannedAnswer(p, reqs, i)
    requires forall i :: 0 <= i < |t.steps| && PlannedAnswer(p, reqs, i).Failed? ==>
               i == |t.steps| - 1 && t.outcome == PlannedAnswer(p, reqs, i)
    ensures forall k :: 0 <= k < |reqs| && 2 + k < |t.steps| && InstallAnswer(p, k).Failed? ==>
              |t.steps| == 3 + k && t.steps[2 + k].result == InstallAnswer(p, k) && t.outcome == InstallAnswer(p, k)
  {
    forall k | 0 <= k < |reqs| && 2 + k < |t.steps| && InstallAnswer(p, k).Failed?
      ensures |t.steps| == 3 + k && t.steps[2 + k].result == InstallAnswer(p, k) && t.outcome == InstallAnswer(p, k)
    {
      assert PlannedAnswer(p, reqs, 2 + k) == InstallAnswer(p, k);
    }
  }

  /** A rejected mount means the script never runs. */
  lemma RejectedMountNoScript(slot: Slot, requirements: string, script: string, p: Platform)
    requires p.mount.Failed?
    ensures var t := RunTrace(slot, requirements, script, p);
            forall i :: 0 <= i < |t.steps| ==> !t.steps[i].call.RunPython?
  {
    ScriptRunsOnceAfterMount(slot, requirements, script, p);
    CallAnswers(slot, requirements, script, p);
    ScriptNeedsMountAnswer(RunTrace(slot, requirements, script, p), p.mount);
  }

  /** In a trace where the script needs a successful mount right before it
      and every mount settles as `mount`, a script run means `mount` was a
      success. */
  lemma ScriptNeedsMountAnswer(t: Trace, mount: Outcome)
    requires forall i :: 0 <= i < |t.steps| && t.steps[i].call.RunPython? ==>
               1 <= i && t.steps[i - 1].call.MountNativeFS? && t.steps[i - 1].result == Done
    requires forall i :: 0 <= i < |t.steps| && t.steps[i].call.MountNativeFS? ==> t.steps[i].result == mount
    ensures forall i :: 0 <= i < |t.steps| && t.steps[i].call.RunPython? ==> mount == Done
  {
    forall i | 0 <= i < |t.steps| && t.steps[i].call.RunPython? ensures mount == Done {
      assert t.steps[i - 1].result == mount;
    }
  }

  /** A run succeeds exactly when every answer it needs is a success: micropip
      and every install when there are requirements, the picker, a
      "granted" permission, a loaded runtime, the mount and the script. */
  lemma RunSucceedsExactly(slot: Slot, requirements: string, script: string, p: Platform)
    ensures var reqs := Requirements(requirements);
            RunTrace(slot, requirements, script, p).outcome.Done? <==>
              && (reqs == [] || (p.loadPackage.Done? && p.pyimport.Done? && AllInstallsSucceed(p, reqs, 0)))
              && p.picker.Fulfilled? && p.permission == Fulfilled(Granted) && slot.Loaded?
              && p.mount.Done? && p.python.Done?
  {
    var reqs := Requirements(requirements);
    RunSplit(slot, requirements, script, p);
    PackagesShape(slot, reqs, p);
    DirectoryAnswers(slot, script, p);
  }

  /** How a failed run came to fail: its last call received a rejected
      answer, which settles the run; or `run` threw by itself without a
      further call, with the TypeError at `loadPackage` when no runtime is
      loaded, with the permission error on a status other than "granted",
      or with the TypeError at `mountNativeFS` when no runtime is loaded. */
  lemma RunFailureOrigin(slot: Slot, requirements: string, script: string, p: Platform)
    ensures var reqs := Requirements(requirements);
            var t := RunTrace(slot, requirements, script, p);
            var n := PackageCalls(reqs);
            t.outcome.Failed? ==>
              || (FailsAtLastCall(t) && t.outcome == PlannedAnswer(p, reqs, |t.steps| - 1))
              || (t.steps == [] && reqs != [] && !slot.Loaded? && t.outcome == Failed(MissingRuntime("loadPackage")))
              || (|t.steps| == n + 2 && p.permission.Fulfilled? && p.permission.value != Granted &&
                  t.outcome == Failed(PermissionError))
              || (|t.steps| == n + 2 && p.permission == Fulfilled(Granted) && !slot.Loaded? &&
                  t.outcome == Failed(MissingRuntime("mountNativeFS")))
  {
    var reqs := Requirements(requirements);
    var a := PreparePackages(slot, reqs, p);
    var d := DirectoryThenScript(slot, script, p);
    var t := RunTrace(slot, requirements, script, p);
    RunSplit(slot, requirements, script, p);
    PackagesShape(slot, reqs, p);
    DirectoryShape(slot, script, p);
    RunAnswers(slot, requirements, script, p);
    FailureOfParts(t, a, d, PackageCalls(reqs),
                   reqs != [] && !slot.Loaded?, Failed(MissingRuntime("loadPackage")),
                   p.permission.Fulfilled? && p.permission.value != Granted, Failed(PermissionError),
                   p.permission == Fulfilled(Granted) && !slot.Loaded?, Failed(MissingRuntime("mountNativeFS")));
    LastAnswerSettles(t, p, reqs);
  }

  /** A run that is its failed package part alone, or the package part's
      `n` calls followed by the directory part, fails the way the part it
      ended in failed: at its last call, or by one of the errors the parts
      throw themselves, under the condition `c1`, `c2` or `c3` each is
      thrown on. */
  lemma FailureOfParts(t: Trace, a: Trace, d: Trace, n: nat,
                       c1: bool, e1: Outcome, c2: bool, e2: Outcome, c3: bool, e3: Outcome)
    requires a.outcome.Failed? ==> t == a
    requires a.outcome.Done? ==> t.steps == a.steps + d.steps && |a.steps| == n && t.outcome == d.outcome
    requires a.outcome.Failed? ==> FailsAtLastCall(a) || (a.steps == [] && c1 && a.outcome == e1)
    requires d.outcome.Failed? ==>
               FailsAtLastCall(d) || (|d.steps| == 2 && c2 && d.outcome == e2) || (|d.steps| == 2 && c3 && d.outcome == e3)
    ensures t.outcome.Failed? ==>
              || FailsAtLastCall(t)
              || (t.steps == [] && c1 && t.outcome == e1)
              || (|t.steps| == n + 2 && c2 && t.outcome == e2)
              || (|t.steps| == n + 2 && c3 && t.outcome == e3)
  {
    if a.outcome.Done? && d.steps != [] {
      assert t.steps[|t.steps| - 1] == d.steps[|d.steps| - 1];
    }
  }

  /** In a trace that records the planned answers, a last call that settled
      the trace settled it with its planned answer. */
  lemma LastAnswerSettles(t: Trace, p: Platform, reqs: seq<string>)
    requires forall i :: 0 <= i < |t.steps| ==> t.steps[i].result == PlannedAnswer(p, reqs, i)
    ensures FailsAtLastCall(t) ==> t.outcome == PlannedAnswer(p, reqs, |t.steps| - 1)
  {
  }

  /** With requirements and a loaded runtime, a rejected `loadPackage` is the
      only call and settles the run, and so does a rejected `pyimport`
      after a fulfilled `loadPackage`. */
  lemma MicropipRejectionSettlesRun(slot: Slot, requirements: string, script: string, p: Platform)
    requires Requirements(requirements) != [] && slot.Loaded?
    ensures var t := RunTrace(slot, requirements, script, p);
            && (p.loadPackage.Failed? ==>
                  t.steps == [Step(LoadPackage(Micropip), p.loadPackage)] && t.outcome == p.loadPackage)
            && (p.loadPackage.Done? && p.pyimport.Failed? ==>
                  && t.steps == [Step(LoadPackage(Micropip), Done), Step(PyImport(Micropip), p.pyimport)]
                  && t.outcome == p.pyimport)
  {
    ThenCases(PreparePackages(slot, Requirements(requirements), p), DirectoryThenScript(slot, script, p));
  }

  /** Once micropip is loaded and imported, the run installs the lines up to
      the first rejected install, that one included, calls nothing after it
      and settles with its rejection. */
  lemma FirstRejectedInstallSettlesRun(slot: Slot, requirements: string, script: string, p: Platform, k: nat)
    requires slot.Loaded? && p.loadPackage.Done? && p.pyimport.Done?
    requires FirstRejectedInstall(p, Requirements(requirements), 0, k)
    ensures var reqs := Requirements(requirements);
            var t := RunTrace(slot, requirements, script, p);
            && |t.steps| == 3 + k
            && (forall j :: 0 <= j <= k ==> t.steps[2 + j].call == Install(reqs[j]))
            && t.steps[2 + k].result == InstallAnswer(p, k)
            && t.outcome == InstallAnswer(p, k)
  {
    var reqs := Requirements(requirements);
    var ins := InstallFrom(p, reqs, 0);
    var a := PreparePackages(slot, reqs, p);
    var t := RunTrace(slot, requirements, script, p);
    InstallFromShape(p, reqs, 0);
    ShapedFirstRejection(p, reqs, 0, ins, k);
    assert a == Trace([Step(LoadPackage(Micropip), Done), Step(PyImport(Micropip), Done)] + ins.steps, ins.outcome, []);
    RunSplit(slot, requirements, script, p);
    InstallsAtFront(t, ins, reqs, k);
  }

  /** A run that is micropip's two calls followed by an install trace that
      ran the lines up to the `k`-th and stopped there. */
  lemma InstallsAtFront(t: Trace, ins: Trace, reqs: seq<string>, k: nat)
    requires t.steps == [Step(LoadPackage(Micropip), Done), Step(PyImport(Micropip), Done)] + ins.steps
    requires k < |reqs| && |ins.steps| == k + 1
    requires forall j :: 0 <= j < |ins.steps| ==> ins.steps[j].call == Install(reqs[0 + j])
    ensures |t.steps| == 3 + k
    ensures forall j :: 0 <= j <= k ==> t.steps[2 + j].call == Install(reqs[j])
    ensures t.steps[2 + k] == ins.steps[k]
  {
    forall j | 0 <= j <= k ensures t.steps[2 + j].call == Install(reqs[j]) {
      assert t.steps[2 + j] == ins.steps[j];
    }
  }

  /** Once the package part succeeded, the run goes through the directory
      calls in order, each settling as its answer says, up to the first
      rejected one or the error `run` throws itself. */
  lemma DirectoryPartSettlesRun(slot: Slot, requirements: string, script: string, p: Platform)
    requires var reqs := Requirements(requirements);
             reqs == [] || (slot.Loaded? && p.loadPackage.Done? && p.pyimport.Done? && AllInstallsSucceed(p, reqs, 0))
    ensures var t := RunTrace(slot, requirements, script, p);
            var n := PackageCalls(Requirements(requirements));
            && n < |t.steps| && t.steps[n] == Step(ShowDirectoryPicker, SettledAs(p.picker))
            && (p.picker.Rejected? ==> |t.steps| == n + 1 && t.outcome == Failed(p.picker.reason))
            && (p.picker.Fulfilled? ==>
                  n + 1 < |t.steps| && t.steps[n + 1] == Step(RequestPermission(ReadWrite), SettledAs(p.permission)))
            && (p.picker.Fulfilled? && p.permission.Rejected? ==>
                  |t.steps| == n + 2 && t.outcome == Failed(p.permission.reason))
            && (p.picker.Fulfilled? && p.permission.Fulfilled? && p.permission.value != Granted ==>
                  |t.steps| == n + 2 && t.outcome == Failed(PermissionError))
            && (p.picker.Fulfilled? && p.permission == Fulfilled(Granted) && !slot.Loaded? ==>
                  |t.steps| == n + 2 && t.outcome == Failed(MissingRuntime("mountNativeFS")))
            && (p.picker.Fulfilled? && p.permission == Fulfilled(Granted) && slot.Loaded? ==>
                  && n + 2 < |t.steps|
                  && t.steps[n + 2] == Step(MountNativeFS(MountPoint, p.picker.value), p.mount)
                  && (p.mount.Failed? ==> |t.steps| == n + 3 && t.outcome == p.mount)
                  && (p.mount.Done? ==>
                        && |t.steps| == n + 4 && t.steps[n + 3] == Step(RunPython(script), p.python)
                        && t.outcome == p.python && t.stdout == p.stdout))
  {
    var reqs := Requirements(requirements);
    var d := DirectoryThenScript(slot, script, p);
    var t := RunTrace(slot, requirements, script, p);
    RunSplit(slot, requirements, script, p);
    PackagesShape(slot, reqs, p);
    DirectorySettles(slot, script, p);
    DirectoryAfterPackages(t, PreparePackages(slot, reqs, p), d, PackageCalls(reqs));
  }

  /** The directory part alone: each call in order with its answer, up to
      the first rejection or the error `run` throws itself. */
  lemma DirectorySettles(slot: Slot, script: string, p: Platform)
    ensures var d := DirectoryThenScript(slot, script, p);
            && 1 <= |d.steps| && d.steps[0] == Step(ShowDirectoryPicker, SettledAs(p.picker))
            && (p.picker.Rejected? ==> |d.steps| == 1 && d.outcome == Failed(p.picker.reason))
            && (p.picker.Fulfilled? ==>
                  2 <= |d.steps| && d.steps[1] == Step(RequestPermission(ReadWrite), SettledAs(p.permission)))
            && (p.picker.Fulfilled? && p.permission.Rejected? ==>
                  |d.steps| == 2 && d.outcome == Failed(p.permission.reason))
            && (p.picker.Fulfilled? && p.permission.Fulfilled? && p.permission.value != Granted ==>
                  |d.steps| == 2 && d.outcome == Failed(PermissionError))
            && (p.picker.Fulfilled? && p.permission == Fulfilled(Granted) && !slot.Loaded? ==>
                  |d.steps| == 2 && d.outcome == Failed(MissingRuntime("mountNativeFS")))
            && (p.picker.Fulfilled? && p.permission == Fulfilled(Granted) && slot.Loaded? ==>
                  && 3 <= |d.steps|
                  && d.steps[2] == Step(MountNativeFS(MountPoint, p.picker.value), p.mount)
                  && (p.mount.Failed? ==> |d.steps| == 3 && d.outcome == p.mount)
                  && (p.mount.Done? ==>
                        && |d.steps| == 4 && d.steps[3] == Step(RunPython(script), p.python)
                        && d.outcome == p.python && d.stdout == p.stdout))
  {
  }

  /** The calls of the directory part stand right after the package part's
      `n` calls. */
  lemma DirectoryAfterPackages(t: Trace, a: Trace, d: Trace, n: nat)
    requires t.steps == a.steps + d.steps && |a.steps| == n
    ensures |t.steps| == n + |d.steps|
    ensures forall j :: 0 <= j < |d.steps| ==> t.steps[n + j] == d.steps[j]
  {
  }

  /** A run adds to the output log only what the script printed, and only
      when its last call ran the script. */
  lemma OutputOnlyFromScript(slot: Slot, requirements: string, script: string, p: Platform)
    ensures var t := RunTrace(slot, requirements, script, p);
            t.stdout != [] ==> t.stdout == p.stdout && t.steps != [] && t.steps[|t.steps| - 1].call == RunPython(script)
  {
    var reqs := Requirements(requirements);
    var a := PreparePackages(slot, reqs, p);
    var d := DirectoryThenScript(slot, script, p);
    var t := RunTrace(slot, requirements, script, p);
    RunSplit(slot, requirements, script, p);
    PackagesShape(slot, reqs, p);
    if a.outcome.Done? && d.stdout != [] {
      DirectoryShape(slot, script, p);
      RunFollowsPlan(slot, requirements, script, p);
      PlanAt(reqs, script, PickedDir(p));
      assert |t.steps| == PackageCalls(reqs) + 4;
    }
  }

  /** A run without a loaded runtime fails and never reaches the runtime: the
      only calls it may make are the directory prompt and the permission
      request. */
  lemma NoRuntimeNoRuntimeCalls(slot: Slot, requirements: string, script: string, p: Platform)
    requires !slot.Loaded?
    ensures RunTrace(slot, requirements, script, p).outcome.Failed?
    ensures forall i :: 0 <= i < |RunTrace(slot, requirements, script, p).steps| ==>
              !UsesRuntime(RunTrace(slot, requirements, script, p).steps[i].call)
  {
    var reqs := Requirements(requirements);
    var d := DirectoryThenScript(slot, script, p);
    var t := RunTrace(slot, requirements, script, p);
    if reqs == [] {
      assert PreparePackages(slot, reqs, p) == Trace([], Done, []);
      assert t == Then(Trace([], Done, []), d);
      assert t.steps == d.steps;
      DirectoryShape(slot, script, p);
      PromptAndPermissionOnly(d.steps, script, PickedDir(p));
    } else {
      assert PreparePackages(slot, reqs, p) == Trace([], Failed(MissingRuntime("loadPackage")), []);
    }
  }

  /** The first two directory calls do not go through the runtime. */
  lemma PromptAndPermissionOnly(steps: seq<Step>, script: string, dir: DirHandle)
    requires |steps| <= 2 && Follows(steps, DirectoryPlan(script, dir))
    ensures forall i :: 0 <= i < |steps| ==> !UsesRuntime(steps[i].call)
  {
  }

  /** Only the whole text is trimmed: a blank line between two requirements
      stays, as an empty requirement that is passed to `micropip.install`
      like any other line. */
  lemma InnerBlankLineKept(x: string, y: string)
    requires x != [] && y != [] && '\n' !in x && '\n' !in y
    requires !IsTrimmable(x[0]) && !IsTrimmable(y[|y| - 1])
    ensures Requirements(x + "\n\n" + y) == [x, "", y]
  {
    var s := x + "\n\n" + y;
    assert s[0] == x[0] && s[|s| - 1] == y[|y| - 1];
    TrimKeepsSolidEnds(s);
    SplitBlankBetween(x, y);
  }

  lemma SplitBlankBetween(x: string, y: string)
    requires '\n' !in x && '\n' !in y
    ensures Split(x + "\n\n" + y) == [x, "", y]
  {
    assert x + "\n\n" + y == x + "\n" + ("\n" + y);
    SplitPrefix(x, "\n" + y);
    assert "\n" + y == [] + "\n" + y;
    SplitPrefix([], y);
    SplitLine(y);
  }
}
