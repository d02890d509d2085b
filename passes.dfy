/** The pass manager of src/pass_manager.rs. A pass is modelled by what the
    manager observes of it: its answer to `register`, the result of visiting
    the root node, and the diagnostics it collected while doing so. */
module Passes {
  import opened Diagnostics

  datatype Pass = Pass(name: string, registers: bool, visitResult: PassResult, collected: seq<Diagnostic>)

  /** What one pass contributes to the run: its collected diagnostics, then
      the error its visit returned, if any. */
  function PassOutput(p: Pass): (out: seq<Diagnostic>)
    ensures |out| == |p.collected| + (if p.visitResult.Failure? then 1 else 0)
    ensures out[..|p.collected|] == p.collected
    ensures p.visitResult.Failure? ==> out[|out| - 1] == p.visitResult.diagnostic
  {
    p.collected + (if p.visitResult.Failure? then [p.visitResult.diagnostic] else [])
  }

  /** The diagnostics of a whole run: every pass's output, in registration
      order. Nothing a pass reports is lost: every collected diagnostic and
      every failing visit's error is in the output. */
  function RunOutput(ps: seq<Pass>): (out: seq<Diagnostic>)
    ensures forall i :: 0 <= i < |ps| && ps[i].visitResult.Failure? ==> ps[i].visitResult.diagnostic in out
    ensures forall i, d :: 0 <= i < |ps| && d in ps[i].collected ==> d in out
  {
    if ps == [] then []
    else
      var init := ps[..|ps| - 1];
      assert forall i :: 0 <= i < |init| ==> init[i] == ps[i];
      RunOutput(init) + PassOutput(ps[|ps| - 1])
  }

  /** A pass that fails does not cut the run short: what follows it is
      still reported, after what precedes it. */
  lemma {:induction false} RunOutputAppend(ps: seq<Pass>, qs: seq<Pass>)
    ensures RunOutput(ps + qs) == RunOutput(ps) + RunOutput(qs)
    decreases |qs|
  {
    if qs == [] {
      assert ps + qs == ps;
    } else {
      var init, last := qs[..|qs| - 1], qs[|qs| - 1];
      var joined := ps + qs;
      assert joined[..|joined| - 1] == ps + init;
      assert joined[|joined| - 1] == last;
      assert RunOutput(joined) == RunOutput(ps + init) + PassOutput(last);
      RunOutputAppend(ps, init);
      assert RunOutput(qs) == RunOutput(init) + PassOutput(last);
    }
  }

  /** The output of pass i sits between the outputs of the passes before it
      and the passes after it, whether or not any of them failed. */
  lemma {:induction false} RunOutputSplit(ps: seq<Pass>, i: nat)
    requires i < |ps|
    ensures RunOutput(ps) == RunOutput(ps[..i]) + PassOutput(ps[i]) + RunOutput(ps[i + 1..])
  {
    var before, at, after := ps[..i], [ps[i]], ps[i + 1..];
    assert ps == (before + at) + after;
    RunOutputAppend(before + at, after);
    RunOutputAppend(before, at);
    assert at[..0] == [];
    assert RunOutput(at) == PassOutput(ps[i]);
  }

  ghost predicate Clean(p: Pass)
  {
    p.collected == [] && p.visitResult.Success?
  }

  /** The run reports nothing exactly when no pass collected a diagnostic and
      no visit failed. */
  lemma {:induction false} RunOutputEmptyIff(ps: seq<Pass>)
    ensures RunOutput(ps) == [] <==> forall i :: 0 <= i < |ps| ==> Clean(ps[i])
    decreases |ps|
  {
    if ps != [] {
      var init := ps[..|ps| - 1];
      RunOutputEmptyIff(init);
      assert forall i :: 0 <= i < |init| ==> init[i] == ps[i];
    }
  }

  /** Three passes of which only the second fails, without collecting
      anything: the run reports exactly that failure. */
  lemma SecondOfThreeFails(a: Pass, b: Pass, c: Pass, d: Diagnostic)
    requires Clean(a) && Clean(c)
    requires b.collected == [] && b.visitResult == Failure(d)
    ensures RunOutput([a, b, c]) == [d]
  {
    assert [a, b, c][..2] == [a, b];
    assert [a, b][..1] == [a];
    assert [a][..0] == [];
    assert RunOutput([a]) == [];
    assert RunOutput([a, b]) == [d];
  }

  class PassManager {
    var passes: seq<Pass>

    /** `PassManager::new`: no passes are registered. */
    constructor ()
      ensures passes == []
    {
      passes := [];
    }

    /** `PassManager::add_pass`: a pass that vetoes its registration is not
        stored; otherwise it is appended. */
    method AddPass(p: Pass) returns (added: bool)
      modifies this
      ensures added == p.registers
      ensures passes == if added then old(passes) + [p] else old(passes)
    {
      if !p.registers {
        return false;
      }
      passes := passes + [p];
      added := true;
    }

    /** `PassManager::run`: the registered passes are visited in registration
        order, each pass's diagnostics following those of the passes before it
        (`RunOutputSplit` places each one). */
    method Run() returns (diagnostics: seq<Diagnostic>)
      ensures diagnostics == RunOutput(passes)
    {
      diagnostics := [];
      var i := 0;
      while i < |passes|
        invariant i <= |passes|
        invariant diagnostics == RunOutput(passes[..i])
      {
        var pass := passes[i];
        var visitationResult := pass.visitResult;
        var j := 0;
        while j < |pass.collected|
          invariant j <= |pass.collected|
          invariant diagnostics == RunOutput(passes[..i]) + pass.collected[..j]
        {
          diagnostics := diagnostics + [pass.collected[j]];
          j := j + 1;
        }
        if visitationResult.Failure? {
          diagnostics := diagnostics + [visitationResult.diagnostic];
        }
        assert passes[..i + 1][..i] == passes[..i];
        assert pass.collected[..j] == pass.collected;
        i := i + 1;
      }
      assert passes[..i] == passes;
    }
  }

  /** `pass_manager_proper_initial_values`, `pass_manager_add_pass`,
      `pass_manager_add_pass_no_register` and `pass_manager_run_invoke_visit`:
      a fresh manager is empty, an accepting pass is stored, a vetoing one is
      not, and a run visits the stored pass: its successful visit reports
      nothing, and the same pass with a failing visit reports that error. */
  method ManagerTests(d: Diagnostic) returns (initial: nat, afterAdd: nat, afterVeto: nat,
                                              reported: seq<Diagnostic>, failing: seq<Diagnostic>)
    ensures initial == 0 && afterAdd == 1 && afterVeto == 0
    ensures reported == [] && failing == [d]
  {
    var manager := new PassManager();
    initial := |manager.passes|;
    var accepting := Pass("TestPassEmpty", true, Success, []);
    var _ := manager.AddPass(accepting);
    afterAdd := |manager.passes|;
    var other := new PassManager();
    var _ := other.AddPass(Pass("TestPassNoRegister", false, Success, []));
    afterVeto := |other.passes|;
    var runner := new PassManager();
    var _ := runner.AddPass(Pass("TestPassWithVisit", true, Success, []));
    reported := runner.Run();
    assert [Pass("TestPassWithVisit", true, Success, [])][..0] == [];
    var rejecting := new PassManager();
    var _ := rejecting.AddPass(Pass("TestPassWithVisit", true, Failure(d), []));
    failing := rejecting.Run();
    assert [Pass("TestPassWithVisit", true, Failure(d), [])][..0] == [];
  }
}
