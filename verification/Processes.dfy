/** Child processes of the agent, numbered in order of spawning, and the list of those it has sent a termination signal
    (packages/agent/src/process-tree.ts and its users). */
module Processes {
  type Process = nat

  /** The filtering done while waiting for termination. */
  function Unexited(terminating: seq<Process>, exited: set<Process>): seq<Process> {
    if terminating == [] then []
    else Unexited(terminating[..|terminating| - 1], exited)
         + (if terminating[|terminating| - 1] in exited then [] else [terminating[|terminating| - 1]])
  }

  lemma {:induction false} UnexitedIs(terminating: seq<Process>, exited: set<Process>)
    ensures forall p :: p in Unexited(terminating, exited) <==> p in terminating && p !in exited
  {
    if terminating != [] { UnexitedIs(terminating[..|terminating| - 1], exited); }
  }

  /** Keeps, in order, exactly the processes that have not exited. */
  method Filter(terminating: seq<Process>, exited: set<Process>) returns (kept: seq<Process>)
    ensures kept == Unexited(terminating, exited)
  {
    kept := [];
    for i := 0 to |terminating|
      invariant kept == Unexited(terminating[..i], exited)
    {
      assert terminating[..i + 1][..i] == terminating[..i];
      if terminating[i] !in exited { kept := kept + [terminating[i]]; }
    }
    assert terminating[..|terminating|] == terminating;
  }
}
