/**
 * The UI-executor step graph as a finite-state machine: six named steps,
 * a terminal END, the unconditional successor of each step, and the label
 * map that the conditional branch after `approve` declares. The router
 * that picks a label (decide_after_approval) is not modelled; a run is
 * described by the labels it returns on its successive calls.
 */
module StepTable {
  import opened Optional

  /** The six registered steps, in registration order. */
  datatype Step = Prepare | Run | Parse | LlmTriage | Approve | Retry

  /** Where an edge can lead: a step, or the graph's terminal END. */
  datatype Target = At(step: Step) | End

  /** The name under which each step is registered with the builder. */
  function Name(s: Step): string
  {
    match s
    case Prepare => "prepare"
    case Run => "run"
    case Parse => "parse"
    case LlmTriage => "llm_triage"
    case Approve => "approve"
    case Retry => "retry"
  }

  /** The steps in the order in which they are registered. */
  const StepOrder: seq<Step> := [Prepare, Run, Parse, LlmTriage, Approve, Retry]

  /**
   * The one unconditional edge leaving a step, if it has one: every step but
   * `approve` has one, and each moves one place along the chain except the
   * edge from `retry`, which leads back to `run`.
   */
  function Next(s: Step): (n: Option<Step>)
    ensures n.None? <==> s == Approve
    ensures n.Some? && s != Retry ==> Rank(n.value) == Rank(s) + 1
    ensures s == Retry ==> n == Some(Run)
  {
    match s
    case Prepare => Some(Run)
    case Run => Some(Parse)
    case Parse => Some(LlmTriage)
    case LlmTriage => Some(Approve)
    case Approve => None
    case Retry => Some(Run)
  }

  /**
   * The path map of the conditional branch after `approve`: router label to
   * target. It leads only to `retry` or END, and only two labels are mapped.
   */
  function Route(key: string): (r: Option<Target>)
    ensures r.Some? ==> r.value == At(Retry) || r.value == End
    ensures r.Some? ==> key == "retry" || key == "end"
  {
    if key == "retry" then Some(At(Retry))
    else if key == "end" then Some(End)
    else None
  }

  /** `b` can follow step `a`: by a's unconditional edge or, out of `approve`, by some router label. */
  ghost predicate Transition(a: Step, b: Target)
    ensures Transition(a, b) ==> b == End || Rank(b.step) == Rank(a) + 1 || (a == Retry && b == At(Run))
  {
    || (Next(a).Some? && b == At(Next(a).value))
    || (a == Approve && exists l: string :: Route(l) == Some(b))
  }

  /** Position of each step along the linear chain; used to tell forward edges from back edges. */
  function Rank(s: Step): nat
  {
    match s
    case Prepare => 0
    case Run => 1
    case Parse => 2
    case LlmTriage => 3
    case Approve => 4
    case Retry => 5
  }

  /** A walk along the transition relation (END, having no successor, can only come last). */
  ghost predicate IsPath(p: seq<Target>)
  {
    forall i :: 0 <= i < |p| - 1 ==> p[i].At? && Transition(p[i].step, p[i + 1])
  }

  /** A complete path: from the entry point `prepare` to END. */
  ghost predicate IsCompletePath(p: seq<Target>)
  {
    |p| >= 2 && p[0] == At(Prepare) && p[|p| - 1] == End && IsPath(p)
  }

  /** A closed walk of at least one edge. */
  ghost predicate IsCycle(p: seq<Target>)
  {
    |p| >= 2 && IsPath(p) && p[0] == p[|p| - 1]
  }

  /** One pass from `run` up to the approval gate. */
  const Pass: seq<Target> := [At(Run), At(Parse), At(LlmTriage), At(Approve)]

  /** run parse llm_triage approve, repeated with `retry` in between k times, then END. */
  function FromRun(k: nat): seq<Target>
  {
    if k == 0 then Pass + [End] else Pass + [At(Retry)] + FromRun(k - 1)
  }

  /** The stated shape: prepare (run parse llm_triage approve retry)^k run parse llm_triage approve END. */
  function Shape(k: nat): seq<Target>
  {
    [At(Prepare)] + FromRun(k)
  }

  // ---------------------------------------------------------------------------
  // Local properties of the table

  /** Step names are pairwise distinct, so six steps register six names. */
  lemma NamesDistinct(a: Step, b: Step)
    ensures Name(a) == Name(b) <==> a == b
  {
  }

  /** The router's label map: exactly "retry" and "end" are mapped, to `retry` and END. */
  lemma RouteLabels(l: string)
    ensures Route(l).Some? <==> l == "retry" || l == "end"
    ensures Route(l) == Some(At(Retry)) <==> l == "retry"
    ensures Route(l) == Some(End) <==> l == "end"
  {
  }

  /** Out of `approve` lead exactly `retry` and END, and only by router label. */
  lemma ApproveSuccessors(b: Target)
    ensures Next(Approve) == None
    ensures Transition(Approve, b) <==> b == At(Retry) || b == End
  {
    if b == At(Retry) {
      assert Route("retry") == Some(b);
    } else if b == End {
      assert Route("end") == Some(b);
    }
  }

  /** Every other step has exactly one successor, its unconditional edge. */
  lemma SingleSuccessor(a: Step, b: Target)
    requires a != Approve
    ensures Next(a).Some?
    ensures Transition(a, b) <==> b == At(Next(a).value)
  {
  }

  /** The entry point `prepare` has `run` as its only successor. */
  lemma EntrySuccessor(b: Target)
    ensures Transition(Prepare, b) <==> b == At(Run)
  {
    SingleSuccessor(Prepare, b);
  }

  /** `run -> parse -> llm_triage -> approve` is a chain of sole successors. */
  lemma LinearChain(b: Target)
    ensures Transition(Run, b) <==> b == At(Parse)
    ensures Transition(Parse, b) <==> b == At(LlmTriage)
    ensures Transition(LlmTriage, b) <==> b == At(Approve)
  {
    SingleSuccessor(Run, b);
    SingleSuccessor(Parse, b);
    SingleSuccessor(LlmTriage, b);
  }

  /** `retry -> run` is the sole successor of `retry` and the only edge that does not move forward along the chain. */
  lemma OnlyBackEdge(a: Step, b: Step)
    requires Transition(a, At(b))
    ensures Rank(b) <= Rank(a) <==> a == Retry
    ensures a == Retry ==> b == Run
  {
    if a == Approve {
      ApproveSuccessors(At(b));
    }
  }

  /** END can be reached only from `approve`, and only through the "end" label. */
  lemma EndOnlyFromApprove(a: Step, l: string)
    ensures Transition(a, End) <==> a == Approve
    ensures Route(l) == Some(End) <==> l == "end"
  {
    if a == Approve {
      ApproveSuccessors(End);
    }
  }

  /** `approve` is the only predecessor of `retry`. */
  lemma RetryOnlyFromApprove(a: Step)
    ensures Transition(a, At(Retry)) <==> a == Approve
  {
    ApproveSuccessors(At(Retry));
  }

  // ---------------------------------------------------------------------------
  // Paths

  /** A path's suffix is a path. */
  lemma SuffixIsPath(p: seq<Target>, j: nat)
    requires IsPath(p) && j <= |p|
    ensures IsPath(p[j..])
  {
    var q := p[j..];
    forall i | 0 <= i < |q| - 1
      ensures q[i].At? && Transition(q[i].step, q[i + 1])
    {
      assert q[i] == p[j + i] && q[i + 1] == p[j + i + 1];
    }
  }

  /** Prefixing one step to a path keeps it a path when the first edge is a transition. */
  lemma ConsIsPath(a: Step, q: seq<Target>)
    requires IsPath(q) && |q| >= 1 && Transition(a, q[0])
    ensures IsPath([At(a)] + q)
  {
    var p := [At(a)] + q;
    forall i | 0 <= i < |p| - 1
      ensures p[i].At? && Transition(p[i].step, p[i + 1])
    {
      if i > 0 {
        assert p[i] == q[i - 1] && p[i + 1] == q[i];
      }
    }
  }

  /** Every registered step is reachable from `prepare`. */
  lemma AllReachable(s: Step)
    ensures exists p :: IsPath(p) && |p| >= 1 && p[0] == At(Prepare) && p[|p| - 1] == At(s)
  {
    var full := [At(Prepare), At(Run), At(Parse), At(LlmTriage), At(Approve), At(Retry)];
    var k := Rank(s);
    var p := full[..k + 1];
    ApproveSuccessors(At(Retry));
    forall i | 0 <= i < |p| - 1
      ensures p[i].At? && Transition(p[i].step, p[i + 1])
    {
    }
    assert p[|p| - 1] == At(s);
  }

  /** One pass up to `approve` is a walk, and so is that pass followed by END. */
  lemma PassIsPath()
    ensures IsPath(Pass) && IsPath(Pass + [End])
  {
    ApproveSuccessors(End);
  }

  /** A pass, then `retry`, then a walk from `run`, is a walk. */
  lemma RetryLoopIsPath(rest: seq<Target>)
    requires |rest| >= 1 && rest[0] == At(Run) && IsPath(rest)
    ensures IsPath(Pass + [At(Retry)] + rest)
  {
    ApproveSuccessors(At(Retry));
    var p := Pass + [At(Retry)] + rest;
    forall i | 0 <= i < |p| - 1
      ensures p[i].At? && Transition(p[i].step, p[i + 1])
    {
      if i >= 5 {
        assert p[i] == rest[i - 5] && p[i + 1] == rest[i - 4];
      } else if i == 4 {
        assert p[i + 1] == rest[0];
      }
    }
  }

  /** The walks FromRun(k) start at `run`, end at END and follow the transition relation. */
  lemma {:induction false} FromRunIsPath(k: nat)
    ensures |FromRun(k)| == 5 * k + 5
    ensures FromRun(k)[0] == At(Run) && FromRun(k)[|FromRun(k)| - 1] == End
    ensures IsPath(FromRun(k))
  {
    PassIsPath();
    if k > 0 {
      FromRunIsPath(k - 1);
      RetryLoopIsPath(FromRun(k - 1));
    }
  }

  /** Every walk from `run` that reaches END has the shape FromRun(k) for some k. */
  lemma {:induction false} PathFromRunHasShape(q: seq<Target>)
    requires |q| >= 1 && q[0] == At(Run) && q[|q| - 1] == End && IsPath(q)
    ensures exists k: nat :: q == FromRun(k)
    decreases |q|
  {
    LinearChain(q[1]);
    assert q[1] == At(Parse);
    LinearChain(q[2]);
    assert q[2] == At(LlmTriage);
    LinearChain(q[3]);
    assert q[3] == At(Approve);
    ApproveSuccessors(q[4]);
    if q[4] == End {
      assert |q| == 5;
      assert q == FromRun(0);
    } else {
      assert q[4] == At(Retry);
      assert |q| > 5;
      SingleSuccessor(Retry, q[5]);
      SuffixIsPath(q, 5);
      var rest := q[5..];
      PathFromRunHasShape(rest);
      var k: nat :| rest == FromRun(k);
      assert q == Pass + [At(Retry)] + rest;
      assert q == FromRun(k + 1);
    }
  }

  /**
   * The complete paths of the graph are exactly the sequences of the stated
   * shape; in particular `prepare` occurs once, at the start.
   */
  lemma CompletePathShape(p: seq<Target>)
    ensures IsCompletePath(p) <==> exists k: nat :: p == Shape(k)
  {
    if IsCompletePath(p) {
      EntrySuccessor(p[1]);
      SuffixIsPath(p, 1);
      PathFromRunHasShape(p[1..]);
      var k: nat :| p[1..] == FromRun(k);
      assert p == Shape(k);
    }
    if exists k: nat :: p == Shape(k) {
      var k: nat :| p == Shape(k);
      FromRunIsPath(k);
      EntrySuccessor(At(Run));
      ConsIsPath(Prepare, FromRun(k));
    }
  }

  /** `prepare` is visited exactly once on a path of the stated shape. */
  lemma {:induction false} PrepareOnce(k: nat)
    ensures forall i :: 0 < i < |Shape(k)| ==> Shape(k)[i] != At(Prepare)
  {
    FromRunNoPrepare(k);
  }

  lemma {:induction false} FromRunNoPrepare(k: nat)
    ensures At(Prepare) !in FromRun(k)
  {
    if k > 0 {
      FromRunNoPrepare(k - 1);
    }
  }

  /** A path that never visits `retry` climbs the chain one rank per edge. */
  lemma {:induction false} RankClimbs(p: seq<Target>)
    requires |p| >= 1 && IsPath(p) && p[|p| - 1].At?
    requires At(Retry) !in p
    ensures p[0].At? && Rank(p[|p| - 1].step) == Rank(p[0].step) + |p| - 1
    decreases |p|
  {
    if |p| > 1 {
      var q := p[..|p| - 1];
      assert IsPath(q) by {
        forall i | 0 <= i < |q| - 1
          ensures q[i].At? && Transition(q[i].step, q[i + 1])
        {
          assert q[i] == p[i] && q[i + 1] == p[i + 1];
        }
      }
      assert q[|q| - 1] == p[|p| - 2];
      RankClimbs(q);
      var a, b := p[|p| - 2].step, p[|p| - 1].step;
      assert p[|p| - 2] in p;
      OnlyBackEdge(a, b);
      if a == Approve {
        ApproveSuccessors(At(b));
      }
    }
  }

  /** Every cycle of the graph passes through both `approve` and `retry`. */
  lemma CycleThroughApproveAndRetry(p: seq<Target>)
    requires IsCycle(p)
    ensures At(Retry) in p && At(Approve) in p
  {
    assert p[|p| - 2].At?;
    if At(Retry) !in p {
      RankClimbs(p);
      assert false;
    }
    var i :| 0 <= i < |p| && p[i] == At(Retry);
    var j := if i == 0 then |p| - 2 else i - 1;
    assert p[j + 1] == At(Retry);
    RetryOnlyFromApprove(p[j].step);
    assert p[j] == At(Approve);
  }

  // ---------------------------------------------------------------------------
  // Runs driven by the router's answers

  /** How a run driven by a given list of router answers stops. */
  datatype Status =
    | Finished               // the router answered "end"
    | Unmapped(answer: string) // the router answered a label the path map does not hold
    | AwaitingRouter         // the answers ran out before the run ended

  datatype Trace = Trace(path: seq<Target>, status: Status)

  /**
   * The steps visited from `run` on when the router answers `answers`, in
   * order, at `approve`: every run makes at least one pass, and it waits for
   * the router exactly when every answer given was "retry".
   */
  function DriveFromRun(answers: seq<string>): (t: Trace)
    ensures |t.path| >= 4 && forall i :: 0 <= i < 4 ==> t.path[i] == Pass[i]
    ensures t.status == AwaitingRouter <==> LeadingRetries(answers) == |answers|
    decreases |answers|
  {
    if |answers| == 0 then Trace(Pass, AwaitingRouter)
    else if Route(answers[0]) == Some(End) then Trace(Pass + [End], Finished)
    else if Route(answers[0]) == Some(At(Retry)) then
      var rest := DriveFromRun(answers[1..]);
      Trace(Pass + [At(Retry)] + rest.path, rest.status)
    else Trace(Pass, Unmapped(answers[0]))
  }

  /**
   * The steps visited by a whole run: the entry point, then the walk from
   * `run`; whatever the router answers, this is a walk of the graph.
   */
  function Drive(answers: seq<string>): (d: Trace)
    ensures d.path == [At(Prepare)] + DriveFromRun(answers).path && d.status == DriveFromRun(answers).status
    ensures |d.path| >= 5 && d.path[1] == At(Run)
    ensures IsPath(d.path)
  {
    var t := DriveFromRun(answers);
    DriveFromRunIsPath(answers);
    EntrySuccessor(At(Run));
    ConsIsPath(Prepare, t.path);
    Trace([At(Prepare)] + t.path, t.status)
  }

  /** Number of leading "retry" answers. */
  function LeadingRetries(answers: seq<string>): nat
  {
    if |answers| > 0 && answers[0] == "retry" then 1 + LeadingRetries(answers[1..]) else 0
  }

  /** The run finishes exactly when the first answer other than "retry" is "end". */
  ghost predicate EndsWithEnd(answers: seq<string>)
  {
    LeadingRetries(answers) < |answers| && answers[LeadingRetries(answers)] == "end"
  }

  /** A router-driven walk from `run` follows the transition relation and stops at `approve` or END. */
  lemma {:induction false} DriveFromRunIsPath(answers: seq<string>)
    ensures var t := DriveFromRun(answers);
      && |t.path| >= 4 && t.path[0] == At(Run) && IsPath(t.path)
      && t.path[|t.path| - 1] == (if t.status == Finished then End else At(Approve))
    decreases |answers|
  {
    PassIsPath();
    if |answers| > 0 && Route(answers[0]) != Some(End) && Route(answers[0]) == Some(At(Retry)) {
      var rest := DriveFromRun(answers[1..]);
      DriveFromRunIsPath(answers[1..]);
      RetryLoopIsPath(rest.path);
      var p := DriveFromRun(answers).path;
      assert p == Pass + [At(Retry)] + rest.path;
      assert p[|p| - 1] == rest.path[|rest.path| - 1];
    }
  }

  /**
   * A router-driven walk finishes exactly when the first answer other than
   * "retry" is "end", and then it has the stated shape; it stops short on an
   * answer the path map does not hold.
   */
  lemma {:induction false} DriveFromRunStatus(answers: seq<string>)
    ensures var t := DriveFromRun(answers);
      && (t.status == Finished <==> EndsWithEnd(answers))
      && (t.status == Finished ==> t.path == FromRun(LeadingRetries(answers)))
      && (t.status.Unmapped? ==> Route(t.status.answer) == None)
    decreases |answers|
  {
    if |answers| > 0 {
      RouteLabels(answers[0]);
      if Route(answers[0]) == Some(At(Retry)) {
        DriveFromRunStatus(answers[1..]);
        assert LeadingRetries(answers) == 1 + LeadingRetries(answers[1..]);
        if LeadingRetries(answers[1..]) < |answers| - 1 {
          assert answers[1..][LeadingRetries(answers[1..])] == answers[LeadingRetries(answers)];
        }
      }
    }
  }

  /**
   * A run driven by the router is always a walk of the graph from `prepare`;
   * it is a complete path exactly when the router answers "retry" some k
   * times and then "end", and then it is Shape(k); `run` is visited k + 1 times.
   */
  lemma DriveShape(answers: seq<string>)
    ensures var t := Drive(answers);
      && t.path[0] == At(Prepare) && IsPath(t.path)
      && (IsCompletePath(t.path) <==> t.status == Finished)
      && (t.status == Finished <==> EndsWithEnd(answers))
      && (t.status == Finished ==> t.path == Shape(LeadingRetries(answers)))
  {
    var t := DriveFromRun(answers);
    DriveFromRunIsPath(answers);
    DriveFromRunStatus(answers);
    var d := Drive(answers);
    var last := d.path[|d.path| - 1];
    assert last == t.path[|t.path| - 1];
    if t.status == Finished {
      assert d.path == Shape(LeadingRetries(answers));
      assert last == End;
    } else {
      assert last == At(Approve);
    }
  }

  /** On a path of the stated shape, `run` is visited once per retry plus once. */
  lemma {:induction false} RunVisits(k: nat)
    ensures multiset(Shape(k))[At(Run)] == k + 1
  {
    RunVisitsFromRun(k);
    assert multiset(Shape(k)) == multiset([At(Prepare)]) + multiset(FromRun(k));
  }

  lemma {:induction false} RunVisitsFromRun(k: nat)
    ensures multiset(FromRun(k))[At(Run)] == k + 1
  {
    if k == 0 {
      assert multiset(FromRun(0)) == multiset(Pass) + multiset([End]);
    } else {
      RunVisitsFromRun(k - 1);
      assert multiset(FromRun(k)) == multiset(Pass) + multiset([At(Retry)]) + multiset(FromRun(k - 1));
    }
  }
}
