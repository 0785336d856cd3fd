/** Sequences of protocol steps of one worker and of the world around it. */
module WorkerSteps {
  import opened Common
  import opened Journals
  import opened Protocol
  import opened Invariants
  import opened EnvironmentProofs
  import opened WorkerProofs

  datatype Move = Own(step: WorkerStep) | Outside(e: EnvironmentStep)

  function Take(l: Local, move: Move): Local {
    match move
    case Own(step) => if WorkerEnabled(l, step) then WorkerApply(l, step) else l
    case Outside(e) => if EnvEnabled(l.m, e) then l.(m := EnvApply(l.m, e)) else l
  }

  function Along(l: Local, moves: seq<Move>): Local
    decreases |moves|
  {
    if moves == [] then l else Take(Along(l, moves[..|moves| - 1]), moves[|moves| - 1])
  }

  lemma AlongOne(l: Local, moves: seq<Move>, move: Move)
    ensures Along(l, moves + [move]) == Take(Along(l, moves), move)
  {
    var more := moves + [move];
    assert more[..|more| - 1] == moves;
  }

  lemma OutsideKeeps(p: Proc, l: Local, e: EnvironmentStep)
    requires LocalInv(p, l) && EnvEnabled(l.m, e)
    ensures LocalInv(p, l.(m := EnvApply(l.m, e)))
  {
    EnvMachine(l.m, e);
    EnvSound(l.m, e, l.journal);
    EnvSettled(l.m, e, l.journal);
    EnvWorker(p, l.journal, l.m, l.w, e);
  }

  /** The worker's part of the invariant holds along every execution. */
  lemma {:induction false} AlongKeeps(p: Proc, l: Local, moves: seq<Move>)
    requires LocalInv(p, l)
    ensures LocalInv(p, Along(l, moves))
    decreases |moves|
  {
    if moves != [] {
      var before, last := Along(l, moves[..|moves| - 1]), moves[|moves| - 1];
      AlongKeeps(p, l, moves[..|moves| - 1]);
      match last
      case Own(step) =>
        if WorkerEnabled(before, step) {
          WorkerKeeps(p, before, step);
        }
      case Outside(e) =>
        if EnvEnabled(before.m, e) {
          OutsideKeeps(p, before, e);
        }
    }
  }

  // ----- executions -----

  ghost predicate SomeMoves(l: Local, n: Local) {
    exists moves :: Along(l, moves) == n
  }

  /** The pairs some moves connect, as one relation, which a proof unfolds only where it mentions `SomeMoves`. */
  ghost predicate IsExecution(r: iset<(Local, Local)>) {
    forall l, n {:trigger SomeMoves(l, n)} :: (l, n) in r <==> SomeMoves(l, n)
  }

  lemma ExecutionExists()
    ensures exists r :: IsExecution(r)
  {
    var r := iset p: (Local, Local) | SomeMoves(p.0, p.1);
    assert IsExecution(r);
  }

  ghost function Execution(): (r: iset<(Local, Local)>)
    ensures IsExecution(r)
  {
    ExecutionExists();
    var r :| IsExecution(r);
    r
  }

  /** The worker and the world can get from `l` to `n` by steps of the protocol. */
  ghost predicate Executes(l: Local, n: Local) {
    (l, n) in Execution()
  }

  lemma ExecutesHere(l: Local)
    ensures Executes(l, l)
  {
    assert Along(l, []) == l;
    assert SomeMoves(l, l);
  }

  lemma ExecutesMove(l: Local, n: Local, move: Move)
    requires Executes(l, n)
    ensures Executes(l, Take(n, move))
  {
    assert SomeMoves(l, n);
    var moves :| Along(l, moves) == n;
    AlongOne(l, moves, move);
    assert SomeMoves(l, Take(n, move));
  }

  lemma ExecutesStep(l: Local, n: Local, step: WorkerStep)
    requires Executes(l, n) && WorkerEnabled(n, step)
    ensures Executes(l, WorkerApply(n, step))
  {
    ExecutesMove(l, n, Own(step));
  }

  /** The success path of the current operation. */
  lemma GoesOn(l: Local, child: Proc)
    requires l.w.status == Running && CanProceed(l, child)
    ensures Executes(l, ProceedStep(l, child))
  {
    ExecutesHere(l);
    ExecutesMove(l, l, Own(Proceed(child)));
  }

  lemma {:induction false} AlongMore(l: Local, a: seq<Move>, b: seq<Move>)
    ensures Along(l, a + b) == Along(Along(l, a), b)
    decreases |b|
  {
    if b == [] {
      assert a + b == a;
    } else {
      var front, last := b[..|b| - 1], b[|b| - 1];
      AlongMore(l, a, front);
      assert a + b == (a + front) + [last];
      AlongOne(l, a + front, last);
    }
  }

  lemma ExecutesThrough(l: Local, n: Local, r: Local)
    requires Executes(l, n) && Executes(n, r)
    ensures Executes(l, r)
  {
    assert SomeMoves(l, n) && SomeMoves(n, r);
    var a :| Along(l, a) == n;
    var b :| Along(n, b) == r;
    AlongMore(l, a, b);
    assert SomeMoves(l, r);
  }

  lemma ExecutesOutside(l: Local, n: Local, e: EnvironmentStep)
    requires Executes(l, n) && EnvEnabled(n.m, e)
    ensures Executes(l, n.(m := EnvApply(n.m, e)))
  {
    ExecutesMove(l, n, Outside(e));
  }

  lemma ExecutesKeeps(p: Proc, l: Local, n: Local)
    requires Executes(l, n) && LocalInv(p, l)
    ensures LocalInv(p, n)
  {
    assert SomeMoves(l, n);
    var moves :| Along(l, moves) == n;
    AlongKeeps(p, l, moves);
  }
}
