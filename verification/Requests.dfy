/** What the service and the rest of the machine can do when nothing goes wrong. */
module Requests {
  import opened Common
  import opened Versions
  import opened Journals
  import opened Protocol
  import opened Runs
  import opened Schedules

  lemma ServiceNext(kind: Kind, o: State, s: State, v: ServiceStep)
    requires Leads(kind, o, s) && SvcEnabled(s, v) && Admits(kind, SvcStep(v))
    ensures Leads(kind, o, SvcApply(s, v))
  {
    LeadsOn(kind, o, s, SvcStep(v));
  }

  /** Hash the worker and save the hash. */
  lemma Hashes(kind: Kind, o: State, s: State) returns (t: State)
    requires Leads(kind, o, s) && s.svc.SvcHash? && kind != NoService
    requires s.svc.purpose == ForRecovery ==> s.journal.hashed
    ensures Leads(kind, o, t) && t == s.(journal := s.journal.(hashed := true), svc := SvcSpawn(s.svc.purpose))
  {
    var a := s;
    if !s.svc.checked {
      ServiceNext(kind, o, s, CheckWorker);
      a := SvcApply(s, CheckWorker);
    }
    ServiceNext(kind, o, a, SaveHash);
    t := SvcApply(a, SaveHash);
  }

  /** Create a worker, record it, resume it. */
  lemma Spawns(kind: Kind, o: State, s: State, purpose: Purpose) returns (g: Ground, l: Local)
    requires Leads(kind, o, s) && s.svc == SvcHash(purpose, false) && kind != NoService
    requires s.journal.op.Some? && s.journal.op.value !in s.m.gone && (purpose == ForRecovery ==> s.journal.hashed)
    ensures Can(g, l) && g == Ground(kind, o, s, g.p) && g.p !in s.workers
    ensures var j := s.journal.(hashed := true);
      l == Local(j.(worker := Some(g.p)), s.m,
        Worker(j.op.value, Running, Begin(purpose == ForRecovery), Body, j))
  {
    var a := Hashes(kind, o, s);
    var p := FreshId(a.workers.Keys);
    ServiceNext(kind, o, a, CreateWorker(p));
    var b := SvcApply(a, CreateWorker(p));
    ServiceNext(kind, o, b, RecordWorker);
    var c := SvcApply(b, RecordWorker);
    ServiceNext(kind, o, c, ResumeWorker);
    var d := SvcApply(c, ResumeWorker);
    g := Ground(kind, o, s, p);
    var w := Worker(a.journal.op.value, Running, Begin(purpose == ForRecovery), Body, a.journal);
    l := Local(a.journal.(worker := Some(p)), a.m, w);
    assert d.workers == a.workers[p := w];
    assert d == Placed(g, l);
  }

  lemma Prepares(o: State, s: State, op: OpId, version: Version, setup: Blob, sid: Sid, now: int) returns (t: State)
    requires Leads(AnySteps, o, s) && s.svc == SvcIdle && CanPrepareNow(s, op, version, now)
    ensures Leads(AnySteps, o, t) && t == SvcApply(s, Prepare(op, version, setup, sid, now))
  {
    ServiceNext(AnySteps, o, s, Prepare(op, version, setup, sid, now));
    t := SvcApply(s, Prepare(op, version, setup, sid, now));
  }

  lemma Starts(o: State, s: State, op: OpId, sid: Sid, app: Proc) returns (t: State)
    requires Leads(AnySteps, o, s) && s.svc == SvcIdle && CanStart(s, op, sid)
    ensures Leads(AnySteps, o, t)
    ensures t == State(StartRequest(s.journal, app), SvcHash(ForStart, false), s.workers,
      s.m.(guard := s.journal.op))
  {
    ServiceNext(AnySteps, o, s, BeginStart(op, sid, app));
    var b := SvcApply(s, BeginStart(op, sid, app));
    ServiceNext(AnySteps, o, b, SaveRequest);
    t := SvcApply(b, SaveRequest);
  }

  lemma RequestsRestart(kind: Kind, o: State, s: State, op: OpId, sid: Sid, app: Proc, now: int) returns (t: State)
    requires Leads(kind, o, s) && s.svc == SvcIdle && CanRestart(s, op, sid) && kind != NoService
    ensures Leads(kind, o, t)
    ensures t == State(RestartRequest(s.journal, app, now), SvcHash(ForRestart, false), s.workers,
      s.m.(guard := s.journal.op))
  {
    ServiceNext(kind, o, s, BeginRestart(op, sid, app, now));
    var b := SvcApply(s, BeginRestart(op, sid, app, now));
    ServiceNext(kind, o, b, SaveRequest);
    t := SvcApply(b, SaveRequest);
  }

  // ----- the rest of the machine -----

  function Alive(m: Machine): set<Proc> {
    set p | p in m.apps && m.apps[p].status != Dead
  }

  /** Every application process exits. */
  lemma {:induction false} AppsExit(kind: Kind, o: State, s: State) returns (t: State)
    requires Leads(kind, o, s)
    ensures Leads(kind, o, t) && t == s.(m := s.m.(apps := t.m.apps))
    ensures NoLiveApps(t.m) && t.m.apps.Keys == s.m.apps.Keys
    decreases |Alive(s.m)|
  {
    if Alive(s.m) == {} {
      t := s;
      assert forall p | p in s.m.apps :: p !in Alive(s.m);
    } else {
      var p :| p in Alive(s.m);
      LeadsOn(kind, o, s, EnvStep(AppExit(p)));
      var u := Apply(s, EnvStep(AppExit(p)));
      assert Alive(u.m) == Alive(s.m) - {p};
      t := AppsExit(kind, o, u);
    }
  }

  /** The recorded setup program, if it is still there, exits. */
  lemma RecordedSetupExits(kind: Kind, o: State, s: State) returns (t: State)
    requires Leads(kind, o, s)
    ensures Leads(kind, o, t) && t == s.(m := s.m.(setups := t.m.setups)) && SetupGone(t.m, s.journal.setup)
  {
    if s.journal.setup.Some? && s.journal.setup.value in s.m.setups {
      LeadsOn(kind, o, s, EnvStep(SetupExit(s.journal.setup.value)));
      t := Apply(s, EnvStep(SetupExit(s.journal.setup.value)));
    } else {
      t := s;
    }
  }
}
