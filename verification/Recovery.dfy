/** Whatever conflicts, failures and requests led to a state, a calm run leads from it to a
    converged one, unless status shows a build in flight whose Job has expired. */
module Recovery {
  import opened Util
  import opened Operator
  import opened Protocol
  import opened Invariant
  import opened Theorems
  import opened Convergence

  /** A calm run with `n` reconciles, in which no Job expires unrecorded, leads from one state to
      the other. */
  ghost predicate Calmly(w: World, n: nat, to: World) {
    exists ws, vs :: CalmPath(ws, vs, w, n, to)
  }

  ghost predicate CalmPath(ws: seq<World>, vs: seq<Event>, w: World, n: nat, to: World) {
    CalmRun(ws, vs) && NoneExpires(ws, vs) && ws[0] == w && ws[|vs|] == to && Reconciles(ws, vs) == n
  }

  lemma CalmlyStays(w: World)
    ensures Calmly(w, 0, w)
  {
    assert CalmPath([w], [], w, 0, w);
  }

  lemma CalmlyMoves(w: World, n: nat, to: World, v: Event)
    requires Calmly(w, n, to) && Enabled(to, v) && CalmEvent(v) && !v.ReapBuild?
    ensures Calmly(w, if v.Operate? && AllFinished(to.c) then n + 1 else n, Next(to, v))
  {
    hide Enabled, CalmEvent, NextCluster, NextLog, AllFinished;
    var ws, vs :| CalmPath(ws, vs, w, n, to);
    var ws', vs' := ws + [Next(to, v)], vs + [v];
    forall k | 0 <= k < |vs'|
      ensures Enabled(ws'[k], vs'[k]) && ws'[k + 1] == Next(ws'[k], vs'[k]) && CalmEvent(vs'[k])
    {
      if k < |vs| {
        assert ws'[k] == ws[k] && ws'[k + 1] == ws[k + 1] && vs'[k] == vs[k];
      }
    }
    assert vs'[..|vs|] == vs && ws'[..|vs| + 1] == ws;
    assert CalmPath(ws', vs', w, if v.Operate? && AllFinished(to.c) then n + 1 else n, Next(to, v));
  }

  lemma CalmlyReachable(w: World, n: nat, to: World)
    requires Reachable(w) && Calmly(w, n, to)
    ensures Reachable(to)
  {
    hide Reachable;
    var ws, vs :| CalmPath(ws, vs, w, n, to);
    RunReachable(ws, vs, |vs|);
  }

  // ---- every Job can finish ----

  lemma FinishTheBuild(w: World, n: nat, to: World) returns (r: World)
    requires Calmly(w, n, to) && Inv(to)
    ensures Calmly(w, n, r) && Inv(r) && !BuildActive(r.c.builds)
    ensures r.c.cleanups == to.c.cleanups && r.c.measures == to.c.measures
  {
    hide Calmly, JobsInv, StatusInv, LedgerInv, CleanupInv;
    r := to;
    if BuildActive(to.c.builds) {
      var job :| job in to.c.builds && to.c.builds[job].finish.Unfinished?;
      var v := FinishBuild(job, JobComplete);
      CalmlyMoves(w, n, to, v);
      StepKeepsInv(to, v);
      r := Next(to, v);
    }
  }

  lemma FinishTheCleanup(w: World, n: nat, to: World) returns (r: World)
    requires Calmly(w, n, to) && Inv(to)
    ensures Calmly(w, n, r) && Inv(r) && !CleanupActive(r.c.cleanups)
    ensures r.c.builds == to.c.builds && r.c.measures == to.c.measures
  {
    hide Calmly, JobsInv, ActiveInv, StatusInv, LedgerInv;
    r := to;
    if CleanupActive(to.c.cleanups) {
      var m :| m in to.c.cleanups && to.c.cleanups[m].finish.Unfinished?;
      var v := FinishCleanup(m, JobComplete, None);
      CalmlyMoves(w, n, to, v);
      StepKeepsInv(to, v);
      r := Next(to, v);
    }
  }

  lemma FinishMeasureOf(w: World, n: nat, to: World, volume: Volume) returns (r: World)
    requires Calmly(w, n, to) && Inv(to)
    ensures Calmly(w, n, r) && Inv(r) && r.c.builds == to.c.builds && r.c.cleanups == to.c.cleanups
    ensures volume in r.c.measures ==> !r.c.measures[volume].finish.Unfinished?
    ensures forall v :: v != volume && v in r.c.measures ==> v in to.c.measures && r.c.measures[v] == to.c.measures[v]
  {
    hide Calmly, Inv;
    r := to;
    if volume in to.c.measures && to.c.measures[volume].finish.Unfinished? {
      var v := FinishMeasure(volume, JobComplete, None);
      CalmlyMoves(w, n, to, v);
      StepKeepsInv(to, v);
      r := Next(to, v);
    }
  }

  lemma FinishAll(w: World, n: nat, to: World) returns (r: World)
    requires Calmly(w, n, to) && Inv(to)
    ensures Calmly(w, n, r) && Inv(r) && AllFinished(r.c)
  {
    hide Calmly, Inv, BuildActive, CleanupActive;
    r := FinishTheBuild(w, n, to);
    r := FinishTheCleanup(w, n, r);
    r := FinishMeasureOf(w, n, r, CacheVolume);
    r := FinishMeasureOf(w, n, r, DataCacheVolume);
  }

  // ---- and a token is always left to seed ----

  lemma {:induction false} LongerThanAll(used: set<string>) returns (n: nat)
    ensures forall s :: s in used ==> |s| < n
  {
    if used == {} {
      n := 0;
    } else {
      var s :| s in used;
      n := LongerThanAll(used - {s});
      n := if |s| < n then n else |s| + 1;
    }
  }

  lemma FreshToken(used: set<string>) returns (t: string)
    ensures t != "" && t !in used
  {
    var n := LongerThanAll(used);
    t := seq(n + 1, _ => 'x');
  }

  lemma OneMorePass(w: World, n: nat, to: World) returns (r: World)
    requires Calmly(w, n, to) && Inv(to)
    ensures Calmly(w, n + 1, r) && Inv(r)
  {
    hide Calmly, Inv, Reconcile, AllFinished;
    var settled := FinishAll(w, n, to);
    var seed := FreshToken(settled.log.used);
    var v := Operate(Env(0, seed, None, NoFault, {}, {}, None, false));
    CalmlyMoves(w, n, settled, v);
    StepKeepsInv(settled, v);
    r := Next(settled, v);
  }

  lemma {:induction false} ManyPasses(w: World, n: nat) returns (r: World)
    requires Inv(w)
    ensures Calmly(w, n, r) && Inv(r)
  {
    hide Calmly, Inv;
    if n == 0 {
      CalmlyStays(w);
      r := w;
    } else {
      r := ManyPasses(w, n - 1);
      r := OneMorePass(w, n - 1, r);
    }
  }

  /** From exactly the reachable states that are no dead end, some calm run of thirteen reconciles
      reaches convergence. */
  lemma AlwaysRecoverable(w: World)
    requires Reachable(w)
    ensures (exists r :: Calmly(w, 13, r) && Converged(r.c)) <==> !DeadEnd(w.c)
  {
    hide Reachable, Inv, Converged, CalmRun, NoneExpires, DeadEnd;
    ReachableInv(w);
    var r := ManyPasses(w, 13);
    Recovers(w, r);
    forall r | Calmly(w, 13, r)
      ensures DeadEnd(w.c) ==> !Converged(r.c)
    {
      Recovers(w, r);
    }
  }

  lemma Recovers(w: World, r: World)
    requires Reachable(w) && Calmly(w, 13, r)
    ensures Converged(r.c) <==> !DeadEnd(w.c)
  {
    hide Reachable, Converged, CalmRun, NoneExpires, DeadEnd;
    var ws, vs :| CalmPath(ws, vs, w, 13, r);
    Converges(ws, vs);
  }
}
