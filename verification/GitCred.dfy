/** The per-app git credential (internal/controller/gitcred.go): an override Secret mounted as
    it is, or an owned copy of the operator's source Secret that is kept in step, skipped when
    its content hash already matches, kept through outages of the source and reclaimed off the
    sync path. */
module GitCred {
  import opened Util

  const NUL := '\0'

  /** The two keys of a credential Secret; an absent key and an empty one are the same. */
  datatype Data = Data(username: string, password: string)

  predicate Usable(d: Data) { d.username != "" && d.password != "" }

  /** What is hashed. The digest is taken to be injective and stands for its input. */
  function Hash(d: Data): string { d.username + [NUL] + d.password }

  datatype Secret = Secret(data: Data, hash: Option<string>, owner: Option<string>)

  datatype App = App(name: string, uid: string, repoAuth: Option<string>, host: Option<string>)

  /** `source` names the operator's Secret; empty means the feature is off. */
  datatype Config = Config(source: string, hosts: set<string>)

  datatype Decision = Decision(syncCopy: bool, secretName: string)
  const ANONYMOUS := Decision(false, "")

  function CopyName(app: App): (n: string)
    ensures n != ""
  {
    app.name + "-git-credential"
  }

  /** The source Secret, the Secrets of the app's namespace and the outage flag. */
  datatype State = State(source: Option<Data>, secrets: map<string, Secret>, outage: bool)

  // ---- one reconcile ----

  function Decide(app: App, cfg: Config): (d: Decision)
    ensures d.syncCopy <==> app.repoAuth.None? && cfg.source != "" && app.host.Some? && app.host.value in cfg.hosts
    ensures d.secretName == if app.repoAuth.Some? then app.repoAuth.value else if d.syncCopy then CopyName(app) else ""
  {
    if app.repoAuth.Some? then Decision(false, app.repoAuth.value)
    else if cfg.source != "" && app.host.Some? && app.host.value in cfg.hosts then Decision(true, CopyName(app))
    else ANONYMOUS
  }

  /** A source that is there but unusable counts as missing. */
  function Source(g: State): Option<Data> {
    if g.source.Some? && Usable(g.source.value) then g.source else None
  }

  function CopyOf(app: App, d: Data): Secret { Secret(d, Some(Hash(d)), Some(app.uid)) }

  function Reclaimed(g: State, app: App): State {
    var n := CopyName(app);
    if n in g.secrets && g.secrets[n].owner == Some(app.uid) then g.(secrets := g.secrets - {n}) else g
  }

  function Applied(g: State, app: App, d: Data): State { g.(secrets := g.secrets[CopyName(app) := CopyOf(app, d)]) }

  /** The hash annotation read from metadata; a copy without one reads as "". */
  predicate UpToDate(g: State, app: App, d: Data) {
    var n := CopyName(app);
    n in g.secrets && (if g.secrets[n].hash.Some? then g.secrets[n].hash.value else "") == Hash(d)
  }

  /** The API calls that fail: reading the source, reading the copy's metadata, and deleting or
      applying the copy. */
  datatype Faults = Faults(source: bool, metadata: bool, write: bool)
  const NO_FAULTS := Faults(false, false, false)

  /** State and decision after a reconcile; no decision is a reconcile that ends in an error.
      `skip` says whether an equal hash skips the apply. */
  function Synced(g: State, app: App, cfg: Config, faults: Faults, skip: bool): (State, Option<Decision>) {
    var d := Decide(app, cfg);
    if !d.syncCopy then
      if faults.metadata || (faults.write && Reclaimed(g, app) != g) then (g, None) else (Reclaimed(g, app), Some(d))
    else if faults.source then (g, None)
    else match Source(g)
      case None =>
        (g.(outage := true), Some(if !faults.metadata && CopyName(app) in g.secrets then d else ANONYMOUS))
      case Some(data) =>
        var up := g.(outage := false);
        if skip && !faults.metadata && UpToDate(g, app, data) then (up, Some(d))
        else if faults.write then (up, None)
        else (Applied(up, app, data), Some(d))
  }

  /** The override Secret must be there and usable, or the reconcile is rejected. */
  predicate OverrideValid(g: State, app: App) {
    app.repoAuth.None? || (app.repoAuth.value in g.secrets && Usable(g.secrets[app.repoAuth.value].data))
  }

  class GitCluster {
    var source: Option<Data>
    var secrets: map<string, Secret>
    var gitSourceMissing: bool

    function View(): State reads this { State(source, secrets, gitSourceMissing) }

    constructor (g: State)
      ensures View() == g
    {
      source, secrets, gitSourceMissing := g.source, g.secrets, g.outage;
    }

    method CheckData(d: Data) returns (ok: bool)
      ensures ok == Usable(d)
    {
      var keys := [d.username, d.password];
      for i := 0 to |keys|
        invariant forall k :: 0 <= k < i ==> keys[k] != ""
      {
        if keys[i] == "" {
          return false;
        }
      }
      assert keys[0] == d.username && keys[1] == d.password;
      return true;
    }

    /** Only a copy this app owns goes, and nothing else. */
    method DeleteOwnedSyncedCopy(app: App, faults: Faults) returns (ok: bool)
      modifies `secrets
      ensures var n := CopyName(app);
              var owned := n in old(secrets) && old(secrets)[n].owner == Some(app.uid);
              && (ok <==> !faults.metadata && !(faults.write && owned))
              && secrets == if ok && owned then old(secrets) - {n} else old(secrets)
      ensures ok <==> !faults.metadata && (faults.write ==> Reclaimed(old(View()), app) == old(View()))
      ensures View() == if ok then Reclaimed(old(View()), app) else old(View())
    {
      if faults.metadata {
        return false;
      }
      ok := true;
      var n := CopyName(app);
      if n !in secrets {
        return;
      }
      if secrets[n].owner != Some(app.uid) {
        return;
      }
      if faults.write {
        assert n !in Reclaimed(View(), app).secrets;
        return false;
      }
      secrets := secrets - {n};
    }

    method GetSource() returns (data: Data, present: bool)
      ensures present == Source(View()).Some?
      ensures present ==> Source(View()) == Some(data)
    {
      data, present := Data("", ""), false;
      if source.Some? {
        data := source.value;
        present := CheckData(data);
      }
    }

    method ReconcileGitCredential(app: App, cfg: Config, faults: Faults) returns (r: Option<Decision>)
      modifies this
      ensures (View(), r) == Synced(old(View()), app, cfg, faults, true)
    {
      var d := Decide(app, cfg);
      if !d.syncCopy {
        var ok := DeleteOwnedSyncedCopy(app, faults);
        if !ok {
          return None;
        }
        return Some(d);
      }
      if faults.source {
        return None;
      }
      var data, present := GetSource();
      if !present {
        gitSourceMissing := true;
        if faults.metadata || CopyName(app) !in secrets {
          d := ANONYMOUS;
        }
        return Some(d);
      }
      gitSourceMissing := false;
      var n := CopyName(app);
      if !faults.metadata && n in secrets {
        var have := if secrets[n].hash.Some? then secrets[n].hash.value else "";
        if have == Hash(data) {
          return Some(d);
        }
      }
      if faults.write {
        return None;
      }
      secrets := secrets[n := CopyOf(app, data)];
      return Some(d);
    }

    method ValidateRepoAuthSecret(app: App) returns (ok: bool)
      ensures ok == OverrideValid(View(), app)
    {
      if app.repoAuth.None? {
        return true;
      }
      if app.repoAuth.value !in secrets {
        return false;
      }
      ok := CheckData(secrets[app.repoAuth.value].data);
    }
  }

  // ---- the hash ----

  lemma FirstNul(u: string, p: string, v: string, q: string)
    requires u + [NUL] + p == v + [NUL] + q && |u| < |v|
    ensures NUL in v && NUL in p
  {
    var s, t := u + [NUL] + p, v + [NUL] + q;
    assert s[|u|] == NUL && t[|u|] == v[|u|];
    assert t[|v|] == NUL && s[|v|] == p[|v| - |u| - 1];
  }

  lemma SameLength(u: string, p: string, v: string, q: string)
    requires u + [NUL] + p == v + [NUL] + q && |u| == |v|
    ensures u == v && p == q
  {
    var s, t := u + [NUL] + p, v + [NUL] + q;
    assert s[..|u|] == u && t[..|v|] == v;
    assert s[|u| + 1..] == p && t[|v| + 1..] == q;
  }

  /** Without NUL in the user name the hash tells any two credentials apart. */
  lemma HashInjective(d: Data, e: Data)
    requires NUL !in d.username && NUL !in e.username
    ensures Hash(d) == Hash(e) <==> d == e
  {
    if Hash(d) == Hash(e) {
      if |d.username| == |e.username| {
        SameLength(d.username, d.password, e.username, e.password);
      } else if |d.username| < |e.username| {
        FirstNul(d.username, d.password, e.username, e.password);
      } else {
        FirstNul(e.username, e.password, d.username, d.password);
      }
    }
  }

  /** Splitting the hashed text at another NUL gives another credential with the same hash, and
      every such credential comes from one. */
  lemma SplitElsewhere(d: Data, i: nat)
    requires i < |Hash(d)| && Hash(d)[i] == NUL && i != |d.username|
    ensures var e := Data(Hash(d)[..i], Hash(d)[i + 1..]); e != d && Hash(e) == Hash(d)
  {
    var h := Hash(d);
    assert h == h[..i] + [NUL] + h[i + 1..];
  }

  lemma HashSplits(d: Data)
    ensures var h, n := Hash(d), |d.username|; h[n] == NUL && h[..n] == d.username && h[n + 1..] == d.password
  {}

  /** A NUL after the first character of the user name or before the last one of the password. */
  predicate InnerNul(d: Data) {
    || (exists i :: 0 < i < |d.username| && d.username[i] == NUL)
    || (exists i :: 0 <= i < |d.password| - 1 && d.password[i] == NUL)
  }

  lemma CollisionHasNul(d: Data, e: Data)
    requires e != d && Usable(e) && Hash(e) == Hash(d)
    ensures InnerNul(d)
  {
    HashSplits(d);
    HashSplits(e);
    var n, m := |d.username|, |e.username|;
    if m < n {
      assert d.username[m] == NUL;
    } else if m > n {
      assert d.password[m - n - 1] == NUL && |e.password| == |d.password| - (m - n);
    }
  }

  lemma NulCollides(d: Data) returns (e: Data)
    requires InnerNul(d)
    ensures e != d && Usable(e) && Hash(e) == Hash(d)
  {
    var h, n := Hash(d), |d.username|;
    HashSplits(d);
    var i: int;
    if j :| 0 < j < |d.username| && d.username[j] == NUL {
      i := j;
    } else {
      var j :| 0 <= j < |d.password| - 1 && d.password[j] == NUL;
      i := n + 1 + j;
    }
    assert h[i] == NUL;
    SplitElsewhere(d, i);
    e := Data(h[..i], h[i + 1..]);
  }

  /** Exactly the credentials with a NUL inside share their hash with another usable one. */
  lemma HashCollidesIff(d: Data)
    ensures (exists e :: e != d && Usable(e) && Hash(e) == Hash(d)) <==> InnerNul(d)
  {
    hide Hash, InnerNul, Usable;
    if InnerNul(d) {
      var e := NulCollides(d);
    }
    forall e | e != d && Usable(e) && Hash(e) == Hash(d)
      ensures InnerNul(d)
    {
      CollisionHasNul(d, e);
    }
  }

  // ---- all runs of one app, the operator being the only writer of the copy ----

  datatype Event =
    | SetSource(source: Option<Data>)
    | PutSecret(name: string, secret: Secret)
    | DeleteSecret(name: string)
    | Reconcile(app: App, cfg: Config, faults: Faults)

  /** `seen` is the last valid source copied since the app was last off the sync path. */
  datatype World = World(g: State, seen: Option<Data>)

  predicate SameApp(a: App, b: App) { a.name == b.name && a.uid == b.uid }

  predicate PlainSource(source: Option<Data>) { source.Some? ==> NUL !in source.value.username }

  predicate Enabled(self: App, ev: Event) {
    match ev
    case SetSource(source) => PlainSource(source)
    case PutSecret(name, _) => name != CopyName(self)
    case DeleteSecret(name) => name != CopyName(self)
    case Reconcile(app, _, _) => SameApp(app, self)
  }

  /** The step, with or without the skip. */
  function Next(w: World, ev: Event, skip: bool): World {
    match ev
    case SetSource(source) => w.(g := w.g.(source := source))
    case PutSecret(name, secret) => w.(g := w.g.(secrets := w.g.secrets[name := secret]))
    case DeleteSecret(name) => w.(g := w.g.(secrets := w.g.secrets - {name}))
    case Reconcile(app, cfg, faults) =>
      var r := Synced(w.g, app, cfg, faults, skip);
      World(r.0,
            if r.1.None? then w.seen
            else if !Decide(app, cfg).syncCopy then None
            else if Source(w.g).Some? then Source(w.g)
            else w.seen)
  }

  ghost predicate IsRun(ws: seq<World>, evs: seq<Event>, self: App, skip: bool) {
    && |ws| == |evs| + 1
    && CopyName(self) !in ws[0].g.secrets && ws[0].seen == None && PlainSource(ws[0].g.source)
    && forall k :: 0 <= k < |evs| ==> Enabled(self, evs[k]) && ws[k + 1] == Next(ws[k], evs[k], skip)
  }

  /** The copy is the last valid source seen, or there is none. */
  ghost predicate CopyIsSeen(w: World, self: App) {
    && PlainSource(w.g.source)
    && match w.seen
       case None => CopyName(self) !in w.g.secrets
       case Some(d) =>
         && Usable(d) && NUL !in d.username
         && CopyName(self) in w.g.secrets && w.g.secrets[CopyName(self)] == CopyOf(self, d)
  }

  /** Skipping on an equal hash is applying every time. */
  lemma SkipIsApply(w: World, ev: Event, self: App)
    requires CopyIsSeen(w, self) && Enabled(self, ev)
    ensures Next(w, ev, true) == Next(w, ev, false)
    ensures ev.Reconcile? && !ev.faults.write ==>
              Synced(w.g, ev.app, ev.cfg, ev.faults, true) == Synced(w.g, ev.app, ev.cfg, ev.faults, false)
  {
    if ev.Reconcile? && Source(w.g).Some? && UpToDate(w.g, ev.app, Source(w.g).value) {
      assert w.seen.Some?;
      HashInjective(w.seen.value, Source(w.g).value);
      var up := w.g.(outage := false);
      assert up.secrets == Applied(up, ev.app, Source(w.g).value).secrets;
    }
  }

  lemma CopyStep(w: World, ev: Event, self: App)
    requires CopyIsSeen(w, self) && Enabled(self, ev)
    ensures CopyIsSeen(Next(w, ev, false), self)
  {}

  /** In every state of every run the copy holds the last valid source seen. */
  lemma {:induction false} CopyHoldsLastSource(ws: seq<World>, evs: seq<Event>, self: App, skip: bool, k: nat)
    requires IsRun(ws, evs, self, skip) && k < |ws|
    ensures CopyIsSeen(ws[k], self)
  {
    if k == 0 {
    } else {
      CopyHoldsLastSource(ws, evs, self, skip, k - 1);
      SkipIsApply(ws[k - 1], evs[k - 1], self);
      CopyStep(ws[k - 1], evs[k - 1], self);
    }
  }

  /** Over whole runs, with and without the skip, the same copies. */
  lemma {:induction false} SkipRefinesApply(ws: seq<World>, vs: seq<World>, evs: seq<Event>, self: App, k: nat)
    requires IsRun(ws, evs, self, true) && IsRun(vs, evs, self, false) && ws[0] == vs[0] && k < |ws|
    ensures ws[k] == vs[k]
  {
    if k == 0 {
    } else {
      SkipRefinesApply(ws, vs, evs, self, k - 1);
      CopyHoldsLastSource(ws, evs, self, true, k - 1);
      SkipIsApply(ws[k - 1], evs[k - 1], self);
    }
  }

  /** The skip leaves a stale copy exactly when the new credential shares its hash. */
  lemma SkipIsStaleIff(g: State, app: App, cfg: Config, copied: Data, current: Data)
    requires Decide(app, cfg).syncCopy && g.source == Some(current) && Usable(current)
    requires CopyName(app) in g.secrets && g.secrets[CopyName(app)] == CopyOf(app, copied)
    ensures Synced(g, app, cfg, NO_FAULTS, true).0.secrets[CopyName(app)].data != current
        <==> copied != current && Hash(copied) == Hash(current)
    ensures Synced(g, app, cfg, NO_FAULTS, false).0.secrets[CopyName(app)].data == current
  {}

  /** Two usable credentials, told apart by a NUL only, share a hash. */
  lemma StaleCopyExample()
    ensures var d, e := Data("a\0b", "c"), Data("a", "b\0c");
            Usable(d) && Usable(e) && d != e && Hash(d) == Hash(e)
  {}

  /** What a reconcile that goes on mounts: the override, nothing off the sync path, the copy while the
      source is usable, and in an outage the copy exactly if it is there and can be seen. */
  lemma MountIs(g: State, app: App, cfg: Config, faults: Faults)
    requires Synced(g, app, cfg, faults, true).1.Some?
    ensures Synced(g, app, cfg, faults, true).1.value.secretName ==
            if app.repoAuth.Some? then app.repoAuth.value
            else if !Decide(app, cfg).syncCopy then ""
            else if Source(g).Some? || (CopyName(app) in g.secrets && !faults.metadata) then CopyName(app)
            else ""
  {}

  /** A missing or unusable source changes no Secret; off the sync path no owned copy remains and no
      other Secret is touched. */
  lemma SecretsAfter(g: State, app: App, cfg: Config, faults: Faults, n: string)
    ensures var r := Synced(g, app, cfg, faults, true).0.secrets;
            && (n != CopyName(app) ==> (n in r <==> n in g.secrets) && (n in r ==> r[n] == g.secrets[n]))
            && (Decide(app, cfg).syncCopy && Source(g).None? ==> r == g.secrets)
            && (!Decide(app, cfg).syncCopy && Synced(g, app, cfg, faults, true).1.Some? && n == CopyName(app) ==>
                  (n in r <==> n in g.secrets && g.secrets[n].owner != Some(app.uid)))
  {}

  /** The latest read of the source, in the order of events: whether it found nothing usable. */
  function LastReadMissing(ws: seq<World>, evs: seq<Event>, before: bool): bool
    requires |ws| == |evs| + 1
  {
    if evs == [] then before
    else
      var k := |evs| - 1;
      if evs[k].Reconcile? && Decide(evs[k].app, evs[k].cfg).syncCopy && !evs[k].faults.source
      then Source(ws[k].g).None?
      else LastReadMissing(ws[..k + 1], evs[..k], before)
  }

  /** At every point of every run the outage flag is set exactly when the latest read of the source
      found none usable. */
  lemma {:induction false} OutageIsLastRead(ws: seq<World>, evs: seq<Event>, self: App, skip: bool)
    requires IsRun(ws, evs, self, skip)
    ensures ws[|evs|].g.outage == LastReadMissing(ws, evs, ws[0].g.outage)
  {
    if evs == [] {
    } else {
      var k := |evs| - 1;
      assert IsRun(ws[..k + 1], evs[..k], self, skip);
      OutageIsLastRead(ws[..k + 1], evs[..k], self, skip);
      assert ws[k + 1] == Next(ws[k], evs[k], skip);
    }
  }

  /** Whatever a reconcile that goes on decides to mount exists with both keys set. */
  lemma MountedIsUsable(ws: seq<World>, evs: seq<Event>, self: App, k: nat)
    requires IsRun(ws, evs, self, true) && k < |evs| && evs[k].Reconcile?
    requires OverrideValid(ws[k + 1].g, evs[k].app)
    ensures var d := Synced(ws[k].g, evs[k].app, evs[k].cfg, evs[k].faults, true).1;
            d.Some? && d.value.secretName != "" ==>
              && d.value.secretName in ws[k + 1].g.secrets
              && Usable(ws[k + 1].g.secrets[d.value.secretName].data)
  {
    CopyHoldsLastSource(ws, evs, self, true, k);
    CopyHoldsLastSource(ws, evs, self, true, k + 1);
  }

  // ---- mounting ----

  datatype Container = Container(name: string, env: seq<(string, string)>, mounts: seq<string>)

  const CREDENTIAL_DIR := "/run/git-credential"

  function WithCredential(c: Container, host: string): Container {
    c.(env := c.env + [("GIT_CREDENTIAL_DIR", CREDENTIAL_DIR), ("GIT_CREDENTIAL_HOST", host)],
        mounts := c.mounts + [CREDENTIAL_DIR])
  }

  function Wired(c: Container, name: string, host: string): Container {
    if name != "" && c.name != name then c else WithCredential(c, host)
  }

  /** Container by container: wired exactly if it is meant, and otherwise as it was. */
  ghost predicate AreWired(before: seq<Container>, after: seq<Container>, name: string, host: string) {
    && |after| == |before|
    && forall i :: 0 <= i < |after| ==>
         if name == "" || before[i].name == name then
           && after[i].name == before[i].name
           && after[i].mounts == before[i].mounts + [CREDENTIAL_DIR]
           && after[i].env
              == before[i].env + [("GIT_CREDENTIAL_DIR", CREDENTIAL_DIR), ("GIT_CREDENTIAL_HOST", host)]
         else after[i] == before[i]
  }

  class PodSpec {
    var volumes: seq<string>
    var containers: seq<Container>
    var inits: seq<Container>

    /** Without a known host nothing is mounted; with one, exactly the named containers, or all where
        none is named, get the mount and are told the host. */
    method AddGitCredential(containerName: string, secretName: string, host: string)
      modifies this
      ensures host == "" ==> volumes == old(volumes) && containers == old(containers) && inits == old(inits)
      ensures host != "" ==>
                && volumes == old(volumes) + [secretName]
                && AreWired(old(containers), containers, containerName, host)
                && AreWired(old(inits), inits, containerName, host)
    {
      if host == "" {
        return;
      }
      volumes := volumes + [secretName];
      for i := 0 to |containers|
        invariant |containers| == |old(containers)|
        invariant forall k :: 0 <= k < i ==> containers[k] == Wired(old(containers)[k], containerName, host)
        invariant forall k :: i <= k < |containers| ==> containers[k] == old(containers)[k]
        invariant volumes == old(volumes) + [secretName] && inits == old(inits)
      {
        if containerName != "" && containers[i].name != containerName {
          continue;
        }
        containers := containers[i := WithCredential(containers[i], host)];
      }
      for i := 0 to |inits|
        invariant |inits| == |old(inits)|
        invariant forall k :: 0 <= k < i ==> inits[k] == Wired(old(inits)[k], containerName, host)
        invariant forall k :: i <= k < |inits| ==> inits[k] == old(inits)[k]
        invariant volumes == old(volumes) + [secretName] && |containers| == |old(containers)|
        invariant forall k :: 0 <= k < |containers| ==> containers[k] == Wired(old(containers)[k], containerName, host)
      {
        if containerName != "" && inits[i].name != containerName {
          continue;
        }
        inits := inits[i := WithCredential(inits[i], host)];
      }
    }
  }
}
