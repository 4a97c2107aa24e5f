/** The two event limiters (internal/observability/ratelimit.go and
    console/internal/sentryhttp/ratelimit.go): one event per fingerprint per hour, with stale
    entries swept at most once a minute. Pruning is housekeeping: it never changes a decision. */
module RateLimit {
  import opened Util

  // Durations in seconds; the clock is an integer. A limiter that never swept has no last sweep
  // (the zero time of the source lies further back than any interval).
  const WINDOW := 3600
  const PRUNE := 60

  datatype Limiter = Limiter(sent: map<string, int>, swept: Option<int>)
  const NEW_LIMITER := Limiter(map[], None)

  // ---- keys ----

  const NUL := '\0'

  function Join(parts: seq<string>): string {
    if parts == [] then "" else if |parts| == 1 then parts[0] else parts[0] + [NUL] + Join(parts[1..])
  }

  /** Reads a key back. */
  function Unjoin(key: string): (parts: seq<string>)
    ensures parts != []
  {
    if key == "" then [""]
    else
      var rest := Unjoin(key[1..]);
      if key[0] == NUL then [""] + rest else [[key[0]] + rest[0]] + rest[1..]
  }

  lemma {:induction false} UnjoinPlain(s: string)
    requires NUL !in s
    ensures Unjoin(s) == [s]
  {
    if s == "" {
    } else {
      UnjoinPlain(s[1..]);
      assert [s[0]] + s[1..] == s;
    }
  }

  lemma {:induction false} UnjoinFirst(s: string, rest: string)
    requires NUL !in s
    ensures Unjoin(s + [NUL] + rest) == [s] + Unjoin(rest)
  {
    var key := s + [NUL] + rest;
    if s == "" {
      assert key[1..] == rest;
    } else {
      assert key[1..] == s[1..] + [NUL] + rest;
      UnjoinFirst(s[1..], rest);
      assert [s[0]] + s[1..] == s;
    }
  }

  lemma {:induction false} UnjoinJoin(parts: seq<string>)
    requires parts != [] && forall p :: p in parts ==> NUL !in p
    ensures Unjoin(Join(parts)) == parts
  {
    if |parts| == 1 {
      UnjoinPlain(parts[0]);
    } else {
      UnjoinJoin(parts[1..]);
      UnjoinFirst(parts[0], Join(parts[1..]));
      assert parts == [parts[0]] + parts[1..];
    }
  }

  /** Different fingerprints never share a key, as long as they are not empty and hold no NUL. */
  lemma JoinInjective(a: seq<string>, b: seq<string>)
    requires a != [] && b != [] && (forall p :: p in a ==> NUL !in p) && (forall p :: p in b ==> NUL !in p)
    ensures Join(a) == Join(b) <==> a == b
  {
    UnjoinJoin(a);
    UnjoinJoin(b);
  }

  // ---- one call ----

  predicate Muted(sent: map<string, int>, key: string, now: int) {
    key in sent && now - sent[key] < WINDOW
  }

  function Recent(sent: map<string, int>, now: int): map<string, int> {
    map k | k in sent && now - sent[k] < WINDOW :: sent[k]
  }

  predicate SweepDue(l: Limiter, now: int) { l.swept.None? || now - l.swept.value >= PRUNE }

  function Swept(l: Limiter, now: int): Limiter {
    if SweepDue(l, now) then Limiter(Recent(l.sent, now), Some(now)) else l
  }

  function Sent(sent: map<string, int>, key: string, now: int): map<string, int> {
    if Muted(sent, key, now) then sent else sent[key := now]
  }

  function Called(l: Limiter, key: string, now: int): Limiter {
    var s := Swept(l, now);
    s.(sent := Sent(s.sent, key, now))
  }

  predicate Allowed(l: Limiter, key: string, now: int) { !Muted(Swept(l, now).sent, key, now) }

  method Sweep(sent: map<string, int>, now: int) returns (r: map<string, int>)
    ensures r == Recent(sent, now)
  {
    r := sent;
    var todo := sent.Keys;
    while todo != {}
      invariant todo <= sent.Keys
      invariant forall k :: k in r <==> k in sent && (k in todo || now - sent[k] < WINDOW)
      invariant forall k :: k in r ==> r[k] == sent[k]
    {
      var k :| k in todo;
      if now - sent[k] >= WINDOW {
        r := r - {k};
      }
      todo := todo - {k};
    }
  }

  class OperatorLimiter {
    var lastSent: map<string, int>
    var lastPrune: Option<int>

    function View(): Limiter reads this { Limiter(lastSent, lastPrune) }

    constructor ()
      ensures View() == NEW_LIMITER
    {
      lastSent, lastPrune := map[], None;
    }

    method Allow(fingerprint: seq<string>, now: int) returns (ok: bool)
      modifies this
      ensures ok == Allowed(old(View()), Join(fingerprint), now)
      ensures View() == Called(old(View()), Join(fingerprint), now)
    {
      var key := Join(fingerprint);
      if lastPrune.None? || now - lastPrune.value >= PRUNE {
        lastSent := Sweep(lastSent, now);
        lastPrune := Some(now);
      }
      if key in lastSent && now - lastSent[key] < WINDOW {
        return false;
      }
      lastSent := lastSent[key := now];
      return true;
    }
  }

  class ConsoleLimiter {
    var lastSent: map<string, int>
    var lastPrune: Option<int>

    function View(): Limiter reads this { Limiter(lastSent, lastPrune) }

    constructor ()
      ensures View() == NEW_LIMITER
    {
      lastSent, lastPrune := map[], None;
    }

    /** Stamps the sweep first, then deletes one entry at a time from the live map. */
    method Allow(fingerprint: seq<string>, now: int) returns (ok: bool)
      modifies this
      ensures ok == Allowed(old(View()), Join(fingerprint), now)
      ensures View() == Called(old(View()), Join(fingerprint), now)
    {
      var key := Join(fingerprint);
      if lastPrune.None? || now - lastPrune.value >= PRUNE {
        lastPrune := Some(now);
        var todo := lastSent.Keys;
        while todo != {}
          invariant todo <= old(lastSent).Keys && lastPrune == Some(now)
          invariant forall k :: k in lastSent <==> k in old(lastSent) && (k in todo || now - old(lastSent)[k] < WINDOW)
          invariant forall k :: k in lastSent ==> lastSent[k] == old(lastSent)[k]
        {
          var k :| k in todo;
          if now - lastSent[k] >= WINDOW {
            lastSent := lastSent - {k};
          }
          todo := todo - {k};
        }
        assert lastSent == Recent(old(lastSent), now);
      }
      if key in lastSent && now - lastSent[key] < WINDOW {
        return false;
      }
      lastSent := lastSent[key := now];
      return true;
    }
  }

  // ---- all calls ----

  datatype Call = Call(key: string, at: int)

  ghost predicate ClockRuns(calls: seq<Call>) {
    forall i, j :: 0 <= i < j < |calls| ==> calls[i].at <= calls[j].at
  }

  /** The limiter, and the reference that never forgets, after some calls. */
  function After(calls: seq<Call>): Limiter {
    if calls == [] then NEW_LIMITER
    else var last := calls[|calls| - 1]; Called(After(calls[..|calls| - 1]), last.key, last.at)
  }

  function Remembered(calls: seq<Call>): map<string, int> {
    if calls == [] then map[]
    else var last := calls[|calls| - 1]; Sent(Remembered(calls[..|calls| - 1]), last.key, last.at)
  }

  predicate AllowedAt(calls: seq<Call>, i: nat)
    requires i < |calls|
  {
    Allowed(After(calls[..i]), calls[i].key, calls[i].at)
  }

  /** What pruning may have dropped is stale, now and later. */
  ghost predicate Agrees(l: Limiter, all: map<string, int>, now: int) {
    && (forall k :: k in l.sent ==> k in all && all[k] == l.sent[k])
    && (forall k :: k in all && k !in l.sent ==> now - all[k] >= WINDOW)
  }

  lemma AgreesStep(l: Limiter, all: map<string, int>, before: int, key: string, now: int)
    requires Agrees(l, all, before) && before <= now
    ensures Allowed(l, key, now) == !Muted(all, key, now)
    ensures Agrees(Called(l, key, now), Sent(all, key, now), now)
  {}

  lemma {:induction false} AgreesAfter(calls: seq<Call>, now: int)
    requires ClockRuns(calls) && (calls != [] ==> calls[|calls| - 1].at <= now)
    ensures Agrees(After(calls), Remembered(calls), now)
  {
    if calls == [] {
    } else {
      var n := |calls| - 1;
      AgreesAfter(calls[..n], calls[n].at);
      AgreesStep(After(calls[..n]), Remembered(calls[..n]), calls[n].at, calls[n].key, calls[n].at);
    }
  }

  /** Pruning refines no pruning: on every call sequence under a non-decreasing clock each call
      is decided as by a limiter that keeps every entry forever. */
  lemma PruningChangesNothing(calls: seq<Call>, i: nat)
    requires ClockRuns(calls) && i < |calls|
    ensures AllowedAt(calls, i) <==> !Muted(Remembered(calls[..i]), calls[i].key, calls[i].at)
  {
    AgreesAfter(calls[..i], calls[i].at);
    AgreesStep(After(calls[..i]), Remembered(calls[..i]), calls[i].at, calls[i].key, calls[i].at);
  }

  /** The reference keeps the last allowed send of every key it ever allowed. */
  lemma {:induction false} RemembersLatest(calls: seq<Call>, i: nat)
    requires ClockRuns(calls) && i < |calls| && !Muted(Remembered(calls[..i]), calls[i].key, calls[i].at)
    ensures calls[i].key in Remembered(calls) && Remembered(calls)[calls[i].key] >= calls[i].at
  {
    var n := |calls| - 1;
    if i < n {
      assert calls[..n][..i] == calls[..i];
      RemembersLatest(calls[..n], i);
    } else {
      assert calls[..n] == calls[..i];
    }
  }

  /** Two allowed sends of one key are at least an hour apart. */
  lemma SendsAreSpaced(calls: seq<Call>, i: nat, j: nat)
    requires ClockRuns(calls) && i < j < |calls| && calls[i].key == calls[j].key
    requires AllowedAt(calls, i) && AllowedAt(calls, j)
    ensures calls[j].at - calls[i].at >= WINDOW
  {
    PruningChangesNothing(calls, i);
    PruningChangesNothing(calls, j);
    assert calls[..j][..i] == calls[..i];
    RemembersLatest(calls[..j], i);
  }

  /** And a call an hour after the last allowed send of its key is allowed. */
  lemma SilenceEnds(calls: seq<Call>, j: nat)
    requires ClockRuns(calls) && j < |calls|
    requires forall i :: 0 <= i < j && calls[i].key == calls[j].key && AllowedAt(calls, i) ==>
                           calls[j].at - calls[i].at >= WINDOW
    ensures AllowedAt(calls, j)
  {
    PruningChangesNothing(calls, j);
    if calls[j].key in Remembered(calls[..j]) {
      var i := RememberedFrom(calls[..j], calls[j].key);
      assert calls[..j][..i] == calls[..i];
      PruningChangesNothing(calls, i);
    }
  }

  lemma {:induction false} RememberedFrom(calls: seq<Call>, key: string) returns (i: nat)
    requires key in Remembered(calls)
    ensures i < |calls| && calls[i].key == key && calls[i].at == Remembered(calls)[key]
    ensures !Muted(Remembered(calls[..i]), key, calls[i].at)
  {
    var n := |calls| - 1;
    if calls[n].key == key && !Muted(Remembered(calls[..n]), key, calls[n].at) {
      i := n;
    } else {
      i := RememberedFrom(calls[..n], key);
      assert calls[..n][..i] == calls[..i];
    }
  }

  /** The map stays small: after every call each entry is younger than the window plus one
      sweep interval. */
  lemma {:induction false} EntriesStayYoung(calls: seq<Call>)
    requires ClockRuns(calls) && calls != []
    ensures var l, now := After(calls), calls[|calls| - 1].at;
            && l.swept.Some? && 0 <= now - l.swept.value < PRUNE
            && (forall k :: k in l.sent ==> l.swept.value - l.sent[k] < WINDOW)
            && (forall k :: k in l.sent ==> now - l.sent[k] < WINDOW + PRUNE)
  {
    var n := |calls| - 1;
    if n == 0 {
    } else {
      EntriesStayYoung(calls[..n]);
    }
  }
}
