/** The lease on a target event that keeps the runs of different profiles apart
    (leases.py): one key with an owner and a time to live, changed by
    compare-and-set.  Each script runs as one atomic step at the store's time. */
module EventLease {
  type Token = string
  type Time = int

  const SEPARATOR: char := '\U{1F}'

  datatype Hold = Hold(owner: Token, expires: Time)
  type Leases = map<string, Hold>

  /** What is hashed for the key of a lease. */
  function KeyOf(connectionId: string, eventId: string): string {
    connectionId + [SEPARATOR] + eventId
  }

  /** Connection ids are UUIDs, so two events share a lease only if they are one. */
  lemma {:induction false} KeysAreApart(c: string, e: string, c': string, e': string)
    requires SEPARATOR !in c && SEPARATOR !in c'
    ensures KeyOf(c, e) == KeyOf(c', e') <==> c == c' && e == e'
  {
    if KeyOf(c, e) == KeyOf(c', e') {
      var key := KeyOf(c, e);
      assert key[|c|] == SEPARATOR && key[|c'|] == SEPARATOR;
      assert forall k :: 0 <= k < |c| ==> key[k] == c[k];
      assert forall k :: 0 <= k < |c'| ==> key[k] == c'[k];
      assert c == key[..|c|] && c' == key[..|c'|] && e == key[|c| + 1..] && e' == key[|c'| + 1..];
    }
  }

  // One request.

  datatype Request =
    | Acquire(key: string, owner: Token, ttl: nat)
    | Renew(key: string, owner: Token, ttl: nat)
    | Release(key: string, owner: Token)

  predicate HeldBy(held: Leases, key: string, owner: Token, now: Time) {
    key in held && held[key].owner == owner && now < held[key].expires
  }

  predicate Free(held: Leases, key: string, now: Time) {
    key in held ==> held[key].expires <= now
  }

  predicate Granted(held: Leases, r: Request, now: Time) {
    if r.Acquire? then Free(held, r.key, now) else HeldBy(held, r.key, r.owner, now)
  }

  function After(held: Leases, r: Request, now: Time): Leases {
    if !Granted(held, r, now) then held
    else if r.Release? then held - {r.key}
    else held[r.key := Hold(r.owner, now + r.ttl)]
  }

  class EventLeases {
    var held: Leases

    constructor ()
      ensures held == map[]
    {
      held := map[];
    }

    /** SET with NX and EX. */
    method TryAcquire(connectionId: string, eventId: string, owner: Token, ttl: nat, now: Time) returns (ok: bool)
      requires ttl > 0
      modifies this
      ensures ok == Granted(old(held), Acquire(KeyOf(connectionId, eventId), owner, ttl), now)
      ensures held == After(old(held), Acquire(KeyOf(connectionId, eventId), owner, ttl), now)
      ensures ok <==> forall other :: !HeldBy(old(held), KeyOf(connectionId, eventId), other, now)
      ensures held == if ok then old(held)[KeyOf(connectionId, eventId) := Hold(owner, now + ttl)] else old(held)
      ensures ok ==> HeldBy(held, KeyOf(connectionId, eventId), owner, now)
    {
      var key := KeyOf(connectionId, eventId);
      ok := key !in held || held[key].expires <= now;
      assert !ok ==> HeldBy(held, key, held[key].owner, now);
      if ok {
        held := held[key := Hold(owner, now + ttl)];
      }
    }

    /** The renewal script: only the owner's EXPIRE goes through. */
    method TryRenew(connectionId: string, eventId: string, owner: Token, ttl: nat, now: Time) returns (ok: bool)
      requires ttl > 0
      modifies this
      ensures ok == Granted(old(held), Renew(KeyOf(connectionId, eventId), owner, ttl), now)
      ensures held == After(old(held), Renew(KeyOf(connectionId, eventId), owner, ttl), now)
      ensures ok <==> HeldBy(old(held), KeyOf(connectionId, eventId), owner, now)
      ensures held == if ok then old(held)[KeyOf(connectionId, eventId) := Hold(owner, now + ttl)] else old(held)
      ensures ok ==> HeldBy(held, KeyOf(connectionId, eventId), owner, now)
    {
      var key := KeyOf(connectionId, eventId);
      ok := key in held && now < held[key].expires && held[key].owner == owner;
      if ok {
        held := held[key := Hold(owner, now + ttl)];
      }
    }

    /** The release script: only the owner's DEL goes through. */
    method TryRelease(connectionId: string, eventId: string, owner: Token, now: Time)
      modifies this
      ensures held == After(old(held), Release(KeyOf(connectionId, eventId), owner), now)
      ensures forall k, o :: o != owner && HeldBy(old(held), k, o, now) ==> HeldBy(held, k, o, now)
      ensures !HeldBy(held, KeyOf(connectionId, eventId), owner, now)
      ensures forall k :: k != KeyOf(connectionId, eventId) ==> (k in held <==> k in old(held)) && (k in held ==> held[k] == old(held)[k])
    {
      var key := KeyOf(connectionId, eventId);
      if key in held && now < held[key].expires && held[key].owner == owner {
        held := held - {key};
      }
    }
  }

  // Any history of requests.

  datatype Timed = Timed(request: Request, now: Time)

  ghost predicate Ordered(history: seq<Timed>) {
    forall m, n :: 0 <= m < n < |history| ==> history[m].now <= history[n].now
  }

  ghost function Held(history: seq<Timed>): Leases {
    var n := |history| - 1;
    if history == [] then map[] else After(Held(history[..n]), history[n].request, history[n].now)
  }

  ghost predicate Passes(history: seq<Timed>, n: nat)
    requires n < |history|
  {
    Granted(Held(history[..n]), history[n].request, history[n].now)
  }

  lemma HeldNext(history: seq<Timed>, n: nat)
    requires n < |history|
    ensures Held(history[..n + 1]) == After(Held(history[..n]), history[n].request, history[n].now)
  {
    assert history[..n + 1][..n] == history[..n];
  }

  /** Request n gave `key` to `owner`, or let it keep it. */
  ghost predicate Grants(history: seq<Timed>, n: nat, key: string, owner: Token) {
    && n < |history| && Passes(history, n) && !history[n].request.Release?
    && history[n].request.key == key && history[n].request.owner == owner
  }

  ghost predicate GivesBack(history: seq<Timed>, n: nat, key: string, owner: Token) {
    n < |history| && Passes(history, n) && history[n].request == Release(key, owner)
  }

  function Until(t: Timed): Time
    requires !t.request.Release?
  {
    t.now + t.request.ttl
  }

  /** Between requests i and n the owner gave the lease back, or its last renewal ran out by `now`. */
  ghost predicate Over(history: seq<Timed>, i: nat, n: nat, key: string, owner: Token, now: Time) {
    || (exists m :: i < m < n && GivesBack(history, m, key, owner))
    || (exists m :: i <= m < n && Grants(history, m, key, owner) && Until(history[m]) <= now)
  }

  ghost predicate Still(history: seq<Timed>, i: nat, n: nat, key: string, owner: Token) {
    exists m :: i <= m < n <= |history| && Grants(history, m, key, owner)
                && key in Held(history[..n]) && Held(history[..n])[key] == Hold(owner, Until(history[m]))
  }

  lemma StillNext(history: seq<Timed>, i: nat, n: nat, key: string, owner: Token)
    requires n < |history| && Still(history, i, n, key, owner)
    ensures Still(history, i, n + 1, key, owner) || Over(history, i, n + 1, key, owner, history[n].now)
  {
    var m :| i <= m < n && Grants(history, m, key, owner)
             && key in Held(history[..n]) && Held(history[..n])[key] == Hold(owner, Until(history[m]));
    HeldNext(history, n);
    if Passes(history, n) && history[n].request.key == key {
      if history[n].request.Release? {
        assert GivesBack(history, n, key, owner);
      } else if history[n].request.owner == owner {
        assert Grants(history, n, key, owner);
      } else {
        assert Until(history[m]) <= history[n].now;
      }
    }
  }

  lemma OverStays(history: seq<Timed>, i: nat, n: nat, n': nat, key: string, owner: Token, now: Time, now': Time)
    requires Over(history, i, n, key, owner, now) && n <= n' && now <= now'
    ensures Over(history, i, n', key, owner, now')
  {
    if m :| i < m < n && GivesBack(history, m, key, owner) {
      assert i < m < n';
    } else {
      var m :| i <= m < n && Grants(history, m, key, owner) && Until(history[m]) <= now;
      assert i <= m < n';
    }
  }

  lemma StillAtFirst(history: seq<Timed>, i: nat, key: string, owner: Token)
    requires Grants(history, i, key, owner)
    ensures Still(history, i, i + 1, key, owner)
  {
    HeldNext(history, i);
  }

  lemma {:induction false} StillOrOver(history: seq<Timed>, i: nat, n: nat, key: string, owner: Token)
    requires Ordered(history) && Grants(history, i, key, owner) && i < n <= |history|
    ensures Still(history, i, n, key, owner) || Over(history, i, n, key, owner, history[n - 1].now)
  {
    hide Still, Over, Grants, Held;
    if n == i + 1 {
      StillAtFirst(history, i, key, owner);
    } else {
      StillOrOver(history, i, n - 1, key, owner);
      if Still(history, i, n - 1, key, owner) {
        StillNext(history, i, n - 1, key, owner);
      } else {
        OverStays(history, i, n - 1, n, key, owner, history[n - 2].now, history[n - 1].now);
      }
    }
  }

  /** Mutual exclusion: once an owner has the lease, nobody else gets or renews it
      before that owner gives it back or lets its last renewal run out. */
  lemma HoldersExclude(history: seq<Timed>, i: nat, j: nat, key: string, owner: Token, other: Token)
    requires Ordered(history) && i < j && owner != other
    requires Grants(history, i, key, owner) && Grants(history, j, key, other)
    ensures Over(history, i, j, key, owner, history[j].now)
  {
    StillOrOver(history, i, j, key, owner);
    if !Still(history, i, j, key, owner) {
      OverStays(history, i, j, j, key, owner, history[j - 1].now, history[j].now);
    }
  }

  ghost predicate Lost(history: seq<Timed>, n: nat, key: string, owner: Token, now: Time)
    requires n <= |history|
  {
    !HeldBy(Held(history[..n]), key, owner, now)
  }

  lemma {:induction false} StaysLost(history: seq<Timed>, i: nat, n: nat, key: string, owner: Token)
    requires Ordered(history) && i <= n < |history| && Lost(history, i, key, owner, history[i].now)
    requires forall m :: i <= m < n && Grants(history, m, key, owner) ==> !history[m].request.Acquire?
    ensures Lost(history, n, key, owner, history[n].now)
  {
    if n > i {
      StaysLost(history, i, n - 1, key, owner);
      HeldNext(history, n - 1);
      assert !Grants(history, n - 1, key, owner);
    }
  }

  /** A token that failed to renew or release never renews or releases again, unless it
      acquires the lease anew. */
  lemma LostUntilAcquired(history: seq<Timed>, i: nat, j: nat, key: string, owner: Token)
    requires Ordered(history) && i < j < |history|
    requires !history[i].request.Acquire? && !history[j].request.Acquire?
    requires history[i].request.key == history[j].request.key == key
    requires history[i].request.owner == history[j].request.owner == owner
    requires !Passes(history, i) && Passes(history, j)
    ensures exists m :: i < m < j && Grants(history, m, key, owner) && history[m].request.Acquire?
  {
    if forall m :: i <= m < j && Grants(history, m, key, owner) ==> !history[m].request.Acquire? {
      StaysLost(history, i, j, key, owner);
    }
  }
}
