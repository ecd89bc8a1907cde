/** The server-sent-event connections used to push risk alerts to drivers.
  * Three maps keyed by user id are kept in step: the emitter, the time the
  * connection was made and the time of the last successful send. Whether a
  * send over an emitter succeeds is an input; `now` is an input. */
module AlertService {
  import opened Common

  const SSE_TIMEOUT: int := 30 * 60 * 1000
  /** A connection idle for strictly longer than this is closed by the sweep. */
  const IDLE_TIMEOUT: int := 15 * 60 * 1000
  const RECONNECT_DELAY: int := 1000

  /** An emitter, identified by the order in which it was created. */
  type Emitter = nat

  /** The risk behaviours an alert can report, with their event names. */
  datatype RiskKind = Drowsiness | PhoneUsage | Smoking
  {
    function EventName(): string
    {
      match this
      case Drowsiness => "drowsiness"
      case PhoneUsage => "phone_usage"
      case Smoking => "smoking"
    }
  }

  datatype Alert = Alert(userId: int, kind: RiskKind, detected: bool, batchId: Option<int>)

  datatype ConnectionError = InvalidUserId

  /** The observable state of the service: the three maps, the emitters that
    * have been completed (closed), and the alerts delivered so far. */
  datatype Registry = Registry(
    emitters: map<int, Emitter>,
    connectionTimes: map<int, int>,
    lastActivity: map<int, int>,
    completed: set<Emitter>,
    delivered: seq<Alert>)

  /** The three maps have the same users. */
  predicate InStep(r: Registry)
  {
    r.emitters.Keys == r.connectionTimes.Keys && r.emitters.Keys == r.lastActivity.Keys
  }

  /** cleanupUser: forget the user in all three maps and complete its emitter. */
  function Cleaned(r: Registry, u: int): Registry
  {
    Registry(
      r.emitters - {u}, r.connectionTimes - {u}, r.lastActivity - {u},
      if u in r.emitters then r.completed + {r.emitters[u]} else r.completed,
      r.delivered)
  }

  /** cleanupUser applied to every user of `users`. */
  function CleanedAll(r: Registry, users: set<int>): Registry
  {
    Registry(
      r.emitters - users, r.connectionTimes - users, r.lastActivity - users,
      r.completed + (set u | u in users && u in r.emitters :: r.emitters[u]),
      r.delivered)
  }

  /** A user registered with emitter `e` at time `now`. */
  function Registered(r: Registry, u: int, e: Emitter, now: int): Registry
  {
    r.(emitters := r.emitters[u := e], connectionTimes := r.connectionTimes[u := now],
       lastActivity := r.lastActivity[u := now])
  }

  /** The users whose keep-alive ping fails. */
  function PingFailures(r: Registry, pingOk: Emitter -> bool): set<int>
  {
    set u | u in r.emitters && !pingOk(r.emitters[u])
  }

  /** lastActivity after the pings: refreshed for every user whose ping went out. */
  function Pinged(r: Registry, now: int, pingOk: Emitter -> bool): Registry
  {
    r.(lastActivity := map u | u in r.lastActivity ::
      if u in r.emitters && pingOk(r.emitters[u]) then now else r.lastActivity[u])
  }

  /** sendKeepAliveToAll: refresh the users whose ping succeeds, clean up the rest. */
  function KeptAlive(r: Registry, now: int, pingOk: Emitter -> bool): Registry
  {
    CleanedAll(Pinged(r, now, pingOk), PingFailures(r, pingOk))
  }

  /** The users idle for longer than IDLE_TIMEOUT that still have an emitter. */
  function Stale(r: Registry, now: int): set<int>
  {
    set u | u in r.lastActivity && now - r.lastActivity[u] > IDLE_TIMEOUT && u in r.emitters
  }

  /** sendRiskBehaviorAlert to user `u`: nothing happens without an emitter;
    * a successful send records the alert and refreshes lastActivity; a
    * failed send cleans the user up. */
  function Sent(r: Registry, u: int, a: Alert, now: int, ok: bool): Registry
  {
    if u !in r.emitters then r
    else if ok then r.(lastActivity := r.lastActivity[u := now], delivered := r.delivered + [a])
    else Cleaned(r, u)
  }

  /** A send keeps the three maps in step, removes no other user, and
    * delivers at most the one alert. */
  lemma SentEffect(r: Registry, u: int, a: Alert, now: int, ok: bool)
    requires InStep(r)
    ensures var s := Sent(r, u, a, now, ok);
      InStep(s) &&
      s.emitters.Keys == (if u in r.emitters && !ok then r.emitters.Keys - {u} else r.emitters.Keys) &&
      (s.delivered == r.delivered || s.delivered == r.delivered + [a]) &&
      (s.delivered == r.delivered + [a] <==> u in r.emitters && ok)
  {
    CleanedLocal(r, u, u);
  }

  /** cleanupUser, once or twice, has the same effect. */
  lemma CleanedIdempotent(r: Registry, u: int)
    ensures Cleaned(Cleaned(r, u), u) == Cleaned(r, u)
  {
  }

  /** Cleaning up a user that is not connected changes nothing; cleaning up one
    * user leaves every other user's entries as they were. */
  lemma CleanedLocal(r: Registry, u: int, v: int)
    requires InStep(r)
    ensures u !in r.emitters ==> Cleaned(r, u) == r
    ensures InStep(Cleaned(r, u))
    ensures v != u ==>
      (v in Cleaned(r, u).emitters <==> v in r.emitters) &&
      (v in r.emitters ==>
        (Cleaned(r, u).emitters[v] == r.emitters[v] &&
         Cleaned(r, u).connectionTimes[v] == r.connectionTimes[v] &&
         Cleaned(r, u).lastActivity[v] == r.lastActivity[v]))
  {
    if u !in r.emitters {
      assert r.emitters - {u} == r.emitters;
      assert r.connectionTimes - {u} == r.connectionTimes;
      assert r.lastActivity - {u} == r.lastActivity;
    }
  }

  /** Cleaning up one more user extends a batch cleanup. */
  lemma CleanedAllStep(r: Registry, users: set<int>, u: int)
    requires u !in users
    ensures Cleaned(CleanedAll(r, users), u) == CleanedAll(r, users + {u})
  {
    var before := CleanedAll(r, users);
    var after := Cleaned(before, u);
    var target := CleanedAll(r, users + {u});
    assert after.emitters == target.emitters;
    assert after.connectionTimes == target.connectionTimes;
    assert after.lastActivity == target.lastActivity;
    var closedBefore := set v | v in users && v in r.emitters :: r.emitters[v];
    var closedAfter := set v | v in users + {u} && v in r.emitters :: r.emitters[v];
    if u in r.emitters {
      assert u in before.emitters && before.emitters[u] == r.emitters[u];
      assert closedAfter == closedBefore + {r.emitters[u]};
    } else {
      assert u !in before.emitters;
      assert closedAfter == closedBefore;
    }
    assert after.completed == target.completed;
  }

  /** Registering a user keeps the maps in step and adds the user. */
  lemma RegisteredInStep(r: Registry, u: int, e: Emitter, now: int)
    requires InStep(r)
    ensures InStep(Registered(r, u, e, now))
    ensures Registered(r, u, e, now).emitters.Keys == r.emitters.Keys + {u}
  {
  }

  /** The keep-alive sweep keeps the maps in step, keeps exactly the users whose
    * ping succeeded, with their lastActivity set to `now` and their other
    * entries unchanged, and completes the emitters of the others. */
  lemma KeepAliveEffect(r: Registry, now: int, pingOk: Emitter -> bool, u: int)
    requires InStep(r)
    ensures var k := KeptAlive(r, now, pingOk);
      InStep(k) &&
      (u in k.emitters <==> u in r.emitters && pingOk(r.emitters[u])) &&
      (u in k.emitters ==>
        (k.emitters[u] == r.emitters[u] && k.lastActivity[u] == now &&
         k.connectionTimes[u] == r.connectionTimes[u])) &&
      (u in r.emitters && !pingOk(r.emitters[u]) ==> r.emitters[u] in k.completed) &&
      k.delivered == r.delivered
  {
    var p := Pinged(r, now, pingOk);
    assert p.lastActivity.Keys == r.lastActivity.Keys;
    var k := KeptAlive(r, now, pingOk);
    if u in r.emitters && !pingOk(r.emitters[u]) {
      assert u in PingFailures(r, pingOk);
    }
  }

  /** lastActivity once the users of `done` have been pinged. */
  function PingedSoFar(r: Registry, now: int, pingOk: Emitter -> bool, done: set<int>): map<int, int>
  {
    map u | u in r.lastActivity ::
      if u in done && u in r.emitters && pingOk(r.emitters[u]) then now else r.lastActivity[u]
  }

  /** The users of `done` whose ping failed. */
  function FailedSoFar(r: Registry, pingOk: Emitter -> bool, done: set<int>): set<int>
  {
    set u | u in done && u in r.emitters && !pingOk(r.emitters[u])
  }

  /** Pinging one more connected user refreshes its lastActivity when the
    * ping succeeds and records it as failed otherwise. */
  lemma PingStep(r: Registry, now: int, pingOk: Emitter -> bool, done: set<int>, u: int)
    requires InStep(r) && u in r.emitters && u !in done
    ensures PingedSoFar(r, now, pingOk, done + {u}) ==
      if pingOk(r.emitters[u]) then PingedSoFar(r, now, pingOk, done)[u := now]
      else PingedSoFar(r, now, pingOk, done)
    ensures FailedSoFar(r, pingOk, done + {u}) ==
      if pingOk(r.emitters[u]) then FailedSoFar(r, pingOk, done)
      else FailedSoFar(r, pingOk, done) + {u}
  {
  }

  /** Before any ping nothing has changed; once every user has been pinged,
    * lastActivity is that of `Pinged` and the failures are `PingFailures`. */
  lemma PingBounds(r: Registry, now: int, pingOk: Emitter -> bool)
    requires InStep(r)
    ensures PingedSoFar(r, now, pingOk, {}) == r.lastActivity
    ensures FailedSoFar(r, pingOk, {}) == {}
    ensures Pinged(r, now, pingOk) == r.(lastActivity := PingedSoFar(r, now, pingOk, r.emitters.Keys))
    ensures FailedSoFar(r, pingOk, r.emitters.Keys) == PingFailures(r, pingOk)
  {
  }

  /** The idle sweep keeps the maps in step and removes exactly the users idle
    * for strictly longer than IDLE_TIMEOUT. */
  lemma IdleSweepEffect(r: Registry, now: int, u: int)
    requires InStep(r)
    ensures var s := CleanedAll(r, Stale(r, now));
      InStep(s) &&
      (u in s.emitters <==> u in r.emitters && now - r.lastActivity[u] <= IDLE_TIMEOUT) &&
      (u in s.emitters ==> s.emitters[u] == r.emitters[u] && s.lastActivity[u] == r.lastActivity[u])
  {
  }

  class AlertHub {
    var emitters: map<int, Emitter>
    var connectionTimes: map<int, int>
    var lastActivity: map<int, int>
    var completed: set<Emitter>
    var delivered: seq<Alert>
    /** The identity the next emitter gets. */
    var nextEmitter: Emitter

    ghost predicate Valid()
      reads this
    {
      InStep(State()) &&
      (forall u :: u in emitters ==> emitters[u] < nextEmitter) &&
      (forall e :: e in completed ==> e < nextEmitter)
    }

    function State(): Registry
      reads this
    {
      Registry(emitters, connectionTimes, lastActivity, completed, delivered)
    }

    constructor()
      ensures Valid() && State() == Registry(map[], map[], map[], {}, [])
    {
      emitters, connectionTimes, lastActivity := map[], map[], map[];
      completed, delivered, nextEmitter := {}, [], 0;
    }

    /** cleanupUser. */
    method CleanupUser(u: int)
      requires Valid()
      modifies this
      ensures Valid() && State() == Cleaned(old(State()), u) && nextEmitter == old(nextEmitter)
    {
      if u in emitters {
        completed := completed + {emitters[u]};
      }
      emitters := emitters - {u};
      connectionTimes := connectionTimes - {u};
      lastActivity := lastActivity - {u};
    }

    /** createAlertConnection, with the outcome of the probe of an existing
      * emitter and of the first "connect" send of a new one as inputs. */
    method CreateAlertConnection(userId: Option<int>, now: int, probeOk: bool, connectOk: bool)
      returns (r: Result<Emitter, ConnectionError>)
      requires Valid()
      modifies this
      ensures Valid()
      ensures userId.None? || userId.value <= 0 ==>
        r == Err(InvalidUserId) && State() == old(State()) && nextEmitter == old(nextEmitter)
      ensures userId.Some? && userId.value > 0 && userId.value in old(emitters) && probeOk ==>
        var u := userId.value;
        r == Ok(old(emitters)[u]) && nextEmitter == old(nextEmitter) &&
        State() == old(State()).(lastActivity := old(lastActivity)[u := now])
      ensures userId.Some? && userId.value > 0 && !(userId.value in old(emitters) && probeOk) ==>
        var u := userId.value;
        var base := Cleaned(old(State()), u);
        var e := old(nextEmitter);
        r == Ok(e) && nextEmitter == e + 1 && e !in old(completed) &&
        State() == (if connectOk then Registered(base, u, e, now) else base.(completed := base.completed + {e}))
    {
      if userId.None? || userId.value <= 0 {
        return Err(InvalidUserId);
      }
      var u := userId.value;
      if u in emitters {
        if probeOk {
          assert lastActivity[u := now].Keys == lastActivity.Keys;
          lastActivity := lastActivity[u := now];
          return Ok(emitters[u]);
        }
        CleanupUser(u);
      }
      CleanedLocal(old(State()), u, u);
      assert State() == Cleaned(old(State()), u);
      var emitter := nextEmitter;
      nextEmitter := nextEmitter + 1;
      if connectOk {
        RegisteredInStep(State(), u, emitter, now);
        emitters := emitters[u := emitter];
        connectionTimes := connectionTimes[u := now];
        lastActivity := lastActivity[u := now];
      } else {
        completed := completed + {emitter};
      }
      return Ok(emitter);
    }

    /** sendKeepAliveToAll: ping every emitter; refresh lastActivity on
      * success, collect the failures, then clean them up. */
    method SendKeepAliveToAll(now: int, pingOk: Emitter -> bool)
      requires Valid()
      modifies this
      ensures Valid() && State() == KeptAlive(old(State()), now, pingOk) && nextEmitter == old(nextEmitter)
    {
      ghost var start := State();
      PingBounds(start, now, pingOk);
      var usersToRemove: set<int> := {};
      var pending := emitters.Keys;
      while pending != {}
        invariant pending <= start.emitters.Keys
        invariant State() == start.(lastActivity := lastActivity) && nextEmitter == old(nextEmitter)
        invariant usersToRemove == FailedSoFar(start, pingOk, start.emitters.Keys - pending)
        invariant lastActivity == PingedSoFar(start, now, pingOk, start.emitters.Keys - pending)
        decreases pending
      {
        Inhabited(pending);
        var u :| u in pending;
        PingStep(start, now, pingOk, start.emitters.Keys - pending, u);
        assert start.emitters.Keys - (pending - {u}) == (start.emitters.Keys - pending) + {u};
        if pingOk(emitters[u]) {
          lastActivity := lastActivity[u := now];
        } else {
          usersToRemove := usersToRemove + {u};
        }
        pending := pending - {u};
      }
      assert start.emitters.Keys - pending == start.emitters.Keys;
      assert lastActivity.Keys == start.lastActivity.Keys;
      CleanupAll(usersToRemove);
    }

    /** Cleans up each user of `users` in turn. */
    method CleanupAll(users: set<int>)
      requires Valid()
      modifies this
      ensures Valid() && State() == CleanedAll(old(State()), users) && nextEmitter == old(nextEmitter)
    {
      ghost var start := State();
      var todo := users;
      assert start == CleanedAll(start, {});
      while todo != {}
        invariant todo <= users
        invariant Valid() && nextEmitter == old(nextEmitter)
        invariant State() == CleanedAll(start, users - todo)
        decreases todo
      {
        Inhabited(todo);
        var u :| u in todo;
        CleanedAllStep(start, users - todo, u);
        CleanupUser(u);
        assert users - todo + {u} == users - (todo - {u});
        todo := todo - {u};
      }
      assert users - todo == users;
    }

    /** cleanupStaleConnections: collect the users idle for longer than
      * IDLE_TIMEOUT, then, for each that still has an emitter, send a
      * "timeout" event (its outcome does not matter) and clean it up. */
    method CleanupStaleConnections(now: int)
      requires Valid()
      modifies this
      ensures Valid() && State() == CleanedAll(old(State()), Stale(old(State()), now))
      ensures nextEmitter == old(nextEmitter)
    {
      var usersToRemove: set<int> := {};
      var pending := lastActivity.Keys;
      while pending != {}
        invariant pending <= lastActivity.Keys
        invariant State() == old(State()) && nextEmitter == old(nextEmitter)
        invariant usersToRemove == set u | u in lastActivity && u !in pending && now - lastActivity[u] > IDLE_TIMEOUT
        decreases pending
      {
        Inhabited(pending);
        var u :| u in pending;
        if now - lastActivity[u] > IDLE_TIMEOUT {
          usersToRemove := usersToRemove + {u};
        }
        pending := pending - {u};
      }
      assert usersToRemove == Stale(State(), now);
      CleanupAll(usersToRemove);
    }

    /** sendRiskBehaviorAlert (shaped like sendDrowsinessAlert): a null user or
      * a user without an emitter changes nothing; a successful send records
      * the alert and refreshes lastActivity; a failed send cleans the user up. */
    method SendRiskBehaviorAlert(userId: Option<int>, kind: RiskKind, detected: bool, batchId: Option<int>, now: int, sendOk: bool)
      requires Valid()
      modifies this
      ensures Valid() && nextEmitter == old(nextEmitter)
      ensures userId.None? ==> State() == old(State())
      ensures userId.Some? ==>
        State() == Sent(old(State()), userId.value, Alert(userId.value, kind, detected, batchId), now, sendOk)
    {
      if userId.None? {
        return;
      }
      var u := userId.value;
      if u in emitters {
        if sendOk {
          delivered := delivered + [Alert(u, kind, detected, batchId)];
          lastActivity := lastActivity[u := now];
        } else {
          CleanupUser(u);
        }
      }
    }

    /** removeConnection: send a "close" event (its outcome does not matter)
      * and clean the user up; a null or unknown user is ignored. */
    method RemoveConnection(userId: Option<int>)
      requires Valid()
      modifies this
      ensures Valid() && nextEmitter == old(nextEmitter)
      ensures userId.None? || userId.value !in old(emitters) ==> State() == old(State())
      ensures userId.Some? ==> State() == Cleaned(old(State()), userId.value)
    {
      if userId.None? {
        return;
      }
      CleanedLocal(State(), userId.value, userId.value);
      if userId.value in emitters {
        CleanupUser(userId.value);
      }
    }
  }
}
