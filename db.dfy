/**
 * `db.py`: the connection held for one request scope. `GetDb` opens it on first use from the
 * application's configuration and hands it out again afterwards; `CloseDb` empties the slot
 * and closes what it held. The ghost history records every connection the scope opened and
 * every configuration `connect` was called with.
 */
module Db {

  import opened Wrappers
  import opened Driver

  const ConfigNotFoundMessage: string := "Teradata configuration not found."

  /** `current_app.config.get("TERADATA_CONFIG", {})`: the configured settings, or none when the entry is missing. */
  function Settings(config: Option<Config>): (settings: Config)
    ensures config.None? ==> settings == map[]
    ensures config.Some? ==> settings == config.value
  {
    config.GetOr(map[])
  }

  class Scope {
    /** The application's `TERADATA_CONFIG` entry; `None` when it is not set. */
    const config: Option<Config>
    /** `g.db`: the connection of this scope, if one is open. */
    var slot: Option<Connection>
    /** Connections this scope opened, oldest first. */
    ghost var history: seq<Connection>
    /** The keyword arguments of every call to `connect`, successful or not. */
    ghost var attempts: seq<Config>

    ghost function Footprint(): set<Connection>
      reads this
    {
      set i | 0 <= i < |history| :: history[i]
    }

    /** The connection the slot holds, as a frame. */
    function Held(): set<Connection>
      reads this
    {
      if slot.Some? then {slot.value} else {}
    }

    /**
     * Every connection was opened with the configuration verbatim, each is distinct, the slot
     * holds the newest one and it is still open, and every older one was closed exactly once.
     */
    ghost predicate Valid()
      reads this, Footprint()
    {
      && (forall i :: 0 <= i < |history| ==> history[i].kwargs == Settings(config))
      && (forall i, j :: 0 <= i < j < |history| ==> history[i] != history[j])
      && (slot.Some? ==> |history| > 0 && slot.value == history[|history| - 1])
      && (forall i :: 0 <= i < |history| ==>
            history[i].closeCount == (if slot.Some? && i == |history| - 1 then 0 else 1))
      && |history| <= |attempts|
      && (forall i :: 0 <= i < |attempts| ==> attempts[i] == Settings(config))
    }

    /** A scope nothing has happened in yet. */
    ghost predicate Untouched()
      reads this
    {
      slot == None && history == [] && attempts == []
    }

    constructor (config: Option<Config>)
      ensures this.config == config && Valid() && Untouched()
    {
      this.config := config;
      slot := None;
      history := [];
      attempts := [];
    }

    /** The error `get_db` raises in the current state given the warehouse's login answer; `None` if it returns a connection. */
    function AcquireError(loginError: Option<string>): Option<Error>
      reads this
    {
      if slot.Some? then None
      else if Settings(config) == map[] then Some(ConfigNotFound(ConfigNotFoundMessage))
      else if loginError.Some? then Some(ConnectFailed(loginError.value))
      else None
    }

    /** What one `get_db` call with login answer `loginError` did to the scope when it returned `r`. */
    twostate predicate Acquired(loginError: Option<string>, new r: Result<Connection, Error>)
      reads this
    {
      && (old(slot).Some? ==>
            r == Success(old(slot).value) && slot == old(slot)
            && history == old(history) && attempts == old(attempts))
      && (old(slot).None? && Settings(config) == map[] ==>
            r == Failure(ConfigNotFound(ConfigNotFoundMessage)) && slot == None
            && history == old(history) && attempts == old(attempts))
      && (old(slot).None? && Settings(config) != map[] ==>
            attempts == old(attempts) + [Settings(config)]
            && (loginError.Some? ==>
                  r == Failure(ConnectFailed(loginError.value)) && slot == None && history == old(history))
            && (loginError.None? ==>
                  r.Success? && fresh(r.value) && slot == Some(r.value) && history == old(history) + [r.value]
                  && r.value.kwargs == Settings(config)))
      && (r.Failure? <==> old(AcquireError(loginError)).Some?)
      && (r.Failure? ==> r.error == old(AcquireError(loginError)).value)
    }

    /** `get_db()`. */
    method GetDb(loginError: Option<string>) returns (r: Result<Connection, Error>)
      requires Valid()
      modifies this
      ensures Valid() && Acquired(loginError, r)
      ensures old(slot).None? && r.Success? ==> r.value.executed == [] && r.value.openCursors == 0
    {
      if slot.None? {
        var settings := Settings(config);
        if settings == map[] {
          return Failure(ConfigNotFound(ConfigNotFoundMessage));
        }
        attempts := attempts + [settings];
        var c := Connect(settings, loginError);
        if c.Failure? {
          return c;
        }
        slot := Some(c.value);
        history := history + [c.value];
      }
      r := Success(slot.value);
    }

    /** `close_db()`: pop the slot and close what it held; nothing otherwise. */
    method CloseDb()
      requires Valid()
      modifies this, Held()`closeCount
      ensures Valid()
      ensures slot == None && history == old(history) && attempts == old(attempts)
      ensures old(slot).Some? ==> old(slot).value.closeCount == old(slot.value.closeCount) + 1 == 1
    {
      if slot.Some? {
        var c := slot.value;
        slot := None;
        c.Close();
      }
    }
  }

  /** Index of the first call whose connection attempt the warehouse accepts; `|logins|` if none is. */
  function FirstAccepted(logins: seq<Option<string>>): (k: nat)
    ensures k <= |logins|
    ensures forall j :: 0 <= j < k ==> logins[j].Some?
    ensures k < |logins| ==> logins[k].None?
  {
    if logins == [] then 0 else if logins[0].None? then 0 else 1 + FirstAccepted(logins[1..])
  }

  /**
   * One request scope from creation to teardown: `get_db` as often as the handlers call it
   * (`logins[k]` is the warehouse's answer to a connection attempt in the k-th call), then
   * `close_db`. At most one connection is opened and it is closed exactly once; every call
   * that succeeded returned that connection; calls fail until the first accepted attempt and
   * succeed from then on, and after it `connect` is not called again.
   */
  method Request(scope: Scope, logins: seq<Option<string>>) returns (results: seq<Result<Connection, Error>>)
    requires scope.Valid() && scope.Untouched()
    modifies scope
    ensures scope.Valid() && scope.slot == None
    ensures |results| == |logins|
    ensures |scope.history| <= 1
    ensures forall i :: 0 <= i < |scope.history| ==> scope.history[i].closeCount == 1
    ensures forall k :: 0 <= k < |results| && results[k].Success? ==>
              |scope.history| == 1 && results[k].value == scope.history[0]
    ensures Settings(scope.config) == map[] ==>
              scope.attempts == [] && scope.history == []
              && forall k :: 0 <= k < |results| ==> results[k] == Failure(ConfigNotFound(ConfigNotFoundMessage))
    ensures Settings(scope.config) != map[] ==>
              var first := FirstAccepted(logins);
              && (forall k :: 0 <= k < |results| ==> (results[k].Success? <==> first <= k))
              && (forall k :: 0 <= k < first ==> results[k] == Failure(ConnectFailed(logins[k].value)))
              && |scope.attempts| == (if first < |logins| then first + 1 else |logins|)
              && |scope.history| == (if first < |logins| then 1 else 0)
  {
    ghost var first := FirstAccepted(logins);
    results := [];
    var k := 0;
    while k < |logins|
      invariant 0 <= k <= |logins| && |results| == k
      invariant scope.Valid()
      invariant |scope.history| <= 1
      invariant forall i :: 0 <= i < |scope.history| ==> fresh(scope.history[i])
      invariant scope.slot.Some? <==> |scope.history| == 1
      invariant forall j :: 0 <= j < k && results[j].Success? ==>
                  |scope.history| == 1 && results[j].value == scope.history[0]
      invariant Settings(scope.config) == map[] ==>
                  scope.attempts == [] && scope.history == []
                  && forall j :: 0 <= j < k ==> results[j] == Failure(ConfigNotFound(ConfigNotFoundMessage))
      invariant Settings(scope.config) != map[] ==>
                  && (forall j :: 0 <= j < k ==> (results[j].Success? <==> first <= j))
                  && (forall j :: 0 <= j < k && j < first ==> results[j] == Failure(ConnectFailed(logins[j].value)))
                  && |scope.attempts| == (if k <= first then k else first + 1)
                  && (scope.slot.Some? <==> first < k)
    {
      var r := scope.GetDb(logins[k]);
      results := results + [r];
      k := k + 1;
    }
    scope.CloseDb();
  }
}
