/** Presence of one match's players (server/internal/matches/presence.go) against the durable
    offline timer (server/internal/matches/service.go). Each operation runs under the match's
    lock; a store call either commits or, failing, writes nothing. */
module Presence {
  import opened Common

  type ConnectionId = nat

  const CONNECTION_TIMEOUT := 45 * 1000

  datatype Key = Key(user: UserId, connection: ConnectionId)

  datatype Boundary = Boundary(user: UserId, online: bool)

  /** The in-memory connections, the boundaries announced so far, and the match's row: whether
      it is active and since when everybody has been offline. The last two fields are history:
      has anybody ever come online here, and has start-up recovery run. */
  datatype World = World(
    connections: map<Key, int>,
    announced: seq<Boundary>,
    active: bool,
    timer: Option<int>,
    joined: bool,
    recovered: bool)

  // ------------------------------------------------------------------------- reading

  predicate PlayerOnline(connections: map<Key, int>, user: UserId) {
    exists k :: k in connections && k.user == user
  }

  predicate Expired(w: World, candidates: set<Key>, now: int, k: Key) {
    k in candidates && k in w.connections && now - w.connections[k] > CONNECTION_TIMEOUT
  }

  function ExpiredKeys(w: World, candidates: set<Key>, now: int): set<Key> {
    set k | k in candidates && Expired(w, candidates, now, k)
  }

  /** The users of expired connections that have none left. */
  function GoneOffline(expired: set<Key>, rest: map<Key, int>): set<UserId> {
    set k | k in expired && !PlayerOnline(rest, k.user) :: k.user
  }

  function Farewells(users: seq<UserId>): (r: seq<Boundary>)
    ensures |r| == |users|
  {
    seq(|users|, i requires 0 <= i < |users| => Boundary(users[i], false))
  }

  // --------------------------------------------------------------------- the durable store

  /** The row's timer after SetPlayerOnline or SetPlayerOffline committed. */
  function StoreOnline(w: World): World {
    if w.active then w.(timer := None) else w
  }

  function StoreOffline(w: World, now: int): World {
    if w.active && w.timer.None? then w.(timer := Some(now)) else w
  }

  // ------------------------------------------------------------------------- operations

  function Connected(w: World, k: Key, now: int, stored: bool): World {
    if k in w.connections then w.(connections := w.connections[k := now])
    else if PlayerOnline(w.connections, k.user) then w.(connections := w.connections[k := now])
    else if !stored then w
    else StoreOnline(w).(connections := w.connections[k := now], announced := w.announced + [Boundary(k.user, true)], joined := true)
  }

  function Touched(w: World, k: Key, now: int): World {
    if k in w.connections then w.(connections := w.connections[k := now]) else w
  }

  function Disconnected(w: World, k: Key, now: int, stored: bool): World {
    if k !in w.connections then w
    else
      var rest := w.connections - {k};
      var gone := w.(connections := rest, announced := w.announced + [Boundary(k.user, false)]);
      if PlayerOnline(rest, k.user) then w.(connections := rest)
      else if rest != map[] then gone
      else if !stored then w
      else StoreOffline(gone, now)
  }

  function Swept(w: World, candidates: set<Key>, seen: int, now: int, stored: bool): World {
    var expired := ExpiredKeys(w, candidates, seen);
    var rest := w.connections - expired;
    var gone := w.(connections := rest, announced := w.announced + Farewells(Sorted(GoneOffline(expired, rest))));
    if expired == {} then w
    else if rest != map[] then gone
    else if !stored then w
    else StoreOffline(gone, now)
  }

  /** The match ends: its row keeps no timer. */
  function Ended(w: World): World {
    w.(active := false, timer := None)
  }

  /** The process restarts: connections are lost without a trace, then every active match
      without a timer gets one. */
  function Restarted(w: World, now: int): World {
    var bare := w.(connections := map[], announced := [], recovered := true);
    if w.active && w.timer.None? then bare.(timer := Some(now)) else bare
  }

  datatype Step =
    | Connect(key: Key, now: int, stored: bool)
    | Touch(key: Key, now: int)
    | Disconnect(key: Key, now: int, stored: bool)
    | Sweep(candidates: set<Key>, seen: int, now: int, stored: bool)
    | End
    | Restart(now: int)

  function Next(w: World, s: Step): World {
    match s
    case Connect(k, now, stored) => Connected(w, k, now, stored)
    case Touch(k, now) => Touched(w, k, now)
    case Disconnect(k, now, stored) => Disconnected(w, k, now, stored)
    case Sweep(candidates, seen, now, stored) => Swept(w, candidates, seen, now, stored)
    case End => Ended(w)
    case Restart(now) => Restarted(w, now)
  }

  function Run(w: World, steps: seq<Step>): World {
    if steps == [] then w else Next(Run(w, steps[..|steps| - 1]), steps[|steps| - 1])
  }

  function NewMatch(): World {
    World(map[], [], true, None, false, false)
  }

  // ------------------------------------------------------------------------ the service

  /** The presence service for one match, with the row it writes through its store. */
  class PresenceService {
    var connections: map<Key, int>
    var announced: seq<Boundary>
    var active: bool
    var timer: Option<int>
    ghost var joined: bool
    ghost var recovered: bool

    ghost function Value(): World
      reads this
    {
      World(connections, announced, active, timer, joined, recovered)
    }

    constructor ()
      ensures Value() == NewMatch()
    {
      connections, announced, active, timer, joined, recovered := map[], [], true, None, false, false;
    }

    static method PlayerOnlineLocked(connections: map<Key, int>, user: UserId) returns (online: bool)
      ensures online == PlayerOnline(connections, user)
    {
      var rest := connections.Keys;
      while rest != {}
        invariant rest <= connections.Keys
        invariant forall k :: k in connections && k !in rest ==> k.user != user
        decreases |rest|
      {
        var k :| k in rest;
        if k.user == user {
          return true;
        }
        rest := rest - {k};
      }
      return false;
    }

    /** `SetPlayerOffline`: starts the timer once, on an active match only. */
    method SetPlayerOffline(now: int)
      modifies this`timer
      ensures timer == if active && old(timer).None? then Some(now) else old(timer)
    {
      if active && timer.None? {
        timer := Some(now);
      }
    }

    method ConnectPlayer(key: Key, now: int, stored: bool) returns (ok: bool)
      modifies this
      ensures Value() == Connected(old(Value()), key, now, stored)
      ensures ok <==> key in connections
    {
      if key in connections {
        connections := connections[key := now];
        return true;
      }
      var wasOnline := PlayerOnlineLocked(connections, key.user);
      var before := connections;
      connections := connections[key := now];
      if wasOnline {
        return true;
      }
      if !stored {
        connections := connections - {key};
        assert connections == before;
        return false;
      }
      if active {
        timer := None;
      }
      announced := announced + [Boundary(key.user, true)];
      joined := true;
      return true;
    }

    method TouchConnection(key: Key, now: int) returns (known: bool)
      modifies this`connections
      ensures Value() == Touched(old(Value()), key, now) && known == (key in connections)
    {
      known := key in connections;
      if known {
        connections := connections[key := now];
      }
    }

    method DisconnectPlayer(key: Key, now: int, stored: bool) returns (ok: bool)
      modifies this
      ensures Value() == Disconnected(old(Value()), key, now, stored)
      ensures ok <==> key !in connections
    {
      if key !in connections {
        return true;
      }
      var lastSeen, before := connections[key], connections;
      connections := connections - {key};
      var online := PlayerOnlineLocked(connections, key.user);
      if online {
        return true;
      }
      if connections != map[] {
        announced := announced + [Boundary(key.user, false)];
        return true;
      }
      if !stored {
        connections := connections[key := lastSeen];
        assert connections == before;
        return false;
      }
      SetPlayerOffline(now);
      announced := announced + [Boundary(key.user, false)];
      return true;
    }

    method FindExpired(candidates: set<Key>, seen: int) returns (expired: set<Key>)
      ensures expired == ExpiredKeys(Value(), candidates, seen)
    {
      expired := {};
      var rest := candidates;
      while rest != {}
        invariant rest <= candidates
        invariant forall k :: k in expired <==> k in candidates && k !in rest && Expired(Value(), candidates, seen, k)
        decreases |rest|
      {
        var k :| k in rest;
        rest := rest - {k};
        if k in connections && seen - connections[k] > CONNECTION_TIMEOUT {
          expired := expired + {k};
        }
      }
    }

    method FindOffline(expired: set<Key>) returns (offline: set<UserId>)
      ensures offline == GoneOffline(expired, connections)
    {
      hide PlayerOnline;
      offline := {};
      var keys := expired;
      while keys != {}
        invariant keys <= expired
        invariant offline == GoneOffline(expired - keys, connections)
        decreases |keys|
      {
        var k :| k in keys;
        assert expired - (keys - {k}) == (expired - keys) + {k};
        keys := keys - {k};
        var online := PlayerOnlineLocked(connections, k.user);
        if !online {
          offline := offline + {k.user};
        }
      }
      assert expired - keys == expired;
    }

    /** Removes what has expired, and puts it back if the store refuses the boundary. */
    method SweepMatch(candidates: set<Key>, seen: int, now: int, stored: bool) returns (ok: bool)
      modifies this
      ensures Value() == Swept(old(Value()), candidates, seen, now, stored)
      ensures ok <==> stored || connections != old(connections) || ExpiredKeys(old(Value()), candidates, seen) == {}
    {
      hide GoneOffline, Farewells, Sorted;
      var expired := FindExpired(candidates, seen);
      var before := connections;
      ExpiredAreConnected(Value(), candidates, seen);
      hide ExpiredKeys;
      connections := connections - expired;
      if expired == {} {
        assert connections == before;
        return true;
      }
      var offline := FindOffline(expired);
      var offlineUsers := Sorted(offline);
      if connections == map[] {
        EverybodyIsGone(expired, connections);
        // The store is told in the name of the first of them.
        var first := offlineUsers[0];
        if !stored {
          connections := connections + map k | k in expired :: before[k];
          assert connections == before;
          return false;
        }
        SetPlayerOffline(now);
      }
      announced := announced + Farewells(offlineUsers);
      return true;
    }
  }

  lemma ExpiredAreConnected(w: World, candidates: set<Key>, seen: int)
    ensures forall k :: k in ExpiredKeys(w, candidates, seen) ==> k in w.connections
  {
  }

  /** `offlineUserIDs[0]` is in range whenever the sweep reads it. */
  lemma EverybodyIsGone(expired: set<Key>, rest: map<Key, int>)
    requires expired != {} && rest == map[]
    ensures |Sorted(GoneOffline(expired, rest))| > 0
  {
    var k :| k in expired;
    assert k.user in GoneOffline(expired, rest);
  }

  // --------------------------------------------------------------------- alternating boundaries

  /** The last announced boundary of a user; nobody is online before the first. */
  function LastOf(announced: seq<Boundary>, user: UserId): bool {
    if announced == [] then false
    else
      var last := announced[|announced| - 1];
      if last.user == user then last.online else LastOf(announced[..|announced| - 1], user)
  }

  /** Every boundary changes its user's state. */
  predicate Alternates(announced: seq<Boundary>) {
    announced == []
    || (var last := announced[|announced| - 1];
        Alternates(announced[..|announced| - 1]) && last.online != LastOf(announced[..|announced| - 1], last.user))
  }

  ghost predicate Sound(w: World) {
    && Alternates(w.announced)
    && (forall u :: LastOf(w.announced, u) == PlayerOnline(w.connections, u))
    && (w.active && w.connections != map[] ==> w.timer.None?)
    && (w.active && w.connections == map[] ==> (w.timer.Some? <==> w.joined || w.recovered))
    && (!w.active ==> w.timer.None?)
    && (w.connections != map[] ==> w.joined)
  }

  lemma {:induction false} OneMoreBoundary(announced: seq<Boundary>, b: Boundary)
    requires Alternates(announced) && LastOf(announced, b.user) != b.online
    ensures Alternates(announced + [b])
    ensures forall u :: LastOf(announced + [b], u) == if u == b.user then b.online else LastOf(announced, u)
  {
    assert (announced + [b])[..|announced|] == announced;
  }

  lemma {:induction false} FarewellsAlternate(announced: seq<Boundary>, ids: set<UserId>)
    requires Alternates(announced) && forall u :: u in ids ==> LastOf(announced, u)
    ensures Alternates(announced + Farewells(Sorted(ids)))
    ensures forall u :: LastOf(announced + Farewells(Sorted(ids)), u) == if u in ids then false else LastOf(announced, u)
    decreases |ids|
  {
    hide Farewells, Sorted, Alternates, LastOf;
    if ids == {} {
      assert Sorted(ids) == [] && announced + Farewells(Sorted(ids)) == announced;
    } else {
      var u := Least(ids);
      FirstFarewell(ids);
      OneMoreBoundary(announced, Boundary(u, false));
      FarewellsAlternate(announced + [Boundary(u, false)], ids - {u});
      assert announced + Farewells(Sorted(ids)) == (announced + [Boundary(u, false)]) + Farewells(Sorted(ids - {u}));
    }
  }

  lemma FirstFarewell(ids: set<UserId>)
    requires ids != {}
    ensures Farewells(Sorted(ids)) == [Boundary(Least(ids), false)] + Farewells(Sorted(ids - {Least(ids)}))
  {
    hide Least, Sorted;
    SortedStep(ids);
    FarewellsFrom(Least(ids), Sorted(ids - {Least(ids)}));
  }

  lemma {:induction false} FarewellsFrom(first: UserId, rest: seq<UserId>)
    ensures Farewells([first] + rest) == [Boundary(first, false)] + Farewells(rest)
  {
  }

  lemma OnlineAfterAdding(connections: map<Key, int>, k: Key, now: int)
    ensures forall u :: PlayerOnline(connections[k := now], u) <==> PlayerOnline(connections, u) || u == k.user
  {
    assert k in connections[k := now] && PlayerOnline(connections[k := now], k.user);
    forall u | PlayerOnline(connections, u) ensures PlayerOnline(connections[k := now], u) {
      var j :| j in connections && j.user == u;
      assert j in connections[k := now];
    }
    forall u | PlayerOnline(connections[k := now], u) && u != k.user ensures PlayerOnline(connections, u) {
      var j :| j in connections[k := now] && j.user == u;
      assert j in connections;
    }
  }

  lemma OnlineAfterRemoving(connections: map<Key, int>, gone: set<Key>, u: UserId)
    requires forall k :: k in gone ==> k in connections
    ensures PlayerOnline(connections, u) <==> PlayerOnline(connections - gone, u) || exists k :: k in gone && k.user == u
  {
    if j :| j in connections && j.user == u && j !in gone {
      assert j in connections - gone;
    }
  }

  lemma ConnectKeepsSound(w: World, k: Key, now: int, stored: bool)
    requires Sound(w)
    ensures Sound(Connected(w, k, now, stored))
  {
    hide Alternates, LastOf;
    OnlineAfterAdding(w.connections, k, now);
    assert w.connections[k := now] != map[] by {
      assert k in w.connections[k := now];
    }
    if k in w.connections {
      assert PlayerOnline(w.connections, k.user);
      assert w.connections != map[];
    } else if PlayerOnline(w.connections, k.user) {
      assert w.connections != map[];
    } else if stored {
      OneMoreBoundary(w.announced, Boundary(k.user, true));
    }
    hide PlayerOnline;
  }

  lemma DisconnectKeepsSound(w: World, k: Key, now: int, stored: bool)
    requires Sound(w)
    ensures Sound(Disconnected(w, k, now, stored))
  {
    hide Alternates, LastOf;
    if k in w.connections {
      var rest := w.connections - {k};
      assert w.connections != map[];
      assert PlayerOnline(w.connections, k.user);
      forall u ensures PlayerOnline(w.connections, u) <==> PlayerOnline(rest, u) || u == k.user {
        OnlineAfterRemoving(w.connections, {k}, u);
      }
      if !PlayerOnline(rest, k.user) {
        OneMoreBoundary(w.announced, Boundary(k.user, false));
      } else {
        assert rest != map[];
      }
    }
    hide PlayerOnline;
  }

  lemma SweepKeepsSound(w: World, candidates: set<Key>, seen: int, now: int, stored: bool)
    requires Sound(w)
    ensures Sound(Swept(w, candidates, seen, now, stored))
  {
    hide Alternates, LastOf, Farewells, Sorted;
    var expired := ExpiredKeys(w, candidates, seen);
    if expired != {} {
      var rest := w.connections - expired;
      var gone := GoneOffline(expired, rest);
      assert w.connections != map[] by {
        var k :| k in expired;
        assert k in w.connections;
      }
      forall u ensures PlayerOnline(rest, u) <==> PlayerOnline(w.connections, u) && u !in gone {
        OnlineAfterRemoving(w.connections, expired, u);
        if k :| k in expired && k.user == u && !PlayerOnline(rest, u) {
          assert u in gone;
        }
      }
      forall u | u in gone ensures LastOf(w.announced, u) {
        var k :| k in expired && k.user == u;
        assert PlayerOnline(w.connections, u);
      }
      FarewellsAlternate(w.announced, gone);
    }
    hide PlayerOnline, ExpiredKeys, GoneOffline;
  }

  lemma TouchKeepsSound(w: World, k: Key, now: int)
    requires Sound(w)
    ensures Sound(Touched(w, k, now))
  {
    hide Alternates, LastOf;
    OnlineAfterAdding(w.connections, k, now);
    if k in w.connections {
      assert PlayerOnline(w.connections, k.user);
      assert k in w.connections[k := now];
    }
    hide PlayerOnline;
  }

  lemma {:induction false} RunKeepsSound(w: World, steps: seq<Step>)
    requires Sound(w)
    ensures Sound(Run(w, steps))
  {
    hide Sound, Connected, Touched, Disconnected, Swept, Ended, Restarted;
    if steps != [] {
      var before := Run(w, steps[..|steps| - 1]);
      RunKeepsSound(w, steps[..|steps| - 1]);
      match steps[|steps| - 1]
      case Connect(k, now, stored) => ConnectKeepsSound(before, k, now, stored);
      case Touch(k, now) => TouchKeepsSound(before, k, now);
      case Disconnect(k, now, stored) => DisconnectKeepsSound(before, k, now, stored);
      case Sweep(candidates, seen, now, stored) => SweepKeepsSound(before, candidates, seen, now, stored);
      case End => EndKeepsSound(before);
      case Restart(now) => RestartKeepsSound(before, now);
    }
  }

  lemma EndKeepsSound(w: World)
    requires Sound(w)
    ensures Sound(Ended(w))
  {
    hide Alternates, LastOf, PlayerOnline;
  }

  lemma RestartKeepsSound(w: World, now: int)
    requires Sound(w)
    ensures Sound(Restarted(w, now))
  {
  }

  lemma NewMatchIsSound()
    ensures Sound(NewMatch())
  {
  }

  /** Over every run of a match: each player's announced boundaries alternate and start with
      online, and the last one tells whether the player is connected; a live connection means
      that an active match has no offline timer; and while nobody is connected an active match
      has one exactly when somebody has ever come online or start-up recovery has run. */
  lemma PresenceIsFaithful(steps: seq<Step>)
    ensures var w := Run(NewMatch(), steps);
      && Alternates(w.announced) && (forall u :: LastOf(w.announced, u) == PlayerOnline(w.connections, u))
      && (w.active && w.connections != map[] ==> w.timer.None?)
      && (w.active && w.connections == map[] ==> (w.timer.Some? <==> w.joined || w.recovered))
  {
    NewMatchIsSound();
    RunKeepsSound(NewMatch(), steps);
    hide Run, Alternates, LastOf, PlayerOnline;
  }

  /** Losing the last connection leaves an active match's timer running. */
  lemma LastConnectionStartsTheTimer(w: World, s: Step)
    requires Sound(w) && w.active && w.connections != map[] && Next(w, s).connections == map[] && (s.Disconnect? || s.Sweep?)
    ensures Next(w, s).timer == Some(s.now)
  {
    hide Alternates, LastOf, ExpiredKeys, Farewells, Sorted;
  }
}
