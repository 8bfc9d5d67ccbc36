/** Connected sockets, indexed both ways, with a rate limit entry for each. */
module SocketSpec {
  import opened Prelude
  import opened RateLimit
  import opened Sums

  datatype User = User(id: string, stellarAddress: string, role: string)

  datatype State = State(clients: map<string, User>, userSockets: map<string, set<string>>, limits: map<string, Entry>)

  const IDLE := State(map[], map[], map[])

  function SocketsOf(s: State, user: string): set<string> {
    if user in s.userSockets then s.userSockets[user] else {}
  }

  /** A socket without a user is ignored. */
  function Registered(s: State, socket: string, user: Option<User>): State {
    if user.None? then s
    else s.(clients := s.clients[socket := user.value],
            userSockets := s.userSockets[user.value.id := SocketsOf(s, user.value.id) + {socket}])
  }

  function Removed(s: State, socket: string): State {
    if socket !in s.clients then s
    else
      var user := s.clients[socket].id;
      var left := SocketsOf(s, user) - {socket};
      State(s.clients - {socket},
            if left == {} then s.userSockets - {user} else s.userSockets[user := left],
            s.limits - {socket})
  }

  function EntryOf(s: State, socket: string): Option<Entry> {
    if socket in s.limits then Some(s.limits[socket]) else None
  }

  function Messaged(s: State, socket: string, now: int): State {
    s.(limits := s.limits[socket := NextEntry(EntryOf(s, socket), now)])
  }

  datatype Op =
    | Connect(socket: string, user: Option<User>)
    | Disconnect(socket: string)
    | Message(socket: string, now: int)

  function Next(s: State, op: Op): State {
    match op
    case Connect(socket, user) => Registered(s, socket, user)
    case Disconnect(socket) => Removed(s, socket)
    case Message(socket, now) => Messaged(s, socket, now)
  }

  function Run(s: State, ops: seq<Op>): State {
    if ops == [] then s else Next(Run(s, ops[..|ops| - 1]), ops[|ops| - 1])
  }

  // ----- the index -----

  predicate Owns(s: State, user: string, socket: string) {
    socket in s.clients && s.clients[socket].id == user
  }

  /** Each direction of the index is the inverse of the other, with no user left without sockets. */
  ghost predicate Consistent(s: State) {
    && (forall u :: u in s.userSockets ==> s.userSockets[u] != {})
    && (forall u, k :: k in SocketsOf(s, u) <==> Owns(s, u, k))
  }

  /** The socket is new, or comes back under the same user. */
  predicate SameOwner(s: State, socket: string, user: Option<User>) {
    user.Some? && socket in s.clients ==> s.clients[socket].id == user.value.id
  }

  /** Registering keeps the index consistent exactly when the socket does not change its user. */
  lemma {:induction false} RegisterConsistentIff(s: State, socket: string, user: Option<User>)
    requires Consistent(s)
    ensures Consistent(Registered(s, socket, user)) <==> SameOwner(s, socket, user)
  {
    if user.Some? {
      var s', id := Registered(s, socket, user), user.value.id;
      assert forall u :: SocketsOf(s', u) == if u == id then SocketsOf(s, u) + {socket} else SocketsOf(s, u);
      if SameOwner(s, socket, user) {
        forall u, k ensures k in SocketsOf(s', u) <==> Owns(s', u, k) {
          assert k in SocketsOf(s, u) <==> Owns(s, u, k);
        }
      } else {
        var owner := s.clients[socket].id;
        assert Owns(s, owner, socket) && socket in SocketsOf(s', owner) && !Owns(s', owner, socket);
      }
    }
  }

  lemma {:induction false} RemoveConsistent(s: State, socket: string)
    requires Consistent(s)
    ensures Consistent(Removed(s, socket))
    ensures forall u :: SocketsOf(Removed(s, socket), u) == SocketsOf(s, u) - {socket}
  {
    var s' := Removed(s, socket);
    forall u ensures SocketsOf(s', u) == SocketsOf(s, u) - {socket} {
      assert socket in SocketsOf(s, u) <==> Owns(s, u, socket);
    }
    forall u, k ensures k in SocketsOf(s', u) <==> Owns(s', u, k) {
      assert k in SocketsOf(s, u) <==> Owns(s, u, k);
    }
  }

  lemma StepConsistent(s: State, op: Op)
    requires Consistent(s) && (op.Connect? ==> SameOwner(s, op.socket, op.user))
    ensures Consistent(Next(s, op))
  {
    match op
    case Connect(socket, user) => RegisterConsistentIff(s, socket, user);
    case Disconnect(socket) => RemoveConsistent(s, socket);
    case Message(socket, now) =>
      forall u, k ensures k in SocketsOf(Next(s, op), u) <==> Owns(Next(s, op), u, k) {
        assert k in SocketsOf(s, u) <==> Owns(s, u, k);
      }
  }

  /** Every registration of the run is of a new socket or by its owner, as with ids never reused. */
  predicate OwnersKept(s: State, ops: seq<Op>) {
    ops == [] ||
    (OwnersKept(s, ops[..|ops| - 1])
     && (ops[|ops| - 1].Connect? ==> SameOwner(Run(s, ops[..|ops| - 1]), ops[|ops| - 1].socket, ops[|ops| - 1].user)))
  }

  function ConnectedUsers(s: State): set<string> {
    set k | k in s.clients :: s.clients[k].id
  }

  /** In every such run the index is consistent, and it holds as many users as there are distinct connected ones. */
  lemma {:induction false} ConsistentRun(ops: seq<Op>)
    requires OwnersKept(IDLE, ops)
    ensures var s := Run(IDLE, ops);
      && Consistent(s)
      && s.userSockets.Keys == ConnectedUsers(s) && |s.userSockets| == |ConnectedUsers(s)|
  {
    if ops == [] {
    } else {
      var init, op := ops[..|ops| - 1], ops[|ops| - 1];
      ConsistentRun(init);
      StepConsistent(Run(IDLE, init), op);
    }
    UsersCounted(Run(IDLE, ops));
  }

  lemma UsersCounted(s: State)
    requires Consistent(s)
    ensures s.userSockets.Keys == ConnectedUsers(s) && |s.userSockets| == |ConnectedUsers(s)|
  {
    forall u | u in s.userSockets ensures u in ConnectedUsers(s) {
      var k :| k in s.userSockets[u];
      assert k in SocketsOf(s, u) && Owns(s, u, k);
    }
    forall u | u in ConnectedUsers(s) ensures u in s.userSockets {
      var k :| k in s.clients && s.clients[k].id == u;
      assert Owns(s, u, k) && k in SocketsOf(s, u);
    }
    assert |s.userSockets| == |s.userSockets.Keys|;
  }

  /** How many sockets each indexed user has. */
  ghost function SocketCounts(s: State): map<string, int> {
    map u | u in s.userSockets :: |s.userSockets[u]| as int
  }

  lemma {:induction false} OneSocketLess(s: State, socket: string)
    requires Consistent(s) && socket in s.clients
    ensures Sum(SocketCounts(Removed(s, socket))) == Sum(SocketCounts(s)) - 1
  {
    var user, s' := s.clients[socket].id, Removed(s, socket);
    assert Owns(s, user, socket) && socket in SocketsOf(s, user);
    RemoveConsistent(s, socket);
    assert |SocketsOf(s, user)| == |SocketsOf(s, user) - {socket}| + 1;
    SumChange(SocketCounts(s), SocketCounts(s'), user);
  }

  /** In a consistent index every connection is counted at exactly one user. */
  lemma {:induction false} SocketsCounted(s: State)
    requires Consistent(s)
    ensures Sum(SocketCounts(s)) == |s.clients|
    decreases |s.clients|
  {
    if s.clients == map[] {
      forall u ensures SocketsOf(s, u) == {} {
        assert forall k :: !Owns(s, u, k);
      }
      assert forall u :: u in s.userSockets ==> SocketsOf(s, u) != {};
      assert SocketCounts(s) == map[];
    } else {
      var socket :| socket in s.clients;
      OneSocketLess(s, socket);
      RemoveConsistent(s, socket);
      assert Removed(s, socket).clients.Keys == s.clients.Keys - {socket};
      assert |s.clients.Keys| == |s.clients.Keys - {socket}| + 1;
      SocketsCounted(Removed(s, socket));
    }
  }

  /**
   A socket that changes its user leaves the first one counted as connected after everybody
   has gone. The service allows such calls; the gateway registers a socket once, as it
   connects.
   */
  lemma {:induction false} ChangedOwnerLeaks(socket: string, a: User, b: User)
    requires a.id != b.id
    ensures var s := Run(IDLE, [Connect(socket, Some(a)), Connect(socket, Some(b)), Disconnect(socket)]);
      s.clients == map[] && s.userSockets == map[a.id := {socket}]
  {
    var ops := [Connect(socket, Some(a)), Connect(socket, Some(b)), Disconnect(socket)];
    assert ops[..2] == [Connect(socket, Some(a)), Connect(socket, Some(b))];
    assert ops[..2][..1] == [Connect(socket, Some(a))];
    var s1 := Registered(IDLE, socket, Some(a));
    assert Run(IDLE, ops[..2][..1]) == s1 by { assert ops[..2][..1][..0] == []; }
    var s2 := Registered(s1, socket, Some(b));
    assert Run(IDLE, ops[..2]) == s2 by { assert ops[..2][1] == Connect(socket, Some(b)); }
    assert SocketsOf(IDLE, a.id) + {socket} == {socket} && SocketsOf(s1, b.id) + {socket} == {socket};
    assert s2.userSockets == map[a.id := {socket}, b.id := {socket}];
    assert SocketsOf(s2, b.id) - {socket} == {};
    assert Removed(s2, socket).clients == map[];
  }

  // ----- each socket has its own limiter -----

  /** The times of a socket's calls since it was last disconnected. */
  function CallsOf(socket: string, ops: seq<Op>): seq<int> {
    if ops == [] then [] else
      var init, op := ops[..|ops| - 1], ops[|ops| - 1];
      if op.Message? && op.socket == socket then CallsOf(socket, init) + [op.now]
      else if op.Disconnect? && op.socket == socket && socket in Run(IDLE, init).clients then []
      else CallsOf(socket, init)
  }

  /** The entry of a socket depends on its own calls only: the limiter of RateLimit runs for each socket alone. */
  lemma {:induction false} LimitersAreSeparate(socket: string, ops: seq<Op>)
    ensures EntryOf(Run(IDLE, ops), socket) == EntryAfter(CallsOf(socket, ops))
  {
    if ops == [] {
    } else {
      var init, op := ops[..|ops| - 1], ops[|ops| - 1];
      LimitersAreSeparate(socket, init);
      if op.Message? && op.socket == socket {
        var before := CallsOf(socket, init);
        assert CallsOf(socket, ops)[..|before|] == before;
      }
    }
  }

  predicate ClockForward(ops: seq<Op>) {
    forall i, j :: 0 <= i <= j < |ops| && ops[i].Message? && ops[j].Message? ==> ops[i].now <= ops[j].now
  }

  lemma {:induction false} CallsAreOrdered(socket: string, ops: seq<Op>)
    requires ClockForward(ops)
    ensures NonDecreasing(CallsOf(socket, ops))
    ensures forall t :: t in CallsOf(socket, ops) ==> exists i :: 0 <= i < |ops| && ops[i] == Message(socket, t)
  {
    if ops == [] {
    } else {
      var init, op := ops[..|ops| - 1], ops[|ops| - 1];
      assert forall i :: 0 <= i < |init| ==> init[i] == ops[i];
      CallsAreOrdered(socket, init);
      var before := CallsOf(socket, init);
      forall t | t in before ensures t in CallsOf(socket, ops) || !(op.Message? && op.socket == socket)
        ensures exists i :: 0 <= i < |ops| && ops[i] == Message(socket, t) {
        var i :| 0 <= i < |init| && init[i] == Message(socket, t);
        assert ops[i] == Message(socket, t);
      }
      if op.Message? && op.socket == socket {
        forall k | 0 <= k < |before| ensures before[k] <= op.now {
          assert before[k] in before;
          var i :| 0 <= i < |init| && init[i] == Message(socket, before[k]);
          assert ops[i].now <= op.now;
        }
      }
    }
  }

  /** In any run of the service with a forward clock, no socket gets more than 119 messages through in 60000 ms. */
  lemma {:induction false} ServiceSpanBound(socket: string, ops: seq<Op>, a: nat, b: nat)
    requires ClockForward(ops)
    requires var times := CallsOf(socket, ops); a < b <= |times| && times[b - 1] - times[a] <= 60_000
    ensures AcceptedCount(CallsOf(socket, ops), a, b) <= 119
  {
    CallsAreOrdered(socket, ops);
    SpanBound(CallsOf(socket, ops), a, b);
  }
}
