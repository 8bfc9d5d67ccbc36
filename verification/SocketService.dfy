/** The connection index and the limiter as the service keeps them, updated in place. */
module SocketService {
  import opened Prelude
  import opened RateLimit
  import opened SocketSpec
  import Sums

  class WebsocketService {
    var clients: map<string, User>
    var userSocketMap: map<string, set<string>>
    var rateLimits: map<string, Entry>

    function Abs(): State
      reads this
    {
      State(clients, userSocketMap, rateLimits)
    }

    constructor ()
      ensures Abs() == IDLE
    {
      clients, userSocketMap, rateLimits := map[], map[], map[];
    }

    method RegisterClient(socket: string, user: Option<User>)
      modifies this
      ensures Abs() == Registered(old(Abs()), socket, user)
      ensures old(Consistent(Abs())) ==> (Consistent(Abs()) <==> SameOwner(old(Abs()), socket, user))
    {
      if Consistent(Abs()) { RegisterConsistentIff(Abs(), socket, user); }
      if user.None? { return; }
      clients := clients[socket := user.value];
      if user.value.id !in userSocketMap {
        userSocketMap := userSocketMap[user.value.id := {}];
      }
      userSocketMap := userSocketMap[user.value.id := userSocketMap[user.value.id] + {socket}];
    }

    method RemoveClient(socket: string)
      modifies this
      ensures Abs() == Removed(old(Abs()), socket)
      ensures old(Consistent(Abs())) ==> Consistent(Abs())
    {
      if Consistent(Abs()) { RemoveConsistent(Abs(), socket); }
      if socket !in clients { return; }
      var client := clients[socket];
      if client.id in userSocketMap {
        userSocketMap := userSocketMap[client.id := userSocketMap[client.id] - {socket}];
        if |userSocketMap[client.id]| == 0 {
          userSocketMap := userSocketMap - {client.id};
        }
      }
      rateLimits := rateLimits - {socket};
      clients := clients - {socket};
    }

    method GetConnectedUserCount() returns (n: nat)
      ensures n == |userSocketMap|
      ensures Consistent(Abs()) ==> n == |ConnectedUsers(Abs())|
    {
      n := |userSocketMap|;
      if Consistent(Abs()) { UsersCounted(Abs()); }
    }

    method GetConnectionCount() returns (n: nat)
      ensures n == |clients|
      ensures Consistent(Abs()) ==> n == Sums.Sum(SocketCounts(Abs()))
    {
      n := |clients|;
      if Consistent(Abs()) { SocketsCounted(Abs()); }
    }

    method CheckRateLimit(socket: string, now: int) returns (accepted: bool)
      modifies this
      ensures Abs() == Messaged(old(Abs()), socket, now)
      ensures accepted == Allows(EntryOf(old(Abs()), socket), now)
    {
      if socket !in rateLimits || now - rateLimits[socket].windowStart > WINDOW_MS {
        rateLimits := rateLimits[socket := Entry(1, now)];
        return true;
      }
      var entry := rateLimits[socket];
      entry := entry.(count := entry.count + 1);
      rateLimits := rateLimits[socket := entry];
      return entry.count <= MAX_MESSAGES;
    }
  }
}
