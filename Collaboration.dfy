/**
 * The collaboration hook (apps/web/src/hooks/useCollaboration.ts): the list
 * of users in the session and their cursor positions, updated by three
 * socket events, and the subscription of those handlers to the shared
 * socket wrapper of WebSocket.dfy.
 */
module Collaboration {
  import opened Wrappers
  import opened WebSocket

  datatype CursorPosition = CursorPosition(line: int, column: int)

  datatype CollabUser = CollabUser(id: string, name: string, color: Option<string>)

  const UserJoinedEvent := "user:joined"
  const UserLeftEvent := "user:left"
  const CursorUpdateEvent := "cursor:update"

  /** `users.filter((u) => u.id !== userId)`. */
  function WithoutUser(users: seq<CollabUser>, userId: string): (r: seq<CollabUser>)
    ensures forall u :: u in r <==> u in users && u.id != userId
    ensures |r| <= |users|
  {
    if |users| == 0 then []
    else if users[0].id == userId then WithoutUser(users[1..], userId)
    else [users[0]] + WithoutUser(users[1..], userId)
  }

  /** The users who stay keep their relative order. */
  lemma {:induction false} WithoutUserConcat(a: seq<CollabUser>, b: seq<CollabUser>, userId: string)
    ensures WithoutUser(a + b, userId) == WithoutUser(a, userId) + WithoutUser(b, userId)
    decreases |a|
  {
    if |a| == 0 {
      assert a + b == b;
    } else {
      assert (a + b)[1..] == a[1..] + b;
      WithoutUserConcat(a[1..], b, userId);
    }
  }

  /** A user whose id nobody listed has, joining and then leaving with no event between, leaves the list as it was. */
  lemma JoinThenLeave(users: seq<CollabUser>, u: CollabUser)
    requires forall v :: v in users ==> v.id != u.id
    ensures WithoutUser(users + [u], u.id) == users
  {
    WithoutUserConcat(users, [u], u.id);
    WithoutUserKeepsAll(users, u.id);
    assert WithoutUser([u], u.id) == [];
  }

  /** Filtering out an id nobody has changes nothing. */
  lemma {:induction false} WithoutUserKeepsAll(users: seq<CollabUser>, userId: string)
    requires forall v :: v in users ==> v.id != userId
    ensures WithoutUser(users, userId) == users
    decreases |users|
  {
    if |users| > 0 {
      assert users[0] in users;
      WithoutUserKeepsAll(users[1..], userId);
      assert [users[0]] + users[1..] == users;
    }
  }

  /** The three unsubscribe functions one run of the effect holds. */
  datatype Subscriptions = Subscriptions(join: Unsubscribe, leave: Unsubscribe, cursor: Unsubscribe)

  /**
   * The listeners one run of the effect registers.  Each run creates three
   * new callbacks, so `effect` numbers the run and the callbacks of
   * different runs are different functions.
   */
  function JoinListener(effect: nat): Listener { Listener(UserJoinedEvent, 3 * effect) }
  function LeaveListener(effect: nat): Listener { Listener(UserLeftEvent, 3 * effect + 1) }
  function CursorListener(effect: nat): Listener { Listener(CursorUpdateEvent, 3 * effect + 2) }

  class Collaboration {
    var users: seq<CollabUser>
    var cursors: map<string, CursorPosition>

    constructor ()
      ensures users == [] && cursors == map[]
    {
      users := [];
      cursors := map[];
    }

    /** `user:joined`: the user is appended, even when a user with that id is already listed. */
    method OnUserJoined(user: CollabUser)
      modifies this
      ensures users == old(users) + [user]
      ensures cursors == old(cursors)
    {
      users := users + [user];
    }

    /**
     * `user:left`: every entry with that id is removed, the others keep their
     * order; the user's cursor stays in the map.
     */
    method OnUserLeft(userId: string)
      modifies this
      ensures users == WithoutUser(old(users), userId)
      ensures forall u :: u in users ==> u.id != userId
      ensures cursors == old(cursors)
    {
      users := WithoutUser(users, userId);
    }

    /** `cursor:update`: that user's position is set, the others are kept. */
    method OnCursorUpdate(userId: string, position: CursorPosition)
      modifies this
      ensures cursors == old(cursors)[userId := position]
      ensures users == old(users)
    {
      cursors := cursors[userId := position];
    }

    /**
     * The effect body: the three handlers are registered on the socket the
     * wrapper holds now, and on nothing when it holds none.
     */
    method Subscribe(ws: WebSocketClient, effect: nat) returns (subs: Subscriptions)
      modifies ws.socket
      ensures subs.join == Unsubscribe(UserJoinedEvent, JoinListener(effect).callback)
      ensures subs.leave == Unsubscribe(UserLeftEvent, LeaveListener(effect).callback)
      ensures subs.cursor == Unsubscribe(CursorUpdateEvent, CursorListener(effect).callback)
      ensures ws.socket != null ==> (
        ws.socket.listeners == old(ws.socket.listeners)
          + multiset{JoinListener(effect)} + multiset{LeaveListener(effect)} + multiset{CursorListener(effect)})
    {
      var j := ws.On(UserJoinedEvent, 3 * effect);
      var l := ws.On(UserLeftEvent, 3 * effect + 1);
      var c := ws.On(CursorUpdateEvent, 3 * effect + 2);
      subs := Subscriptions(j, l, c);
    }

    /** The effect's cleanup: the three unsubscribe functions, in order, on the wrapper's current socket. */
    method Cleanup(ws: WebSocketClient, subs: Subscriptions)
      modifies ws.socket
      ensures ws.socket != null ==> (
        ws.socket.listeners == old(ws.socket.listeners)
          - multiset{Listener(subs.join.event, subs.join.callback)}
          - multiset{Listener(subs.leave.event, subs.leave.callback)}
          - multiset{Listener(subs.cursor.event, subs.cursor.callback)})
    {
      ws.Off(subs.join);
      ws.Off(subs.leave);
      ws.Off(subs.cursor);
    }

    /**
     * One run of the effect and then its cleanup, while the wrapper holds the
     * same socket, gives that socket back exactly the listeners it had: no
     * handler of the run is left behind and no other listener is removed.
     */
    method SubscribeThenCleanup(ws: WebSocketClient, effect: nat)
      modifies ws.socket
      ensures ws.socket != null ==> ws.socket.listeners == old(ws.socket.listeners)
    {
      var subs := Subscribe(ws, effect);
      Cleanup(ws, subs);
    }
  }
}
