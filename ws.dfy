/**
 * The progress notification registry: for each project, the WebSockets
 * listening to it, in the order they connected; progress, completion and
 * error messages go to every socket of the project. Sockets are known by an
 * identity; what is sent is kept in an outbox, in sending order.
 */
module Ws {
  import opened Wrappers

  /** A connected WebSocket, known by its identity. */
  type Socket = nat

  /** The three notifications, before they are serialized to JSON. */
  datatype Message =
    | Progress(stage: string, progress: int, message: string)
    | Complete(stage: string, result: Option<string>)
    | Error(stage: string, error: string)

  /** One `send_text` of a notification to one socket. */
  datatype Delivery = Delivery(socket: Socket, message: Message)

  type Registry = map<string, seq<Socket>>

  /** No project is kept with an empty list. */
  predicate NoEmptyList(active: Registry) {
    forall p :: p in active ==> active[p] != []
  }

  /** The sockets of a project; none when it is not in the registry. */
  function SocketsOf(active: Registry, project: string): seq<Socket> {
    if project in active then active[project] else []
  }

  /** `list.remove(x)`: the list without the first occurrence of `x`. */
  function RemoveFirst(s: seq<Socket>, x: Socket): (r: seq<Socket>)
    ensures |r| == if x in s then |s| - 1 else |s|
    ensures multiset(r) == multiset(s) - multiset{x}
  {
    if s == [] then []
    else
      assert s == [s[0]] + s[1..];
      if s[0] == x then s[1..] else [s[0]] + RemoveFirst(s[1..], x)
  }

  /** Removing a socket that is not there changes nothing. */
  lemma {:induction false} RemoveAbsent(s: seq<Socket>, x: Socket)
    requires x !in s
    ensures RemoveFirst(s, x) == s
  {
    if s != [] {
      assert s[0] != x && x !in s[1..];
      RemoveAbsent(s[1..], x);
      assert s == [s[0]] + s[1..];
    }
  }

  /** Removing a socket just appended, when it was new, undoes the appending. */
  lemma {:induction false} RemoveAppended(s: seq<Socket>, x: Socket)
    requires x !in s
    ensures RemoveFirst(s + [x], x) == s
  {
    if s == [] {
      assert s + [x] == [x];
    } else {
      assert s[0] != x && x !in s[1..];
      RemoveAppended(s[1..], x);
      assert (s + [x])[0] == s[0];
      assert (s + [x])[1..] == s[1..] + [x];
      assert s == [s[0]] + s[1..];
    }
  }

  /** The registry after `connect`: the socket added at the end of its project's list, which is created when missing. */
  function Connected(active: Registry, ws: Socket, project: string): (r: Registry)
    ensures project in r && r[project] == SocketsOf(active, project) + [ws]
    ensures forall p :: p != project ==> SocketsOf(r, p) == SocketsOf(active, p)
    ensures NoEmptyList(active) ==> NoEmptyList(r)
  {
    active[project := SocketsOf(active, project) + [ws]]
  }

  /**
   * The registry after `disconnect`: the first occurrence of the socket
   * removed from its project's list, and the project dropped when its list
   * becomes empty; an unknown project is left alone.
   */
  function Disconnected(active: Registry, ws: Socket, project: string): (r: Registry)
    ensures SocketsOf(r, project) == RemoveFirst(SocketsOf(active, project), ws)
    ensures forall p :: p != project ==> SocketsOf(r, p) == SocketsOf(active, p)
    ensures NoEmptyList(active) ==> NoEmptyList(r)
    ensures project !in active ==> r == active
  {
    if project !in active then active
    else
      var rest := RemoveFirst(active[project], ws);
      if rest == [] then active - {project} else active[project := rest]
  }

  /** A socket that was not there, disconnected right after it connected, leaves the registry as it was. */
  lemma ConnectThenDisconnect(active: Registry, ws: Socket, project: string)
    requires NoEmptyList(active)
    requires ws !in SocketsOf(active, project)
    ensures Disconnected(Connected(active, ws, project), ws, project) == active
  {
    var s := SocketsOf(active, project);
    RemoveAppended(s, ws);
    var c := active[project := s + [ws]];
    assert Connected(active, ws, project) == c;
    var r := Disconnected(c, ws, project);
    if s == [] {
      assert r == c - {project};
      assert s + [ws] == [ws];
      DropNew(active, ws, project, c, r);
    } else {
      assert r == c[project := s];
      RestoreOld(active, ws, project, c, r);
    }
  }

  /** The connect created the project's list: dropping it restores the registry. */
  lemma DropNew(active: Registry, ws: Socket, project: string, c: Registry, r: Registry)
    requires NoEmptyList(active)
    requires SocketsOf(active, project) == []
    requires c == active[project := [ws]]
    requires r == c - {project}
    ensures r == active
  {
    assert project !in active;
    assert r.Keys == active.Keys;
  }

  /** The project was listed: putting its old list back restores the registry. */
  lemma RestoreOld(active: Registry, ws: Socket, project: string, c: Registry, r: Registry)
    requires project in active
    requires c == active[project := active[project] + [ws]]
    requires r == c[project := active[project]]
    ensures r == active
  {
    assert r == active[project := active[project]];
  }

  /** Disconnecting a socket that is not listed changes nothing. */
  lemma DisconnectAbsent(active: Registry, ws: Socket, project: string)
    requires NoEmptyList(active)
    requires ws !in SocketsOf(active, project)
    ensures Disconnected(active, ws, project) == active
  {
    RemoveAbsent(SocketsOf(active, project), ws);
    if project in active {
      assert Disconnected(active, ws, project) == active[project := active[project]];
    }
  }

  /** `disconnect` on a listed project, step by step: the list shortened, then dropped if emptied. */
  lemma DisconnectRemoved(active: Registry, ws: Socket, project: string)
    requires project in active
    ensures var rest := RemoveFirst(active[project], ws);
      && (rest == [] ==> Disconnected(active, ws, project) == active[project := rest] - {project})
      && (rest != [] ==> Disconnected(active, ws, project) == active[project := rest])
  {
    var rest := RemoveFirst(active[project], ws);
    if rest == [] {
      assert active[project := rest] - {project} == active - {project};
    }
  }

  /** One delivery per socket, in the order of the list. */
  function Deliveries(sockets: seq<Socket>, m: Message): (r: seq<Delivery>)
    ensures |r| == |sockets|
    ensures forall k :: 0 <= k < |r| ==> r[k] == Delivery(sockets[k], m)
  {
    seq(|sockets|, k requires 0 <= k < |sockets| => Delivery(sockets[k], m))
  }

  /** `ConnectionManager`. */
  class ConnectionManager {
    var active: Registry
    var outbox: seq<Delivery>

    predicate Valid()
      reads this
    {
      NoEmptyList(active)
    }

    constructor ()
      ensures Valid() && active == map[] && outbox == []
    {
      active := map[];
      outbox := [];
    }

    /** `connect`: the socket joins the end of its project's list; nothing is sent. */
    method Connect(ws: Socket, project: string)
      requires Valid()
      modifies this
      ensures Valid()
      ensures active == Connected(old(active), ws, project)
      ensures outbox == old(outbox)
    {
      if project !in active {
        active := active[project := []];
      }
      active := active[project := active[project] + [ws]];
    }

    /** `disconnect`: the socket leaves its project's list, and an emptied project is dropped. */
    method Disconnect(ws: Socket, project: string)
      requires Valid()
      modifies this
      ensures Valid()
      ensures active == Disconnected(old(active), ws, project)
      ensures outbox == old(outbox)
    {
      if project in active {
        if ws in active[project] {
          DisconnectRemoved(active, ws, project);
          active := active[project := RemoveFirst(active[project], ws)];
          if active[project] == [] {
            active := active - {project};
          }
        } else {
          // The list is left as it was, non-empty, so the emptiness check drops nothing.
          DisconnectAbsent(active, ws, project);
        }
      }
    }

    /** The loop of the `send_*` methods: the message goes to each socket of the project, in order. */
    method Broadcast(project: string, m: Message)
      modifies this
      ensures active == old(active)
      ensures outbox == old(outbox) + Deliveries(SocketsOf(active, project), m)
      ensures project !in active ==> outbox == old(outbox)
    {
      if project !in active {
        return;
      }
      var sockets := active[project];
      for i := 0 to |sockets|
        invariant active == old(active)
        invariant outbox == old(outbox) + Deliveries(sockets[..i], m)
      {
        assert Deliveries(sockets[..i + 1], m) == Deliveries(sockets[..i], m) + [Delivery(sockets[i], m)];
        outbox := outbox + [Delivery(sockets[i], m)];
      }
      assert sockets[..|sockets|] == sockets;
    }

    /** `send_progress`: nothing without a connection; otherwise the progress to each socket. */
    method SendProgress(project: string, stage: string, progress: int, message: string)
      modifies this
      ensures active == old(active)
      ensures outbox == old(outbox) + Deliveries(SocketsOf(active, project), Progress(stage, progress, message))
    {
      Broadcast(project, Progress(stage, progress, message));
    }

    /** `send_complete`: nothing without a connection; otherwise the completion to each socket. */
    method SendComplete(project: string, stage: string, result: Option<string>)
      modifies this
      ensures active == old(active)
      ensures outbox == old(outbox) + Deliveries(SocketsOf(active, project), Complete(stage, result))
    {
      Broadcast(project, Complete(stage, result));
    }

    /** `send_error`: nothing without a connection; otherwise the error to each socket. */
    method SendError(project: string, stage: string, error: string)
      modifies this
      ensures active == old(active)
      ensures outbox == old(outbox) + Deliveries(SocketsOf(active, project), Error(stage, error))
    {
      Broadcast(project, Error(stage, error));
    }
  }
}
