/** The channel broker: a parent that forwards EstablishChannel between any number of client processes
    and one service process, which answers each request with a fresh id and one end of a fresh pipe.

    Every pipe end is a token that really sits somewhere: in the service's hand, in a reply under way,
    with a client, or closed. Pipes deliver in order and hand over pending messages before the notice
    that the other end is gone. A client process may die at any time.
 */
module Broker {
  import opened Options

  /** A reply to `client`: its id and the client end of pipe number `pipe`. */
  datatype Reply = Reply(client: nat, id: nat, pipe: nat)

  /** A client process: `outbox` counts its requests not yet read by the parent, `inbox` are replies
      not yet read by it, `holding` the reply its callback is working on, `greeted` whether that
      callback has called Hi; `received` is its history. */
  datatype Client = Client(
    alive: bool, requested: bool, outbox: nat, inbox: seq<Reply>,
    holding: Option<Reply>, greeted: bool, received: seq<Reply>)

  /** A direct pipe: the Hi messages in it (by sender), how many were ever sent, and which ends are open. */
  datatype Pipe = Pipe(messages: seq<nat>, sent: nat, clientClosed: bool, serviceOpen: bool)

  /** `receivers` are the keys of receivers_ (client c has key c + 1) and `service` maps the ids in service_ to the
      pipe their MyServiceImpl is bound to. `forwarded` and `handled` are histories. */
  datatype World = World(
    clients: seq<Client>, receivers: set<nat>,
    forwarded: seq<nat>, toService: seq<nat>,
    clientId: nat, service: map<nat, nat>, inHand: Option<Reply>, toParent: seq<Reply>,
    pipes: seq<Pipe>, handled: seq<(nat, nat)>)

  const START := World([], {}, [], [], 0, map[], None, [], [], [])

  const NEWCLIENT := Client(true, false, 0, [], None, false, [])
  const NEWPIPE := Pipe([], 0, false, true)

  datatype Event =
    | AddClient
    | Request(c: nat)
    | Forward(c: nat)
    | Establish
    | SendReply
    | Relay
    | Receive(c: nat)
    | Greet(c: nat)
    | Finish(c: nat)
    | Die(c: nat)
    | ClientGone(c: nat)
    | HandleHi(id: nat)
    | ServiceGone(id: nat)

  predicate Enabled(w: World, e: Event) {
    match e
    case AddClient => true
    case Request(c) => c < |w.clients| && w.clients[c].alive && !w.clients[c].requested
    case Forward(c) => c < |w.clients| && c + 1 in w.receivers && w.clients[c].outbox > 0
    case Establish => w.inHand.None? && w.toService != []
    case SendReply => w.inHand.Some?
    case Relay => w.toParent != []
    case Receive(c) => c < |w.clients| && w.clients[c].alive && w.clients[c].inbox != [] && w.clients[c].holding.None?
    case Greet(c) => c < |w.clients| && w.clients[c].holding.Some? && !w.clients[c].greeted
                     && w.clients[c].holding.value.pipe < |w.pipes|
    case Finish(c) => c < |w.clients| && w.clients[c].holding.Some? && w.clients[c].greeted
    case Die(c) => c < |w.clients| && w.clients[c].alive
    case ClientGone(c) => c < |w.clients| && c + 1 in w.receivers && !w.clients[c].alive && w.clients[c].outbox == 0
    case HandleHi(id) => id in w.service && w.service[id] < |w.pipes| && w.pipes[w.service[id]].messages != []
    case ServiceGone(id) => id in w.service && w.service[id] < |w.pipes|
                            && w.pipes[w.service[id]].clientClosed && w.pipes[w.service[id]].messages == []
  }

  function Num(replies: seq<Reply>, p: nat): nat {
    if replies == [] then 0 else (if replies[0].pipe == p then 1 else 0) + Num(replies[1..], p)
  }

  function One(r: Option<Reply>, p: nat): nat { if r.Some? && r.value.pipe == p then 1 else 0 }

  function Holding(x: Client): seq<Reply> { if x.holding.Some? then x.inbox + [x.holding.value] else x.inbox }

  /** The client ends named by `replies` are closed. */
  function Close(pipes: seq<Pipe>, replies: seq<Reply>): (r: seq<Pipe>)
    ensures |r| == |pipes|
  {
    seq(|pipes|, p requires 0 <= p < |pipes| =>
      if Num(replies, p) > 0 then pipes[p].(clientClosed := true) else pipes[p])
  }

  function Apply(w: World, e: Event): World
    requires Enabled(w, e)
  {
    match e
    case AddClient => w.(clients := w.clients + [NEWCLIENT], receivers := w.receivers + {|w.clients| + 1})
    case Request(c) => w.(clients := w.clients[c := w.clients[c].(requested := true, outbox := w.clients[c].outbox + 1)])
    case Forward(c) =>
      w.(clients := w.clients[c := w.clients[c].(outbox := w.clients[c].outbox - 1)],
         forwarded := w.forwarded + [c], toService := w.toService + [c])
    case Establish =>
      var id := w.clientId + 1;
      w.(clientId := id, service := w.service[id := |w.pipes|], pipes := w.pipes + [NEWPIPE],
         inHand := Some(Reply(w.toService[0], id, |w.pipes|)), toService := w.toService[1..])
    case SendReply => w.(inHand := None, toParent := w.toParent + [w.inHand.value])
    case Relay =>
      var r := w.toParent[0];
      if r.client + 1 in w.receivers && r.client < |w.clients| && w.clients[r.client].alive then
        w.(toParent := w.toParent[1..],
           clients := w.clients[r.client := w.clients[r.client].(inbox := w.clients[r.client].inbox + [r])])
      else w.(toParent := w.toParent[1..], pipes := Close(w.pipes, [r]))
    case Receive(c) =>
      var x := w.clients[c];
      w.(clients := w.clients[c := x.(inbox := x.inbox[1..], holding := Some(x.inbox[0]), greeted := false,
                                     received := x.received + [x.inbox[0]])])
    case Greet(c) =>
      var p := w.clients[c].holding.value.pipe;
      w.(clients := w.clients[c := w.clients[c].(greeted := true)],
         pipes := w.pipes[p := w.pipes[p].(messages := w.pipes[p].messages + [c], sent := w.pipes[p].sent + 1)])
    case Finish(c) =>
      w.(clients := w.clients[c := w.clients[c].(holding := None)], pipes := Close(w.pipes, [w.clients[c].holding.value]))
    case Die(c) =>
      var x := w.clients[c];
      w.(clients := w.clients[c := x.(alive := false, inbox := [], holding := None)], pipes := Close(w.pipes, Holding(x)))
    case ClientGone(c) => w.(receivers := w.receivers - {c + 1})
    case HandleHi(id) =>
      var p := w.service[id];
      w.(handled := w.handled + [(id, w.pipes[p].messages[0])],
         pipes := w.pipes[p := w.pipes[p].(messages := w.pipes[p].messages[1..])])
    case ServiceGone(id) =>
      var p := w.service[id];
      w.(service := w.service - {id}, pipes := w.pipes[p := w.pipes[p].(serviceOpen := false)])
  }

  ghost predicate Feasible(w: World, events: seq<Event>)
    decreases events
  {
    events != [] ==> Enabled(w, events[0]) && Feasible(Apply(w, events[0]), events[1..])
  }

  ghost function Exec(w: World, events: seq<Event>): World
    requires Feasible(w, events)
    decreases events
  {
    if events == [] then w else Exec(Apply(w, events[0]), events[1..])
  }

  // ----- counting the tokens of one pipe -----

  function Unread(clients: seq<Client>, p: nat): nat {
    if clients == [] then 0 else Num(clients[0].inbox, p) + Unread(clients[1..], p)
  }

  function Held(clients: seq<Client>, p: nat): nat {
    if clients == [] then 0 else One(clients[0].holding, p) + Held(clients[1..], p)
  }

  /** Client ends of pipe `p` on their way to a client. */
  function UnderWay(w: World, p: nat): nat { One(w.inHand, p) + Num(w.toParent, p) + Unread(w.clients, p) }

  function Holders(w: World, p: nat): nat
    requires p < |w.pipes|
  {
    UnderWay(w, p) + Held(w.clients, p) + if w.pipes[p].clientClosed then 1 else 0
  }

  lemma {:induction false} NumAppend(a: seq<Reply>, b: seq<Reply>, p: nat)
    ensures Num(a + b, p) == Num(a, p) + Num(b, p)
    decreases a
  {
    if a == [] {
      assert a + b == b;
    } else {
      assert (a + b)[1..] == a[1..] + b;
      NumAppend(a[1..], b, p);
    }
  }

  lemma NumOne(r: Reply, p: nat)
    ensures Num([r], p) == if r.pipe == p then 1 else 0
  {
    assert [r][1..] == [];
  }

  lemma NumHolding(x: Client, p: nat)
    ensures Num(Holding(x), p) == Num(x.inbox, p) + One(x.holding, p)
  {
    if x.holding.Some? {
      NumAppend(x.inbox, [x.holding.value], p);
      NumOne(x.holding.value, p);
    }
  }

  lemma {:induction false} NumMember(s: seq<Reply>, r: Reply)
    requires r in s
    ensures Num(s, r.pipe) >= 1
  {
    if s[0] != r {
      NumMember(s[1..], r);
    }
  }

  lemma {:induction false} ClientsUpdate(cs: seq<Client>, c: nat, x: Client, p: nat)
    requires c < |cs|
    ensures Unread(cs[c := x], p) == Unread(cs, p) - Num(cs[c].inbox, p) + Num(x.inbox, p)
    ensures Held(cs[c := x], p) == Held(cs, p) - One(cs[c].holding, p) + One(x.holding, p)
    ensures Unread(cs, p) >= Num(cs[c].inbox, p) && Held(cs, p) >= One(cs[c].holding, p)
    decreases c
  {
    if c == 0 {
      assert cs[c := x][1..] == cs[1..];
    } else {
      assert cs[c := x][1..] == cs[1..][c - 1 := x];
      ClientsUpdate(cs[1..], c - 1, x, p);
    }
  }

  lemma {:induction false} ClientsAppend(cs: seq<Client>, p: nat)
    ensures Unread(cs + [NEWCLIENT], p) == Unread(cs, p) && Held(cs + [NEWCLIENT], p) == Held(cs, p)
  {
    if cs == [] {
      assert cs + [NEWCLIENT] == [NEWCLIENT] && [NEWCLIENT][1..] == [];
    } else {
      assert (cs + [NEWCLIENT])[1..] == cs[1..] + [NEWCLIENT];
      ClientsAppend(cs[1..], p);
    }
  }

  function Greetings(handled: seq<(nat, nat)>, id: nat): nat {
    if handled == [] then 0
    else Greetings(handled[..|handled| - 1], id) + if handled[|handled| - 1].0 == id then 1 else 0
  }

  // ----- the invariant -----

  /** A reply names the request it answers: the id counts the forwarded requests, the pipe goes with the id. */
  predicate Genuine(pipes: nat, forwarded: seq<nat>, r: Reply) {
    && r.pipe < pipes && r.id == r.pipe + 1
    && r.pipe < |forwarded| && forwarded[r.pipe] == r.client
  }

  predicate PipeOk(w: World, p: nat) {
    p < |w.pipes| ==>
      var pipe := w.pipes[p];
      && Holders(w, p) == 1
      && (UnderWay(w, p) == 1 ==> pipe.sent == 0)
      && pipe.sent <= 1
      && Greetings(w.handled, p + 1) + |pipe.messages| == pipe.sent
      && (!pipe.serviceOpen ==> pipe.clientClosed && pipe.messages == [])
      && (pipe.serviceOpen <==> p + 1 in w.service)
      && (p < |w.forwarded| ==>
            var c := w.forwarded[p];
            && (forall i :: 0 <= i < |pipe.messages| ==> pipe.messages[i] == c)
            && (pipe.sent == 1 ==> c < |w.clients| && Reply(c, p + 1, p) in w.clients[c].received))
  }

  predicate ClientOk(w: World, c: nat) {
    c < |w.clients| ==>
      var x := w.clients[c];
      && (forall r :: r in x.inbox ==> Genuine(|w.pipes|, w.forwarded, r) && r.client == c)
      && (forall r :: r in x.received ==> Genuine(|w.pipes|, w.forwarded, r) && r.client == c)
      && (x.holding.Some? ==>
            && x.holding.value in x.received && x.holding.value.pipe < |w.pipes|
            && w.pipes[x.holding.value.pipe].sent == (if x.greeted then 1 else 0))
      && (!x.alive ==> x.inbox == [] && x.holding.None?)
      && x.outbox <= 1
      && (c in w.forwarded ==> x.requested && x.outbox == 0)
      && (x.requested <==> x.outbox == 1 || c in w.forwarded)
      && (x.alive || x.outbox > 0 ==> c + 1 in w.receivers)
  }

  predicate Distinct(s: seq<nat>) {
    forall i, j :: 0 <= i < j < |s| ==> s[i] != s[j]
  }

  ghost predicate Globals(w: World) {
    && |w.pipes| == w.clientId <= |w.forwarded|
    && w.toService == w.forwarded[w.clientId..]
    && Distinct(w.forwarded)
    && (forall c :: c in w.forwarded ==> c < |w.clients|)
    && (w.inHand.Some? ==> Genuine(|w.pipes|, w.forwarded, w.inHand.value))
    && (forall r :: r in w.toParent ==> Genuine(|w.pipes|, w.forwarded, r))
    && (forall id :: id in w.service ==> 1 <= id <= w.clientId && w.service[id] == id - 1)
    && (forall h :: h in w.handled ==> 1 <= h.0 <= w.clientId && w.forwarded[h.0 - 1] == h.1)
    && (forall k :: k in w.receivers ==> 1 <= k <= |w.clients|)
  }

  ghost predicate Inv(w: World) {
    Globals(w) && (forall p: nat :: PipeOk(w, p)) && (forall c: nat :: ClientOk(w, c))
  }

  lemma {:induction false} NumZero(s: seq<Reply>, p: nat)
    requires forall r :: r in s ==> r.pipe != p
    ensures Num(s, p) == 0
  {
    if s != [] {
      NumZero(s[1..], p);
    }
  }

  lemma {:induction false} ClientsZero(cs: seq<Client>, p: nat)
    requires forall c :: 0 <= c < |cs| ==>
               (forall r :: r in cs[c].inbox ==> r.pipe != p) && One(cs[c].holding, p) == 0
    ensures Unread(cs, p) == Held(cs, p) == 0
  {
    if cs != [] {
      assert forall c :: 0 <= c < |cs[1..]| ==> cs[1..][c] == cs[c + 1];
      NumZero(cs[0].inbox, p);
      ClientsZero(cs[1..], p);
    }
  }

  lemma {:induction false} GreetingsZero(handled: seq<(nat, nat)>, id: nat)
    requires forall h :: h in handled ==> h.0 != id
    ensures Greetings(handled, id) == 0
  {
    if handled != [] {
      GreetingsZero(handled[..|handled| - 1], id);
    }
  }

  /** No token of a pipe exists before the pipe. */
  lemma FreshPipe(w: World, p: nat)
    requires Inv(w) && p >= |w.pipes|
    ensures UnderWay(w, p) == Held(w.clients, p) == 0
    ensures Greetings(w.handled, p + 1) == 0
  {
    NumZero(w.toParent, p);
    forall c: nat | c < |w.clients|
      ensures (forall r :: r in w.clients[c].inbox ==> r.pipe != p) && One(w.clients[c].holding, p) == 0
    {
      assert ClientOk(w, c);
    }
    ClientsZero(w.clients, p);
    GreetingsZero(w.handled, p + 1);
  }

  lemma AddClientStep(w: World)
    requires Inv(w)
    ensures Inv(Apply(w, AddClient))
  {
    var w' := Apply(w, AddClient);
    forall p: nat ensures PipeOk(w', p) {
      assert PipeOk(w, p);
      ClientsAppend(w.clients, p);
    }
    forall c: nat ensures ClientOk(w', c) {
      assert ClientOk(w, c);
    }
  }

  lemma RequestStep(w: World, d: nat)
    requires Inv(w) && Enabled(w, Request(d))
    ensures Inv(Apply(w, Request(d)))
  {
    var w' := Apply(w, Request(d));
    assert ClientOk(w, d);
    forall p: nat ensures PipeOk(w', p) {
      assert PipeOk(w, p);
      ClientsUpdate(w.clients, d, w'.clients[d], p);
    }
    forall c: nat ensures ClientOk(w', c) {
      assert ClientOk(w, c);
    }
  }

  lemma ForwardPipe(w: World, d: nat, p: nat)
    requires Inv(w) && Enabled(w, Forward(d))
    ensures PipeOk(Apply(w, Forward(d)), p)
  {
    assert PipeOk(w, p) && ClientOk(w, d);
    ClientsUpdate(w.clients, d, Apply(w, Forward(d)).clients[d], p);
  }

  lemma ForwardClient(w: World, d: nat, c: nat)
    requires Inv(w) && Enabled(w, Forward(d))
    ensures ClientOk(Apply(w, Forward(d)), c)
  {
    assert ClientOk(w, c) && ClientOk(w, d);
  }

  lemma ForwardStep(w: World, d: nat)
    requires Inv(w) && Enabled(w, Forward(d))
    ensures Inv(Apply(w, Forward(d)))
  {
    assert ClientOk(w, d);
    forall p: nat ensures PipeOk(Apply(w, Forward(d)), p) {
      ForwardPipe(w, d, p);
    }
    forall c: nat ensures ClientOk(Apply(w, Forward(d)), c) {
      ForwardClient(w, d, c);
    }
  }

  lemma EstablishStep(w: World)
    requires Inv(w) && Enabled(w, Establish)
    ensures Inv(Apply(w, Establish))
  {
    var w' := Apply(w, Establish);
    assert w.toService[0] == w.forwarded[w.clientId];
    assert w'.toService == w'.forwarded[w'.clientId..];
    forall p: nat ensures PipeOk(w', p) {
      assert PipeOk(w, p);
      if p >= |w.pipes| {
        FreshPipe(w, p);
      }
    }
    forall c: nat ensures ClientOk(w', c) {
      assert ClientOk(w, c);
    }
  }

  lemma SendReplyStep(w: World)
    requires Inv(w) && Enabled(w, SendReply)
    ensures Inv(Apply(w, SendReply))
  {
    var w' := Apply(w, SendReply);
    forall p: nat ensures PipeOk(w', p) {
      assert PipeOk(w, p);
      NumAppend(w.toParent, [w.inHand.value], p);
      NumOne(w.inHand.value, p);
    }
    forall c: nat ensures ClientOk(w', c) {
      assert ClientOk(w, c);
    }
  }

  lemma MovedToInbox(w: World, p: nat)
    requires Enabled(w, Relay) && w.toParent[0].client < |w.clients| && w.clients[w.toParent[0].client].alive
    requires w.toParent[0].client + 1 in w.receivers
    ensures UnderWay(Apply(w, Relay), p) == UnderWay(w, p)
    ensures Held(Apply(w, Relay).clients, p) == Held(w.clients, p)
  {
    var r := w.toParent[0];
    NumOne(r, p);
    NumAppend(w.clients[r.client].inbox, [r], p);
    ClientsUpdate(w.clients, r.client, Apply(w, Relay).clients[r.client], p);
  }

  /** The reply reaches a living client's inbox ... */
  lemma RelayDelivers(w: World)
    requires Inv(w) && Enabled(w, Relay) && w.toParent[0].client < |w.clients| && w.clients[w.toParent[0].client].alive
    ensures Inv(Apply(w, Relay))
  {
    var w' := Apply(w, Relay);
    var r := w.toParent[0];
    assert forall t :: t in w'.toParent ==> t in w.toParent;
    assert ClientOk(w, r.client);
    forall p: nat ensures PipeOk(w', p) {
      assert PipeOk(w, p);
      MovedToInbox(w, p);
    }
    forall c: nat ensures ClientOk(w', c) {
      assert ClientOk(w, c);
    }
  }

  /** ... and is dropped, with the pipe end it carries, when the client has died. */
  lemma RelayDrops(w: World)
    requires Inv(w) && Enabled(w, Relay)
    requires !(w.toParent[0].client < |w.clients| && w.clients[w.toParent[0].client].alive)
    ensures Inv(Apply(w, Relay))
  {
    var w' := Apply(w, Relay);
    var r := w.toParent[0];
    assert forall t :: t in w'.toParent ==> t in w.toParent;
    forall p: nat ensures PipeOk(w', p) {
      assert PipeOk(w, p);
      NumOne(r, p);
    }
    forall c: nat ensures ClientOk(w', c) {
      assert ClientOk(w, c);
    }
  }

  lemma ReceivePipe(w: World, d: nat, p: nat)
    requires Inv(w) && Enabled(w, Receive(d))
    ensures PipeOk(Apply(w, Receive(d)), p)
  {
    assert PipeOk(w, p) && ClientOk(w, d);
    ClientsUpdate(w.clients, d, Apply(w, Receive(d)).clients[d], p);
  }

  lemma ReceiveClient(w: World, d: nat, c: nat)
    requires Inv(w) && Enabled(w, Receive(d))
    ensures ClientOk(Apply(w, Receive(d)), c)
  {
    assert ClientOk(w, c) && ClientOk(w, d);
    var r := w.clients[d].inbox[0];
    assert PipeOk(w, r.pipe);
    NumMember(w.clients[d].inbox, r);
    ClientsUpdate(w.clients, d, Apply(w, Receive(d)).clients[d], r.pipe);
  }

  lemma ReceiveStep(w: World, d: nat)
    requires Inv(w) && Enabled(w, Receive(d))
    ensures Inv(Apply(w, Receive(d)))
  {
    forall p: nat ensures PipeOk(Apply(w, Receive(d)), p) {
      ReceivePipe(w, d, p);
    }
    forall c: nat ensures ClientOk(Apply(w, Receive(d)), c) {
      ReceiveClient(w, d, c);
    }
  }

  /** A client that holds a pipe's end is its only holder. */
  lemma OnlyHolder(w: World, d: nat, c: nat)
    requires Inv(w) && d < |w.clients| && c < |w.clients| && c != d
    requires w.clients[d].holding.Some? && w.clients[c].holding.Some?
    ensures w.clients[c].holding.value.pipe != w.clients[d].holding.value.pipe
  {
    assert ClientOk(w, c) && ClientOk(w, d);
  }

  lemma GreetOther(w: World, d: nat, p: nat)
    requires Inv(w) && Enabled(w, Greet(d)) && p != w.clients[d].holding.value.pipe
    ensures PipeOk(Apply(w, Greet(d)), p)
  {
    assert PipeOk(w, p) && ClientOk(w, d);
    ClientsUpdate(w.clients, d, Apply(w, Greet(d)).clients[d], p);
  }

  lemma GreetPipe(w: World, d: nat, p: nat)
    requires Inv(w) && Enabled(w, Greet(d))
    ensures PipeOk(Apply(w, Greet(d)), p)
  {
    assert PipeOk(w, p) && ClientOk(w, d);
    if p != w.clients[d].holding.value.pipe {
      GreetOther(w, d, p);
    } else {
      ClientsUpdate(w.clients, d, Apply(w, Greet(d)).clients[d], p);
      assert !w.pipes[p].clientClosed && p + 1 in w.service;
    }
  }

  lemma GreetClient(w: World, d: nat, c: nat)
    requires Inv(w) && Enabled(w, Greet(d))
    ensures ClientOk(Apply(w, Greet(d)), c)
  {
    assert ClientOk(w, c) && ClientOk(w, d);
    if c < |w.clients| && c != d && w.clients[c].holding.Some? {
      OnlyHolder(w, d, c);
    }
  }

  lemma GreetStep(w: World, d: nat)
    requires Inv(w) && Enabled(w, Greet(d))
    ensures Inv(Apply(w, Greet(d)))
  {
    assert ClientOk(w, d);
    forall p: nat ensures PipeOk(Apply(w, Greet(d)), p) {
      GreetPipe(w, d, p);
    }
    forall c: nat ensures ClientOk(Apply(w, Greet(d)), c) {
      GreetClient(w, d, c);
    }
  }

  lemma FinishPipe(w: World, d: nat, p: nat)
    requires Inv(w) && Enabled(w, Finish(d))
    ensures PipeOk(Apply(w, Finish(d)), p)
  {
    assert PipeOk(w, p) && ClientOk(w, d);
    NumOne(w.clients[d].holding.value, p);
    ClientsUpdate(w.clients, d, Apply(w, Finish(d)).clients[d], p);
  }

  lemma FinishClient(w: World, d: nat, c: nat)
    requires Inv(w) && Enabled(w, Finish(d))
    ensures ClientOk(Apply(w, Finish(d)), c)
  {
    assert ClientOk(w, c);
  }

  lemma FinishStep(w: World, d: nat)
    requires Inv(w) && Enabled(w, Finish(d))
    ensures Inv(Apply(w, Finish(d)))
  {
    forall p: nat ensures PipeOk(Apply(w, Finish(d)), p) {
      FinishPipe(w, d, p);
    }
    forall c: nat ensures ClientOk(Apply(w, Finish(d)), c) {
      FinishClient(w, d, c);
    }
  }

  lemma DiePipe(w: World, d: nat, p: nat)
    requires Inv(w) && Enabled(w, Die(d))
    ensures PipeOk(Apply(w, Die(d)), p)
  {
    assert PipeOk(w, p) && ClientOk(w, d);
    ClientsUpdate(w.clients, d, Apply(w, Die(d)).clients[d], p);
    NumHolding(w.clients[d], p);
  }

  lemma DieClient(w: World, d: nat, c: nat)
    requires Inv(w) && Enabled(w, Die(d))
    ensures ClientOk(Apply(w, Die(d)), c)
  {
    assert ClientOk(w, c);
  }

  lemma DieStep(w: World, d: nat)
    requires Inv(w) && Enabled(w, Die(d))
    ensures Inv(Apply(w, Die(d)))
  {
    forall p: nat ensures PipeOk(Apply(w, Die(d)), p) {
      DiePipe(w, d, p);
    }
    forall c: nat ensures ClientOk(Apply(w, Die(d)), c) {
      DieClient(w, d, c);
    }
  }

  lemma ClientGoneStep(w: World, d: nat)
    requires Inv(w) && Enabled(w, ClientGone(d))
    ensures Inv(Apply(w, ClientGone(d)))
  {
    var w' := Apply(w, ClientGone(d));
    forall p: nat ensures PipeOk(w', p) {
      assert PipeOk(w, p);
    }
    forall c: nat ensures ClientOk(w', c) {
      assert ClientOk(w, c);
    }
  }

  lemma HandleHiPipe(w: World, id: nat, p: nat)
    requires Inv(w) && Enabled(w, HandleHi(id))
    ensures PipeOk(Apply(w, HandleHi(id)), p)
  {
    assert PipeOk(w, p) && PipeOk(w, id - 1);
    var w' := Apply(w, HandleHi(id));
    assert w'.handled[..|w'.handled| - 1] == w.handled;
  }

  lemma HandleHiClient(w: World, id: nat, c: nat)
    requires Inv(w) && Enabled(w, HandleHi(id))
    ensures ClientOk(Apply(w, HandleHi(id)), c)
  {
    assert ClientOk(w, c);
  }

  lemma HandleHiStep(w: World, id: nat)
    requires Inv(w) && Enabled(w, HandleHi(id))
    ensures Inv(Apply(w, HandleHi(id)))
  {
    assert PipeOk(w, id - 1);
    forall p: nat ensures PipeOk(Apply(w, HandleHi(id)), p) {
      HandleHiPipe(w, id, p);
    }
    forall c: nat ensures ClientOk(Apply(w, HandleHi(id)), c) {
      HandleHiClient(w, id, c);
    }
  }

  lemma ServiceGoneStep(w: World, id: nat)
    requires Inv(w) && Enabled(w, ServiceGone(id))
    ensures Inv(Apply(w, ServiceGone(id)))
  {
    var w' := Apply(w, ServiceGone(id));
    forall p: nat ensures PipeOk(w', p) {
      assert PipeOk(w, p);
    }
    forall c: nat ensures ClientOk(w', c) {
      assert ClientOk(w, c);
    }
  }

  lemma StepInv(w: World, e: Event)
    requires Inv(w) && Enabled(w, e)
    ensures Inv(Apply(w, e))
  {
    match e
    case AddClient => AddClientStep(w);
    case Request(c) => RequestStep(w, c);
    case Forward(c) => ForwardStep(w, c);
    case Establish => EstablishStep(w);
    case SendReply => SendReplyStep(w);
    case Relay =>
      if w.toParent[0].client < |w.clients| && w.clients[w.toParent[0].client].alive {
        RelayDelivers(w);
      } else {
        RelayDrops(w);
      }
    case Receive(c) => ReceiveStep(w, c);
    case Greet(c) => GreetStep(w, c);
    case Finish(c) => FinishStep(w, c);
    case Die(c) => DieStep(w, c);
    case ClientGone(c) => ClientGoneStep(w, c);
    case HandleHi(id) => HandleHiStep(w, id);
    case ServiceGone(id) => ServiceGoneStep(w, id);
  }

  lemma {:induction false} ExecInv(w: World, events: seq<Event>)
    requires Inv(w) && Feasible(w, events)
    ensures Inv(Exec(w, events))
    decreases events
  {
    if events != [] {
      StepInv(w, events[0]);
      ExecInv(Apply(w, events[0]), events[1..]);
    }
  }

  lemma {:induction false} RunInv(events: seq<Event>)
    requires Feasible(START, events)
    ensures Inv(Exec(START, events))
  {
    ExecInv(START, events);
  }

  // ----- what it means -----

  /** In every run the client end of each pipe is in exactly one place: the service's hand, a reply
      under way, a client, or closed. */
  lemma {:induction false} OneHolder(events: seq<Event>, p: nat)
    requires Feasible(START, events) && p < |Exec(START, events).pipes|
    ensures Holders(Exec(START, events), p) == 1
  {
    RunInv(events);
    assert PipeOk(Exec(START, events), p);
  }

  /** service_ holds an id exactly while the service end of its pipe is open, and gives it up only after
      the client end was closed and every message read. */
  lemma {:induction false} ServiceEntries(events: seq<Event>, id: nat)
    requires Feasible(START, events)
    ensures var w := Exec(START, events);
            && (id in w.service ==> 1 <= id <= |w.pipes| && w.service[id] == id - 1 && w.pipes[id - 1].serviceOpen)
            && (1 <= id <= |w.pipes| && id !in w.service ==>
                  !w.pipes[id - 1].serviceOpen && w.pipes[id - 1].clientClosed && w.pipes[id - 1].messages == [])
  {
    RunInv(events);
    var w := Exec(START, events);
    if 1 <= id {
      assert PipeOk(w, id - 1);
    }
  }

  /** receivers_ keeps the key of every client that is alive or has a request to be read. */
  lemma {:induction false} ReceiverEntries(events: seq<Event>, c: nat)
    requires Feasible(START, events) && c < |Exec(START, events).clients|
    ensures var w := Exec(START, events);
            w.clients[c].alive || w.clients[c].outbox > 0 ==> c + 1 in w.receivers
  {
    RunInv(events);
    assert ClientOk(Exec(START, events), c);
  }

  /** No step of the parent or the service is left to take. */
  ghost predicate Settled(w: World) {
    forall e :: Enabled(w, e) ==> e.AddClient? || e.Request? || e.Receive? || e.Greet? || e.Finish? || e.Die?
  }

  /** Id `id` was given out for a request of client `c`. */
  predicate For(w: World, id: nat, c: nat) { 1 <= id <= |w.forwarded| && w.forwarded[id - 1] == c }

  /** An entry whose client is dead has a step to take. */
  lemma EntryProgress(w: World, id: nat, d: nat)
    requires Inv(w) && id in w.service && w.inHand.None? && w.toParent == []
    requires d < |w.clients| && For(w, id, d) && !w.clients[d].alive
    ensures Enabled(w, HandleHi(id)) || Enabled(w, ServiceGone(id))
  {
    var p := id - 1;
    assert PipeOk(w, p);
    forall c: nat | c < |w.clients|
      ensures (forall r :: r in w.clients[c].inbox ==> r.pipe != p) && One(w.clients[c].holding, p) == 0
    {
      assert ClientOk(w, c);
    }
    ClientsZero(w.clients, p);
  }

  lemma ServiceSettled(w: World, id: nat, c: nat)
    requires Inv(w) && Settled(w) && id in w.service && c < |w.clients| && For(w, id, c)
    ensures w.clients[c].alive
  {
    assert !Enabled(w, SendReply) && !Enabled(w, Relay);
    if !w.clients[c].alive {
      EntryProgress(w, id, c);
      assert false;
    }
  }

  lemma ReceiverSettled(w: World, c: nat)
    requires Inv(w) && Settled(w) && c < |w.clients| && c + 1 in w.receivers
    ensures w.clients[c].alive
  {
    assert !Enabled(w, ClientGone(c)) && !Enabled(w, Forward(c));
  }

  /** Nothing leaks, however many other clients live on: once a client is dead, wherever it was in the protocol, and the
      parent and the service have nothing left to do, neither map has an entry for it. */
  lemma {:induction false} NothingLeaks(events: seq<Event>, c: nat, id: nat)
    requires Feasible(START, events) && Settled(Exec(START, events))
    requires c < |Exec(START, events).clients| && !Exec(START, events).clients[c].alive
    ensures c + 1 !in Exec(START, events).receivers
    ensures For(Exec(START, events), id, c) ==> id !in Exec(START, events).service
  {
    RunInv(events);
    var w := Exec(START, events);
    if c + 1 in w.receivers {
      ReceiverSettled(w, c);
    }
    if For(w, id, c) && id in w.service {
      ServiceSettled(w, id, c);
    }
  }

  lemma ServiceOpen(w: World, id: nat)
    requires Inv(w) && Settled(w)
    ensures id in w.service <==> 1 <= id <= |w.pipes| && !w.pipes[id - 1].clientClosed
  {
    if 1 <= id <= |w.pipes| {
      assert PipeOk(w, id - 1);
      assert !Enabled(w, HandleHi(id)) && !Enabled(w, ServiceGone(id));
    }
  }

  /** So in a settled world receivers_ holds exactly the living clients, and service_ exactly the ids whose client end
      is open, each of a living client. */
  lemma {:induction false} EntriesOfTheLiving(events: seq<Event>, id: nat)
    requires Feasible(START, events) && Settled(Exec(START, events))
    ensures var w := Exec(START, events);
            && (id in w.receivers <==> 1 <= id <= |w.clients| && w.clients[id - 1].alive)
            && (id in w.service <==> 1 <= id <= |w.pipes| && !w.pipes[id - 1].clientClosed)
            && (id in w.service ==> exists c :: 0 <= c < |w.clients| && For(w, id, c) && w.clients[c].alive)
  {
    RunInv(events);
    var w := Exec(START, events);
    ServiceOpen(w, id);
    if id in w.receivers {
      ReceiverSettled(w, id - 1);
    } else if 1 <= id {
      assert ClientOk(w, id - 1);
    }
    if id in w.service {
      assert w.forwarded[id - 1] in w.forwarded;
      ServiceSettled(w, id, w.forwarded[id - 1]);
    }
  }

  // ----- every request is answered -----

  /** The request that got pipe `p` is being answered: its reply is on its way, or its client is working on it, or has
      said Hi, or has died. */
  predicate Answered(w: World, p: nat) {
    p < |w.pipes| && p < |w.forwarded| && w.forwarded[p] < |w.clients| ==>
      var r := Reply(w.forwarded[p], p + 1, p);
      var x := w.clients[r.client];
      || w.inHand == Some(r) || r in w.toParent || r in x.inbox || x.holding == Some(r)
      || (r in x.received && w.pipes[p].sent == 1)
      || !x.alive
  }

  lemma AnsweredEstablish(w: World, p: nat)
    requires Inv(w) && Enabled(w, Establish) && Answered(w, p)
    ensures Answered(Apply(w, Establish), p)
  {
    assert w.toService[0] == w.forwarded[w.clientId];
  }

  lemma AnsweredRelay(w: World, p: nat)
    requires Inv(w) && Enabled(w, Relay) && Answered(w, p)
    ensures Answered(Apply(w, Relay), p)
  {
    assert ClientOk(w, w.toParent[0].client);
  }

  lemma AnsweredGreet(w: World, d: nat, p: nat)
    requires Inv(w) && Enabled(w, Greet(d)) && Answered(w, p)
    ensures Answered(Apply(w, Greet(d)), p)
  {
    assert ClientOk(w, d);
  }

  lemma AnsweredClient(w: World, e: Event, p: nat)
    requires Inv(w) && Enabled(w, e) && (e.Receive? || e.Finish? || e.Die?) && Answered(w, p)
    ensures Answered(Apply(w, e), p)
  {
    assert ClientOk(w, e.c);
  }

  lemma AnsweredOther(w: World, e: Event, p: nat)
    requires Inv(w) && Enabled(w, e) && Answered(w, p)
    requires !e.Establish? && !e.Relay? && !e.Greet? && !e.Receive? && !e.Finish? && !e.Die?
    ensures Answered(Apply(w, e), p)
  {
    if p < |w.forwarded| {
      assert w.forwarded[p] in w.forwarded;
    }
  }

  lemma AnsweredStep(w: World, e: Event, p: nat)
    requires Inv(w) && Enabled(w, e) && Answered(w, p)
    ensures Answered(Apply(w, e), p)
  {
    match e
    case Establish => AnsweredEstablish(w, p);
    case Relay => AnsweredRelay(w, p);
    case Greet(c) => AnsweredGreet(w, c, p);
    case Receive(_) => AnsweredClient(w, e, p);
    case Finish(_) => AnsweredClient(w, e, p);
    case Die(_) => AnsweredClient(w, e, p);
    case _ => AnsweredOther(w, e, p);
  }

  lemma {:induction false} AnsweredRun(w: World, events: seq<Event>, p: nat)
    requires Inv(w) && Feasible(w, events) && Answered(w, p)
    ensures Answered(Exec(w, events), p)
    decreases events
  {
    if events != [] {
      StepInv(w, events[0]);
      AnsweredStep(w, events[0], p);
      AnsweredRun(Apply(w, events[0]), events[1..], p);
    }
  }

  /** No request is lost: whoever has made one has it waiting at the parent or forwarded. */
  lemma {:induction false} RequestKept(events: seq<Event>, c: nat)
    requires Feasible(START, events) && c < |Exec(START, events).clients|
    ensures var w := Exec(START, events);
            w.clients[c].requested <==> w.clients[c].outbox == 1 || c in w.forwarded
  {
    RunInv(events);
    assert ClientOk(Exec(START, events), c);
  }

  lemma AllForwarded(w: World, c: nat)
    requires Inv(w) && Settled(w) && c < |w.clients| && w.clients[c].alive && w.clients[c].requested
    ensures c in w.forwarded && w.inHand.None? && w.toParent == [] && |w.forwarded| == |w.pipes|
  {
    assert ClientOk(w, c);
    assert !Enabled(w, Forward(c)) && !Enabled(w, SendReply) && !Enabled(w, Establish) && !Enabled(w, Relay);
  }

  /** Once the parent and the service have nothing left to do, every living client that has asked has its reply, with the
      number of its request for an id, before it or behind it. */
  lemma {:induction false} RequestAnswered(events: seq<Event>, c: nat) returns (k: nat)
    requires Feasible(START, events) && Settled(Exec(START, events)) && c < |Exec(START, events).clients|
    requires Exec(START, events).clients[c].alive && Exec(START, events).clients[c].requested
    ensures var w := Exec(START, events);
            && 1 <= k <= |w.forwarded| && w.forwarded[k - 1] == c
            && (Reply(c, k, k - 1) in w.clients[c].inbox || Reply(c, k, k - 1) in w.clients[c].received)
  {
    RunInv(events);
    var w := Exec(START, events);
    AllForwarded(w, c);
    var p :| 0 <= p < |w.forwarded| && w.forwarded[p] == c;
    AnsweredRun(START, events, p);
    assert ClientOk(w, c);
    k := p + 1;
  }

  /** Nothing is left to do but to start clients, to ask, and to die. */
  ghost predicate Idle(w: World) {
    forall e :: Enabled(w, e) ==> e.AddClient? || e.Request? || e.Die?
  }

  lemma NothingHeld(w: World, c: nat)
    requires Inv(w) && Idle(w) && c < |w.clients| && w.clients[c].alive
    ensures w.clients[c].inbox == [] && w.clients[c].holding.None?
  {
    assert ClientOk(w, c);
    assert !Enabled(w, Receive(c)) && !Enabled(w, Greet(c)) && !Enabled(w, Finish(c));
  }

  lemma NothingUnread(w: World, id: nat)
    requires Inv(w) && Idle(w) && 1 <= id <= |w.pipes|
    ensures w.pipes[id - 1].messages == []
  {
    assert PipeOk(w, id - 1) && !Enabled(w, HandleHi(id));
  }

  /** And once nobody has, every living client that has asked has said Hi, and it has been handled under its id. */
  lemma {:induction false} EveryHiIsHandled(events: seq<Event>, c: nat) returns (k: nat)
    requires Feasible(START, events) && Idle(Exec(START, events)) && c < |Exec(START, events).clients|
    requires Exec(START, events).clients[c].alive && Exec(START, events).clients[c].requested
    ensures var w := Exec(START, events);
            && 1 <= k <= |w.forwarded| && w.forwarded[k - 1] == c && Reply(c, k, k - 1) in w.clients[c].received
            && Greetings(w.handled, k) == 1
  {
    RunInv(events);
    var w := Exec(START, events);
    AllForwarded(w, c);
    NothingHeld(w, c);
    var p :| 0 <= p < |w.forwarded| && w.forwarded[p] == c;
    AnsweredRun(START, events, p);
    NothingUnread(w, p + 1);
    assert PipeOk(w, p);
    k := p + 1;
  }

  // ----- everything comes to rest -----

  /** Steps a client's messages can still cause, its own included. */
  function ClientWork(x: Client): nat {
    9 * x.outbox + 4 * |x.inbox| + if x.holding.None? then 0 else if x.greeted then 1 else 3
  }

  function ClientsWork(cs: seq<Client>): nat {
    if cs == [] then 0 else ClientWork(cs[0]) + ClientsWork(cs[1..])
  }

  function Unhandled(pipes: seq<Pipe>): nat {
    if pipes == [] then 0 else |pipes[0].messages| + Unhandled(pipes[1..])
  }

  function Work(w: World): nat {
    ClientsWork(w.clients) + 8 * |w.toService| + (if w.inHand.Some? then 6 else 0) + 5 * |w.toParent|
    + Unhandled(w.pipes) + |w.service| + |w.receivers|
  }

  lemma {:induction false} ClientsWorkUpdate(cs: seq<Client>, c: nat, x: Client)
    requires c < |cs|
    ensures ClientsWork(cs[c := x]) == ClientsWork(cs) - ClientWork(cs[c]) + ClientWork(x)
    decreases c
  {
    if c == 0 {
      assert cs[c := x][1..] == cs[1..];
    } else {
      assert cs[c := x][1..] == cs[1..][c - 1 := x];
      ClientsWorkUpdate(cs[1..], c - 1, x);
    }
  }

  lemma {:induction false} UnhandledUpdate(pipes: seq<Pipe>, p: nat, x: Pipe)
    requires p < |pipes|
    ensures Unhandled(pipes[p := x]) == Unhandled(pipes) - |pipes[p].messages| + |x.messages|
    decreases p
  {
    if p == 0 {
      assert pipes[p := x][1..] == pipes[1..];
    } else {
      assert pipes[p := x][1..] == pipes[1..][p - 1 := x];
      UnhandledUpdate(pipes[1..], p - 1, x);
    }
  }

  lemma {:induction false} UnhandledSame(a: seq<Pipe>, b: seq<Pipe>)
    requires |a| == |b| && forall p :: 0 <= p < |a| ==> a[p].messages == b[p].messages
    ensures Unhandled(a) == Unhandled(b)
  {
    if a != [] {
      UnhandledSame(a[1..], b[1..]);
    }
  }

  lemma {:induction false} UnhandledNew(pipes: seq<Pipe>)
    ensures Unhandled(pipes + [NEWPIPE]) == Unhandled(pipes)
  {
    if pipes == [] {
      assert pipes + [NEWPIPE] == [NEWPIPE] && [NEWPIPE][1..] == [];
    } else {
      assert (pipes + [NEWPIPE])[1..] == pipes[1..] + [NEWPIPE];
      UnhandledNew(pipes[1..]);
    }
  }

  /** Every step but those from outside leaves less to do. */
  predicate FromOutside(e: Event) { e.AddClient? || e.Request? || e.Die? }

  lemma WorkOfClient(w: World, e: Event)
    requires Enabled(w, e) && (e.Forward? || e.Receive? || e.Greet? || e.Finish? || e.ClientGone?)
    ensures Work(Apply(w, e)) < Work(w)
  {
    var c, w' := e.c, Apply(w, e);
    ClientsWorkUpdate(w.clients, c, w'.clients[c]);
    match e
    case Greet(_) =>
      var p := w.clients[c].holding.value.pipe;
      UnhandledUpdate(w.pipes, p, w'.pipes[p]);
    case Finish(_) => UnhandledSame(w.pipes, w'.pipes);
    case ClientGone(_) => assert w.receivers == w'.receivers + {c + 1};
    case _ =>
  }

  lemma WorkOfRelay(w: World)
    requires Enabled(w, Relay)
    ensures Work(Apply(w, Relay)) < Work(w)
  {
    var r, w' := w.toParent[0], Apply(w, Relay);
    UnhandledSame(w.pipes, w'.pipes);
    if r.client < |w.clients| {
      ClientsWorkUpdate(w.clients, r.client, w'.clients[r.client]);
    }
  }

  lemma WorkOfService(w: World, e: Event)
    requires Inv(w) && Enabled(w, e) && (e.Establish? || e.SendReply? || e.HandleHi? || e.ServiceGone?)
    ensures Work(Apply(w, e)) < Work(w)
  {
    var w' := Apply(w, e);
    match e
    case Establish =>
      UnhandledNew(w.pipes);
      assert w.clientId + 1 !in w.service;
      assert |w'.service| == |w.service| + 1;
    case SendReply =>
    case HandleHi(id) => UnhandledUpdate(w.pipes, w.service[id], w'.pipes[w.service[id]]);
    case ServiceGone(id) =>
      UnhandledUpdate(w.pipes, w.service[id], w'.pipes[w.service[id]]);
      assert w.service == w'.service[id := w.service[id]];
  }

  lemma {:induction false} WorkOfRun(w: World, events: seq<Event>)
    requires Inv(w) && Feasible(w, events) && forall e :: e in events ==> !FromOutside(e)
    ensures |events| + Work(Exec(w, events)) <= Work(w)
    decreases events
  {
    if events != [] {
      var e := events[0];
      assert e in events;
      StepInv(w, e);
      if e.Establish? || e.SendReply? || e.HandleHi? || e.ServiceGone? {
        WorkOfService(w, e);
      } else if e.Relay? {
        WorkOfRelay(w);
      } else {
        WorkOfClient(w, e);
      }
      WorkOfRun(Apply(w, e), events[1..]);
    }
  }

  /** From any reachable world, as long as no client is started, asks or dies, only so many steps can be taken: everything
      comes to rest, and then it is idle. */
  lemma {:induction false} ComesToRest(before: seq<Event>, after: seq<Event>)
    requires Feasible(START, before) && Feasible(Exec(START, before), after)
    requires forall e :: e in after ==> !FromOutside(e)
    ensures |after| <= Work(Exec(START, before))
  {
    RunInv(before);
    WorkOfRun(Exec(START, before), after);
  }

  // ----- a run to its end -----

  lemma {:induction false} ExecAppend(w: World, events: seq<Event>, e: Event)
    requires Feasible(w, events) && Enabled(Exec(w, events), e)
    ensures Feasible(w, events + [e]) && Exec(w, events + [e]) == Apply(Exec(w, events), e)
    decreases events
  {
    if events == [] {
      var v := Apply(w, e);
      assert events + [e] == [e] && [e][1..] == [];
      assert Feasible(v, []) && Exec(v, []) == v;
    } else {
      assert (events + [e])[1..] == events[1..] + [e];
      ExecAppend(Apply(w, events[0]), events[1..], e);
    }
  }

  ghost predicate Reachable(w: World) {
    exists events :: Feasible(START, events) && Exec(START, events) == w
  }

  lemma Reach(w: World, e: Event, v: World)
    requires Reachable(w) && Enabled(w, e) && v == Apply(w, e)
    ensures Reachable(v)
  {
    var events :| Feasible(START, events) && Exec(START, events) == w;
    ExecAppend(START, events, e);
  }

  const FIRST := Reply(0, 1, 0)

  const ASKED := NEWCLIENT.(requested := true)

  /** A world with one client, whose request got the first pipe. */
  function First(x: Client, receivers: set<nat>, service: map<nat, nat>, hand: Option<Reply>, toParent: seq<Reply>,
                 pipe: Pipe, handled: seq<(nat, nat)>): World
  {
    World([x], receivers, [0], [], 1, service, hand, toParent, [pipe], handled)
  }

  /** A client asks, and its request is forwarded. */
  lemma Asks() returns (w: World)
    ensures Reachable(w) && w == World([ASKED], {1}, [0], [0], 0, map[], None, [], [], [])
  {
    assert Feasible(START, []) && Exec(START, []) == START;
    var w1 := World([NEWCLIENT], {1}, [], [], 0, map[], None, [], [], []);
    var w2 := w1.(clients := [ASKED.(outbox := 1)]);
    w := World([ASKED], {1}, [0], [0], 0, map[], None, [], [], []);
    Reach(START, AddClient, w1) by { assert {} + {0 + 1} == {1}; }
    Reach(w1, Request(0), w2);
    Reach(w2, Forward(0), w);
  }

  /** The service answers ... */
  lemma GetsReply() returns (w: World)
    ensures Reachable(w) && w == First(ASKED, {1}, map[1 := 0], None, [FIRST], NEWPIPE, [])
  {
    var w0 := Asks();
    var w1 := First(ASKED, {1}, map[1 := 0], Some(FIRST), [], NEWPIPE, []);
    w := First(ASKED, {1}, map[1 := 0], None, [FIRST], NEWPIPE, []);
    assert w0.toService[1..] == [] && map[][1 := 0] == map[1 := 0];
    Reach(w0, Establish, w1);
    Reach(w1, SendReply, w);
  }

  /** ... the client gets the reply ... */
  lemma Receives() returns (w: World)
    ensures Reachable(w)
    ensures w == First(ASKED.(holding := Some(FIRST), received := [FIRST]), {1}, map[1 := 0], None, [], NEWPIPE, [])
  {
    var w0 := GetsReply();
    var w1 := First(ASKED.(inbox := [FIRST]), {1}, map[1 := 0], None, [], NEWPIPE, []);
    w := First(ASKED.(holding := Some(FIRST), received := [FIRST]), {1}, map[1 := 0], None, [], NEWPIPE, []);
    assert [FIRST][1..] == [] && [] + [FIRST] == [FIRST];
    Reach(w0, Relay, w1);
    Reach(w1, Receive(0), w);
  }

  lemma ClosedOne(p: Pipe)
    ensures Close([p], [FIRST]) == [p.(clientClosed := true)] && Close([p], []) == [p]
  {
    NumOne(FIRST, 0);
  }

  /** ... says Hi, which is handled ... */
  lemma SaysHi() returns (w: World)
    ensures Reachable(w)
    ensures w == First(ASKED.(holding := Some(FIRST), greeted := true, received := [FIRST]), {1}, map[1 := 0], None, [],
                       Pipe([], 1, false, true), [(1, 0)])
  {
    var w0 := Receives();
    var x := ASKED.(holding := Some(FIRST), greeted := true, received := [FIRST]);
    var w1 := First(x, {1}, map[1 := 0], None, [], Pipe([0], 1, false, true), []);
    w := First(x, {1}, map[1 := 0], None, [], Pipe([], 1, false, true), [(1, 0)]);
    assert [0][1..] == [] && [] + [0] == [0] && [] + [(1, 0)] == [(1, 0)];
    Reach(w0, Greet(0), w1);
    Reach(w1, HandleHi(1), w);
  }

  /** ... quits ... */
  lemma Quits() returns (w: World)
    ensures Reachable(w)
    ensures w == First(ASKED.(greeted := true, received := [FIRST]), {1}, map[1 := 0], None, [], Pipe([], 1, true, true), [(1, 0)])
  {
    var w0 := SaysHi();
    w := First(ASKED.(greeted := true, received := [FIRST]), {1}, map[1 := 0], None, [], Pipe([], 1, true, true), [(1, 0)]);
    ClosedOne(w0.pipes[0]);
    Reach(w0, Finish(0), w);
  }

  /** ... and nothing is left of it once it has died. */
  lemma ServedAndGone() returns (w: World)
    ensures Reachable(w) && w.handled == [(1, 0)] && |w.clients| == 1 && !w.clients[0].alive && w.service == map[] && w.receivers == {}
  {
    var w0 := Quits();
    var x := ASKED.(alive := false, greeted := true, received := [FIRST]);
    var w1 := First(x, {1}, map[1 := 0], None, [], Pipe([], 1, true, true), [(1, 0)]);
    var w2 := w1.(receivers := {});
    w := First(x, {}, map[], None, [], Pipe([], 1, true, false), [(1, 0)]);
    ClosedOne(w0.pipes[0]);
    Reach(w0, Die(0), w1);
    Reach(w1, ClientGone(0), w2);
    assert map[1 := 0] - {1} == map[];
    Reach(w2, ServiceGone(1), w);
  }

  /** The k-th request forwarded gets id k and the k-th pipe: whatever reply a client has received
      answers its own request, so no two clients share an id or a pipe. */
  lemma {:induction false} RequestsAndIds(events: seq<Event>, c: nat, d: nat, r: Reply, s: Reply)
    requires Feasible(START, events)
    requires var w := Exec(START, events);
             && c < |w.clients| && d < |w.clients| && r in w.clients[c].received && s in w.clients[d].received
    ensures var w := Exec(START, events);
            && 1 <= r.id <= |w.forwarded| && w.forwarded[r.id - 1] == c && r.pipe == r.id - 1
            && (c != d ==> r.id != s.id && r.pipe != s.pipe)
            && (c == d ==> r == s)
  {
    RunInv(events);
    assert ClientOk(Exec(START, events), c) && ClientOk(Exec(START, events), d);
  }

  lemma {:induction false} GreetingsMember(handled: seq<(nat, nat)>, h: (nat, nat))
    requires h in handled
    ensures Greetings(handled, h.0) >= 1
  {
    var n := |handled| - 1;
    if handled[n] != h {
      assert handled == handled[..n] + [handled[n]];
      GreetingsMember(handled[..n], h);
    }
  }

  /** A Hi is handled only under the id its sender received, and at most once. */
  lemma {:induction false} HiReachesItsService(events: seq<Event>, h: (nat, nat))
    requires Feasible(START, events) && h in Exec(START, events).handled
    ensures var w := Exec(START, events);
            && h.1 < |w.clients| && 1 <= h.0 && Reply(h.1, h.0, h.0 - 1) in w.clients[h.1].received
            && Greetings(w.handled, h.0) == 1
  {
    RunInv(events);
    var w := Exec(START, events);
    GreetingsMember(w.handled, h);
    assert PipeOk(w, h.0 - 1);
  }

  /** No Hi is lost: once the entry of an id is erased, the Hi sent on its pipe, if any, has been handled. */
  lemma {:induction false} HiBeforeErase(events: seq<Event>, id: nat)
    requires Feasible(START, events) && 1 <= id <= |Exec(START, events).pipes|
    ensures var w := Exec(START, events);
            && Greetings(w.handled, id) + |w.pipes[id - 1].messages| == w.pipes[id - 1].sent
            && (id !in w.service ==> Greetings(w.handled, id) == w.pipes[id - 1].sent)
  {
    RunInv(events);
    assert PipeOk(Exec(START, events), id - 1);
  }

  // ----- the two brokers themselves -----

  class ConnectionHelper {
    var clientIndex: nat
    var receivers: map<nat, nat>
    var toService: seq<nat>

    constructor ()
      ensures clientIndex == 0 && receivers == map[] && toService == []
    {
      clientIndex, receivers, toService := 0, map[], [];
    }

    /** What AddClient, the disconnect handler and EstablishChannel do to a World. */
    ghost predicate Matches(w: World)
      reads this
    {
      clientIndex == |w.clients| && receivers.Keys == w.receivers && toService == w.toService
    }

    method AddClient(client: nat, ghost w: World) returns (id: nat)
      requires Matches(w)
      modifies this
      ensures id == |w.clients| + 1 && receivers == old(receivers)[id := client]
      ensures Matches(Apply(w, Event.AddClient))
    {
      clientIndex := clientIndex + 1;
      id := clientIndex;
      receivers := receivers[id := client];
    }

    method OnClientDisconnected(id: nat, ghost w: World)
      requires Matches(w) && id >= 1 && Enabled(w, ClientGone(id - 1))
      modifies this
      ensures receivers == old(receivers) - {id} && toService == old(toService)
      ensures Matches(Apply(w, ClientGone(id - 1)))
    {
      receivers := receivers - {id};
    }

    method EstablishChannel(c: nat, ghost w: World)
      requires Matches(w) && Enabled(w, Forward(c))
      modifies this
      ensures toService == old(toService) + [c] && receivers == old(receivers)
      ensures Matches(Apply(w, Forward(c)))
    {
      toService := toService + [c];
    }
  }

  class ConnectionFactory {
    var clientId: nat
    var service: map<nat, nat>

    constructor ()
      ensures clientId == 0 && service == map[]
    {
      clientId, service := 0, map[];
    }

    ghost predicate Matches(w: World)
      reads this
    {
      clientId == w.clientId && service == w.service
    }

    /** `pipe` is the fresh message pipe; the reply carries its other end. */
    method EstablishChannel(client: nat, pipe: nat, ghost w: World) returns (reply: Reply)
      requires Matches(w) && Enabled(w, Establish) && client == w.toService[0] && pipe == |w.pipes|
      modifies this
      ensures reply.client == client && reply.pipe == pipe && reply.id == old(clientId) + 1
      ensures service == old(service)[reply.id := pipe]
      ensures Matches(Apply(w, Establish)) && Apply(w, Establish).inHand == Some(reply)
    {
      clientId := clientId + 1;
      service := service[clientId := pipe];
      reply := Reply(client, clientId, pipe);
    }

    method OnServiceDisconnected(id: nat, ghost w: World)
      requires Matches(w) && Enabled(w, ServiceGone(id))
      modifies this
      ensures service == old(service) - {id}
      ensures Matches(Apply(w, ServiceGone(id)))
    {
      service := service - {id};
    }
  }
}
