/** The registry of WebSocket clients: bounded queues that never skip a message silently. */
module Hub {
  import opened Records

  const QUEUE := 16
  const GOING_AWAY := 1001
  const POLICY_VIOLATION := 1008

  /** The messages of a history of sends which are for one account. */
  function SentTo(sends: seq<(int, string)>, account: int): seq<string> {
    if sends == [] then []
    else
      var rest, last := SentTo(sends[..|sends| - 1], account), sends[|sends| - 1];
      if last.0 == account then rest + [last.1] else rest
  }

  lemma SentToAppend(sends: seq<(int, string)>, since: nat, send: (int, string), account: int)
    requires since <= |sends|
    ensures SentTo((sends + [send])[since..], account)
         == SentTo(sends[since..], account) + if send.0 == account then [send.1] else []
  {
    assert (sends + [send])[since..] == sends[since..] + [send];
    assert (sends[since..] + [send])[..|sends[since..]|] == sends[since..];
  }

  lemma LastSend(sends: seq<(int, string)>, since: nat, account: int)
    requires since < |sends| && sends[|sends| - 1].0 == account
    ensures SentTo(sends[since..], account) == SentTo(sends[since..|sends| - 1], account) + [sends[|sends| - 1].1]
  {
    SentToAppend(sends[..|sends| - 1], since, sends[|sends| - 1], account);
    assert sends[..|sends| - 1] + [sends[|sends| - 1]] == sends;
    assert sends[..|sends| - 1][since..] == sends[since..|sends| - 1];
  }

  datatype Connection = Connection(queue: seq<string>, closed: bool, reason: int)

  /** What one message does to a client: it is queued; or the client, being too slow, is
      disconnected. For a client that is disconnected already both ends of the select are ready. */
  predicate Took(a: Connection, b: Connection, msg: string) {
    if !a.closed && |a.queue| < QUEUE then b == a.(queue := a.queue + [msg])
    else if !a.closed then b == a.(closed := true, reason := POLICY_VIOLATION)
    else b == a || (|a.queue| < QUEUE && b == a.(queue := a.queue + [msg]))
  }

  class Client {
    var queue: seq<string>
    var closed: bool
    var reason: int
    ghost const account: int
    ghost const since: nat           // the number of sends before the client registered
    ghost var received: seq<string>  // taken out of the queue so far

    constructor (ghost account: int, ghost since: nat)
      ensures this.account == account && this.since == since
      ensures queue == [] && !closed && received == []
    {
      queue, closed, reason := [], false, 0;
      this.account, this.since, received := account, since, [];
    }

    function State(): Connection
      reads this
    {
      Connection(queue, closed, reason)
    }

    /** All messages ever handed to the client. */
    ghost function Handed(): seq<string>
      reads this
    {
      received + queue
    }

    /** Only the first reason counts. */
    method Disconnect(reason: int)
      modifies this`closed, this`reason
      ensures State() == if old(closed) then old(State()) else Connection(old(queue), true, reason)
    {
      if !closed {
        this.reason := reason;
        closed := true;
      }
    }

    /** The writer takes the oldest waiting message. */
    method Receive() returns (msg: Option<string>)
      modifies this`queue, this`received
      ensures Handed() == old(Handed()) && |queue| <= |old(queue)|
      ensures msg.None? <==> old(queue) == []
      ensures msg.Some? ==> received == old(received) + [msg.value] && old(queue) == [msg.value] + queue
    {
      if |queue| == 0 { return None; }
      msg := Some(queue[0]);
      assert received + queue == received + [queue[0]] + queue[1..];
      received := received + [queue[0]];
      queue := queue[1..];
    }
  }

  /** Some element of a nonempty set. */
  method Pick<T(==)>(s: set<T>) returns (x: T)
    requires s != {}
    ensures x in s
  {
    x :| x in s;
  }

  class Registry {
    var clients: map<int, set<Client>>
    ghost var everyone: set<Client>         // ever registered
    ghost var gone: set<Client>             // unregistered since
    ghost var sends: seq<(int, string)>     // all sends so far
    ghost var pending: set<Client>          // not yet served by the send in progress

    constructor ()
      ensures Valid() && everyone == {} && gone == {} && sends == [] && pending == {}
    {
      clients, everyone, gone, sends, pending := map[], {}, {}, [], {};
    }

    /** The messages which an open client must have been handed by now. */
    ghost function Due(c: Client): seq<string>
      requires c.since <= |sends| && (c in pending ==> c.since < |sends|)
      reads this
    {
      SentTo(if c in pending then sends[c.since..|sends| - 1] else sends[c.since..], c.account)
    }

    ghost predicate Registered()
      reads this
    {
      && (forall a :: a in clients ==> clients[a] != {})
      && (forall a, c :: a in clients && c in clients[a] ==> c in everyone && c.account == a)
      && (forall c :: c in everyone ==> (c !in gone <==> c.account in clients && c in clients[c.account]))
      && gone <= everyone && pending <= everyone
    }

    ghost predicate QueueOk(c: Client)
      reads this, c
    {
      && |c.queue| <= QUEUE
      && c.since <= |sends|
      && (c in pending ==> c.since < |sends| && sends[|sends| - 1].0 == c.account)
      && (c in gone ==> c.closed)
      && (!c.closed ==> c.Handed() == Due(c))
    }

    ghost predicate Valid()
      reads this, everyone
    {
      Registered() && forall c :: c in everyone ==> QueueOk(c)
    }

    /** Every account of the registry, with its clients; none for an unknown account. */
    function Of(account: int): set<Client>
      reads this
    {
      if account in clients then clients[account] else {}
    }

    /** While a client is open it has been handed exactly what was sent to its account since it
        registered, in order, and no more than 16 messages wait. */
    lemma NoGaps(c: Client)
      requires Valid() && pending == {} && c in everyone && !c.closed
      ensures c.Handed() == SentTo(sends[c.since..], c.account)
      ensures |c.queue| <= QUEUE && c in Of(c.account)
    {
      assert QueueOk(c);
    }

    method Register(account: int) returns (cl: Client)
      requires Valid()
      modifies this`clients, this`everyone
      ensures Valid() && fresh(cl) && cl.account == account && !cl.closed && cl.queue == [] && cl.since == |sends|
      ensures everyone == old(everyone) + {cl}
      ensures clients == old(clients)[account := old(Of(account)) + {cl}]
    {
      cl := new Client(account, |sends|);
      assert sends[cl.since..] == [];
      if account !in clients { clients := clients[account := {}]; }
      clients := clients[account := clients[account] + {cl}];
      everyone := everyone + {cl};
      assert QueueOk(cl);
      assert forall c :: c in old(everyone) ==> old(QueueOk(c));
    }

    /** Delete from the nested map. */
    method Remove(account: int, cl: Client)
      requires forall a :: a in clients ==> clients[a] != {}
      modifies this`clients
      ensures forall a :: a in clients ==> clients[a] != {}
      ensures forall a :: a in clients ==>
        a in old(clients) && clients[a] == if a == account then old(clients)[a] - {cl} else old(clients)[a]
      ensures forall a :: a in old(clients) && a !in clients ==> a == account && old(clients)[a] <= {cl}
    {
      if account in clients {
        clients := clients[account := clients[account] - {cl}];
        if clients[account] == {} { clients := map a | a in clients && a != account :: clients[a]; }
      }
    }

    /** The client leaves its account, and an account without clients leaves the registry. */
    method Unregister(account: int, reason: int, cl: Client)
      requires Valid() && cl in everyone
      modifies this`clients, this`gone, cl`closed, cl`reason
      ensures Valid() && gone == old(gone) + if account == cl.account then {cl} else {}
      ensures cl.State() == if old(cl.closed) then old(cl.State()) else Connection(old(cl.queue), true, reason)
      ensures forall a :: Of(a) == if a == account then old(Of(a)) - {cl} else old(Of(a))
      ensures forall a :: Of(a) == {} ==> a !in clients
    {
      Remove(account, cl);
      if account == cl.account { gone := gone + {cl}; }
      assert Registered();
      cl.Disconnect(reason);
      assert Registered();
      forall c | c in everyone ensures QueueOk(c) {
        assert old(QueueOk(c));
      }
    }

    /** Every registered client is told to go away; they stay registered until they leave. */
    method CloseAll()
      requires Valid()
      modifies everyone`closed, everyone`reason
      ensures Valid()
      ensures forall c :: c in everyone ==>
        c.State() == if c in gone || old(c.closed) then old(c.State()) else Connection(c.queue, true, GOING_AWAY)
    {
      var accounts := clients.Keys;
      ghost var reached: set<Client> := {};
      while accounts != {}
        invariant accounts <= clients.Keys
        invariant forall a :: a in clients && a !in accounts ==> clients[a] <= reached
        invariant reached <= everyone - gone
        invariant forall c :: c in everyone ==>
          c.State() == if c !in reached || old(c.closed) then old(c.State())
                       else Connection(old(c.queue), true, GOING_AWAY)
        decreases accounts
      {
        var account := Pick(accounts);
        accounts := accounts - {account};
        CloseClients(clients[account]);
        reached := reached + clients[account];
      }
      assert forall c :: c in everyone && c !in gone ==> c in clients[c.account] && c in reached;
      assert forall c :: c in everyone ==> old(QueueOk(c));
    }

    /** The inner loop of CloseAll. */
    method CloseClients(group: set<Client>)
      modifies group`closed, group`reason
      ensures forall c :: c in group ==>
        c.State() == if old(c.closed) then old(c.State()) else Connection(c.queue, true, GOING_AWAY)
    {
      var left := group;
      while left != {}
        invariant left <= group
        invariant forall c :: c in left ==> c.State() == old(c.State())
        invariant forall c :: c in group - left ==>
          c.State() == if old(c.closed) then old(c.State()) else Connection(c.queue, true, GOING_AWAY)
        decreases left
      {
        var cl := Pick(left);
        left := left - {cl};
        cl.Disconnect(GOING_AWAY);
      }
    }

    /** The number of clients that are registered and not yet unregistered. */
    method Connections() returns (conns: nat)
      requires Valid()
      ensures conns == |everyone - gone|
    {
      conns := 0;
      var accounts := clients.Keys;
      ghost var counted: set<Client> := {};
      while accounts != {}
        invariant accounts <= clients.Keys
        invariant conns == |counted|
        invariant counted == set c | c in everyone && c !in gone && c.account !in accounts
        decreases accounts
      {
        var account := Pick(accounts);
        accounts := accounts - {account};
        assert counted !! clients[account];
        conns := conns + |clients[account]|;
        counted := counted + clients[account];
      }
      assert counted == everyone - gone;
    }

    /** A client's writer works beside the hub and needs no lock. */
    method Drain(cl: Client) returns (msg: Option<string>)
      requires Valid() && cl in everyone
      modifies cl`queue, cl`received
      ensures Valid() && cl.Handed() == old(cl.Handed())
      ensures if msg.None? then old(cl.queue) == cl.queue == [] else old(cl.queue) == [msg.value] + cl.queue
    {
      assert QueueOk(cl);
      msg := cl.Receive();
      assert forall c :: c in everyone && c != cl ==> old(QueueOk(c));
    }

    // ---------------------------------------------------------------- sending

    /** The first part of Send, under the lock: copy the account's clients. Sends are issued one
        at a time, so none is in progress. */
    method BeginSend(account: int, ghost msg: string) returns (targets: seq<Client>)
      requires Valid() && pending == {}
      modifies this`sends, this`pending
      ensures Valid() && sends == old(sends) + [(account, msg)] && pending == Of(account)
      ensures (set c | c in targets) == Of(account)
      ensures forall i, j :: 0 <= i < j < |targets| ==> targets[i] != targets[j]
    {
      targets := [];
      var left := Of(account);
      while left != {}
        invariant left <= Of(account) && sends == old(sends) && pending == old(pending)
        invariant forall c :: c in targets <==> c in Of(account) && c !in left
        invariant forall i, j :: 0 <= i < j < |targets| ==> targets[i] != targets[j]
        decreases left
      {
        var cl := Pick(left);
        left := left - {cl};
        targets := targets + [cl];
      }
      ghost var was := sends;
      sends := sends + [(account, msg)];
      pending := Of(account);
      forall c | c in everyone ensures QueueOk(c) {
        assert old(QueueOk(c));
        SentToAppend(was, c.since, (account, msg), c.account);
        assert c in pending ==> sends[c.since..|sends| - 1] == was[c.since..];
      }
    }

    /** The select for one client. On overflow the client stays pending until it is dropped. */
    method Offer(cl: Client, msg: string) returns (overflow: bool)
      requires Valid() && cl in pending && sends[|sends| - 1].1 == msg
      modifies this`pending, cl`queue
      ensures Valid() && (overflow <==> !cl.closed && |old(cl.queue)| == QUEUE)
      ensures pending == if overflow then old(pending) else old(pending) - {cl}
      ensures if overflow then cl.State() == old(cl.State()) else Took(old(cl.State()), cl.State(), msg)
    {
      assert QueueOk(cl);
      var preferQueue := *;
      overflow := false;
      if |cl.queue| < QUEUE && (preferQueue || !cl.closed) {
        Push(cl, msg);
      } else if cl.closed {
        pending := pending - {cl};
        assert forall c :: c in everyone ==> old(QueueOk(c));
      } else {
        overflow := true;
      }
    }

    /** The channel takes the message. */
    method Push(cl: Client, msg: string)
      requires Valid() && cl in pending && sends[|sends| - 1].1 == msg && |cl.queue| < QUEUE
      modifies this`pending, cl`queue
      ensures Valid() && pending == old(pending) - {cl} && cl.queue == old(cl.queue) + [msg]
    {
      assert QueueOk(cl);
      cl.queue := cl.queue + [msg];
      LastSend(sends, cl.since, cl.account);
      assert cl.received + (old(cl.queue) + [msg]) == old(cl.Handed()) + [msg];
      pending := pending - {cl};
      assert forall c :: c in everyone && c != cl ==> old(QueueOk(c));
      assert QueueOk(cl);
    }

    /** The second part for a slow client: it is unregistered rather than skipped. */
    method Drop(account: int, cl: Client)
      requires Valid() && cl in pending && account == cl.account
      modifies this`clients, this`gone, this`pending, cl`closed, cl`reason
      ensures Valid() && gone == old(gone) + {cl} && pending == old(pending) - {cl}
      ensures cl.State() == if old(cl.closed) then old(cl.State())
                            else Connection(old(cl.queue), true, POLICY_VIOLATION)
      ensures forall a :: Of(a) == if a == cl.account then old(Of(a)) - {cl} else old(Of(a))
    {
      Unregister(account, POLICY_VIOLATION, cl);
      pending := pending - {cl};
      assert forall c :: c in everyone && c != cl ==> old(QueueOk(c));
    }

    /** One client of a send: queued or disconnected. */
    method ServeClient(account: int, cl: Client, msg: string)
      requires Valid() && cl in pending && account == cl.account && sends[|sends| - 1].1 == msg
      modifies this`clients, this`gone, this`pending, cl`queue, cl`closed, cl`reason
      ensures Valid() && pending == old(pending) - {cl}
      ensures Took(old(cl.State()), cl.State(), msg)
      ensures gone == old(gone) + if !old(cl.closed) && |old(cl.queue)| == QUEUE then {cl} else {}
    {
      assert QueueOk(cl);
      var overflow := Offer(cl, msg);
      if overflow { Drop(account, cl); }
    }

    method Serve(account: int, cl: Client, msg: string, ghost start: map<Client, Connection>,
                 ghost served: set<Client>)
      requires Valid() && cl in pending && cl !in served && account == cl.account && sends[|sends| - 1].1 == msg
      requires Progress(start, served, msg)
      modifies this`clients, this`gone, this`pending, cl`queue, cl`closed, cl`reason
      ensures Valid() && pending == old(pending) - {cl}
      ensures Progress(start, served + {cl}, msg)
      ensures gone == old(gone) + Slow(start, {cl})
    {
      assert cl.State() == start[cl];
      ServeClient(account, cl, msg);
      assert Took(start[cl], cl.State(), msg);
    }

    method Send(account: int, msg: string)
      requires Valid() && pending == {}
      modifies this`clients, this`gone, this`sends, this`pending, everyone`queue, everyone`closed, everyone`reason
      ensures Valid() && pending == {} && sends == old(sends) + [(account, msg)] && everyone == old(everyone)
      ensures forall c :: c in everyone && c !in old(Of(account)) ==> c.State() == old(c.State())
      ensures forall c :: c in old(Of(account)) ==> Took(old(c.State()), c.State(), msg)
      ensures gone == old(gone) + set c | c in old(Of(account)) && !old(c.closed) && |old(c.queue)| == QUEUE
    {
      ghost var all, start := Of(account), map c | c in everyone :: c.State();
      var targets := BeginSend(account, msg);
      ServeAll(account, targets, msg, start, all);
    }

    /** The second part of Send: the copied clients one after the other, without the lock. */
    method ServeAll(account: int, targets: seq<Client>, msg: string, ghost start: map<Client, Connection>,
                    ghost all: set<Client>)
      requires Valid() && sends != [] && sends[|sends| - 1] == (account, msg)
      requires forall c :: c in pending <==> c in targets
      requires forall i, j :: 0 <= i < j < |targets| ==> targets[i] != targets[j]
      requires pending == all && Progress(start, {}, msg)
      modifies this`clients, this`gone, this`pending, everyone`queue, everyone`closed, everyone`reason
      ensures Valid() && pending == {} && Progress(start, all, msg)
      ensures gone == old(gone) + Slow(start, all)
    {
      ghost var served := {};
      for i := 0 to |targets|
        invariant Valid() && pending == all - served
        invariant forall c :: c in served <==> c in targets[..i]
        invariant Progress(start, served, msg)
        invariant gone == old(gone) + Slow(start, served)
      {
        NextTarget(targets, i);
        assert targets[i] in pending;
        assert QueueOk(targets[i]);
        Serve(account, targets[i], msg, start, served);
        served := served + {targets[i]};
      }
      assert targets[..|targets|] == targets;
      assert served == all;
    }

    /** Whatever else goes on: registered and `known` clients unregister and drain their queues, new
        ones register, or all are told to go away. */
    method Others(known: set<Client>)
      requires Valid() && known <= everyone
      modifies this`clients, this`gone, this`everyone, everyone
      ensures Valid() && sends == old(sends) && pending == old(pending)
      ensures old(everyone) <= everyone && fresh(everyone - old(everyone))
      ensures forall c :: c in old(everyone) && old(c.closed) ==> c.closed && c.reason == old(c.reason)
    {
      var steps: int := *;
      while steps > 0
        invariant Valid() && sends == old(sends) && pending == old(pending)
        invariant old(everyone) <= everyone && fresh(everyone - old(everyone))
        invariant forall c :: c in old(everyone) && old(c.closed) ==> c.closed && c.reason == old(c.reason)
      {
        steps := steps - 1;
        OneOther(known);
      }
    }

    method OneOther(known: set<Client>)
      requires Valid() && known <= everyone
      modifies this`clients, this`gone, this`everyone, everyone
      ensures Valid() && sends == old(sends) && pending == old(pending)
      ensures old(everyone) <= everyone && fresh(everyone - old(everyone))
      ensures forall c :: c in old(everyone) && old(c.closed) ==> c.closed && c.reason == old(c.reason)
    {
      var what: int, account: int, reason: int, owner: int := *, *, *, *;
      var some := if owner in clients then clients[owner] else known;
      if what == 0 {
        var cl := Register(account);
      } else if what == 1 {
        CloseAll();
      } else if some != {} {
        var cl := Pick(some);
        if what == 2 {
          Unregister(account, reason, cl);
        } else {
          var msg := Drain(cl);
        }
      }
    }

    /** Send with all this between its atomic parts. What it promises to the clients holds again
        when it is done, and reasons stay final. */
    method SendAmidOthers(account: int, msg: string)
      requires Valid() && pending == {}
      modifies this`clients, this`gone, this`everyone, this`sends, this`pending, everyone
      ensures Valid() && pending == {} && sends == old(sends) + [(account, msg)]
      ensures old(everyone) <= everyone && fresh(everyone - old(everyone))
      ensures forall c :: c in old(everyone) && old(c.closed) ==> c.closed && c.reason == old(c.reason)
    {
      var targets := BeginSend(account, msg);
      ghost var all := pending;
      ghost var served := {};
      for i := 0 to |targets|
        invariant Valid() && pending == all - served && sends == old(sends) + [(account, msg)]
        invariant forall c :: c in all <==> c in targets
        invariant forall c :: c in served <==> c in targets[..i]
        invariant forall c :: c in all ==> c in everyone && c.account == account
        invariant old(everyone) <= everyone && fresh(everyone - old(everyone))
        invariant forall c :: c in old(everyone) && old(c.closed) ==> c.closed && c.reason == old(c.reason)
      {
        NextTarget(targets, i);
        var known := set c | c in targets;
        ServeAmidOthers(account, targets[i], known, msg);
        served := served + {targets[i]};
      }
      assert targets[..|targets|] == targets;
    }

    method ServeAmidOthers(account: int, cl: Client, known: set<Client>, msg: string)
      requires Valid() && cl in pending && account == cl.account && sends[|sends| - 1].1 == msg && known <= everyone
      modifies this`clients, this`gone, this`everyone, this`pending, everyone
      ensures Valid() && pending == old(pending) - {cl} && sends == old(sends)
      ensures old(everyone) <= everyone && fresh(everyone - old(everyone))
      ensures forall c :: c in old(everyone) && old(c.closed) ==> c.closed && c.reason == old(c.reason)
    {
      Others(known);
      var overflow := Offer(cl, msg);
      Others(known);
      if overflow { Drop(account, cl); }
    }

    /** The clients of `served` have taken the message, the others are as they were. */
    ghost predicate Progress(start: map<Client, Connection>, served: set<Client>, msg: string)
      reads this, everyone
    {
      && start.Keys == everyone
      && forall c :: c in everyone ==> if c in served then Took(start[c], c.State(), msg) else c.State() == start[c]
    }
  }

  lemma NextTarget(targets: seq<Client>, i: nat)
    requires i < |targets| && forall k, m :: 0 <= k < m < |targets| ==> targets[k] != targets[m]
    ensures targets[i] !in targets[..i]
    ensures forall c :: c in targets[..i + 1] <==> c in targets[..i] || c == targets[i]
  {
    assert targets[..i + 1] == targets[..i] + [targets[i]];
  }

  /** The clients whose queue is full although they are connected. */
  ghost function Slow(start: map<Client, Connection>, among: set<Client>): set<Client> {
    set c | c in among && c in start && !start[c].closed && |start[c].queue| == QUEUE
  }
}
