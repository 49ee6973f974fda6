/** The object graph of the server: clients and channels that point at each other, the fd index
    and the case-folded nickname index (src/c/Client.cpp, src/c/Channel.cpp,
    src/c/ClientRegistry.cpp, src/c/ServerState.cpp).

    Objects live in an explicit store, address to record: `new` picks an unused address, `delete`
    removes one and an address may be used again later. Following a pointer is a lookup that
    Dafny only accepts when the address is live, so every method here is free of
    use-after-free. `Abs` reads the graph as a plain Model.State. */
module ServerGraph {
  import opened IrcText
  import opened Modes
  import opened Sealing
  import M = Model

  type Ptr = nat

  const NULL: Ptr := 0

  datatype Client = Client(
    fd: int, host: string, nick: string, username: string, realname: string,
    passOk: bool, registered: bool, channels: set<Ptr>)
  {
    function Abs(): M.Client { M.Client(nick, username, realname, host, passOk, registered) }
  }

  /** `members` maps to the operator flag. */
  datatype Channel = Channel(name: string, topic: string, members: map<Ptr, bool>, invited: set<Ptr>,
                             modes: ChannelModes)
  {
    predicate IsOperator(p: Ptr) { p in members && members[p] }

    function AddMember(p: Ptr): Channel { this.(members := members[p := false], invited := invited - {p}) }

    function RemoveClientState(p: Ptr): Channel { this.(members := members - {p}, invited := invited - {p}) }

    function SetOperator(p: Ptr, flag: bool): Channel {
      if p in members then this.(members := members[p := flag]) else this
    }
  }

  /** A channel as the model sees it: pointers replaced by the fds that lead to them. */
  function AbsChannel(fdToClient: map<int, Ptr>, ch: Channel): M.Channel {
    M.Channel(ch.name, ch.topic,
      (set f | f in fdToClient && fdToClient[f] in ch.members),
      (set f | f in fdToClient && ch.IsOperator(fdToClient[f])),
      (set f | f in fdToClient && fdToClient[f] in ch.invited),
      ch.modes)
  }

  ghost predicate ClientsIndexed(store: map<Ptr, Client>, fdToClient: map<int, Ptr>) {
    (forall f <- fdToClient :: fdToClient[f] in store && store[fdToClient[f]].fd == f) &&
    (forall p <- store :: store[p].fd in fdToClient && fdToClient[store[p].fd] == p)
  }

  ghost predicate ChannelsIndexed(store: map<Ptr, Channel>, channels: map<string, Ptr>) {
    (forall k <- channels :: channels[k] in store && Fold(store[channels[k]].name) == k) &&
    (forall q <- store :: Fold(store[q].name) in channels && channels[Fold(store[q].name)] == q)
  }

  function AbsClients(store: map<Ptr, Client>, fdToClient: map<int, Ptr>): map<int, M.Client> {
    map f | f in fdToClient && fdToClient[f] in store :: store[fdToClient[f]].Abs()
  }

  function AbsChannels(fdToClient: map<int, Ptr>, store: map<Ptr, Channel>, channels: map<string, Ptr>)
    : map<string, M.Channel>
  {
    map k | k in channels && channels[k] in store :: AbsChannel(fdToClient, store[channels[k]])
  }

  lemma SameClients(store: map<Ptr, Client>, fdToClient: map<int, Ptr>, p: Ptr, c: Client)
    requires forall f <- fdToClient :: fdToClient[f] in store
    requires p in store && c.Abs() == store[p].Abs()
    ensures AbsClients(store[p := c], fdToClient) == AbsClients(store, fdToClient)
  {
  }

  lemma ClientInserted(store: map<Ptr, Client>, fdToClient: map<int, Ptr>, fd: int, p: Ptr, c: Client)
    requires forall f <- fdToClient :: fdToClient[f] in store
    requires p !in store
    ensures AbsClients(store[p := c], fdToClient[fd := p]) == AbsClients(store, fdToClient)[fd := c.Abs()]
  {
    assert forall f <- fdToClient :: fdToClient[f] != p;
  }

  lemma ChannelsPut(fdToClient: map<int, Ptr>, store: map<Ptr, Channel>, channels: map<string, Ptr>, k: string,
                    q: Ptr, ch: Channel)
    requires forall j <- channels :: channels[j] in store
    requires forall j <- channels :: j != k ==> channels[j] != q
    ensures AbsChannels(fdToClient, store[q := ch], channels[k := q]) ==
            AbsChannels(fdToClient, store, channels)[k := AbsChannel(fdToClient, ch)]
  {
    var store', channels' := store[q := ch], channels[k := q];
    assert forall j <- channels' :: store'[channels'[j]] == if j == k then ch else store[channels[j]];
  }

  lemma ChannelsRemoved(fdToClient: map<int, Ptr>, store: map<Ptr, Channel>, channels: map<string, Ptr>, k: string,
                        q: Ptr)
    requires forall j <- channels :: channels[j] in store
    requires forall j <- channels :: j != k ==> channels[j] != q
    ensures AbsChannels(fdToClient, store - {q}, channels - {k}) == AbsChannels(fdToClient, store, channels) - {k}
  {
  }

  datatype Graph = Graph(
    clientStore: map<Ptr, Client>, channelStore: map<Ptr, Channel>,
    fdToClient: map<int, Ptr>, nickToClient: map<string, Ptr>, channels: map<string, Ptr>)
  {
    /** The indexes and the stores hold the same objects: nothing dangles, nothing leaks. */
    ghost predicate Indexed() {
      NULL !in clientStore && NULL !in channelStore &&
      ClientsIndexed(clientStore, fdToClient) && ChannelsIndexed(channelStore, channels)
    }

    /** The nickname index agrees with a scan of the clients. */
    ghost predicate NickIndexed() {
      (forall p <- clientStore :: clientStore[p].nick != "" ==>
        Fold(clientStore[p].nick) in nickToClient && nickToClient[Fold(clientStore[p].nick)] == p) &&
      (forall k <- nickToClient :: nickToClient[k] in clientStore &&
        clientStore[nickToClient[k]].nick != "" && Fold(clientStore[nickToClient[k]].nick) == k)
    }

    /** Both sides of every membership are recorded and refer to live objects, no channel is
        empty, and nobody is invited where it is a member. */
    ghost predicate Linked() { Populated() && Mutual() }

    ghost predicate Populated() { forall q <- channelStore :: channelStore[q].members != map[] }

    ghost predicate Mutual() {
      (forall q, p :: q in channelStore && p in channelStore[q].members ==>
        p in clientStore && q in clientStore[p].channels) &&
      (forall q, p :: q in channelStore && p in channelStore[q].invited ==>
        p in clientStore && p !in channelStore[q].members) &&
      (forall p, q :: p in clientStore && q in clientStore[p].channels ==>
        q in channelStore && p in channelStore[q].members)
    }

    ghost predicate Valid() { Indexed() && NickIndexed() && Linked() }

    function Abs(password: string): M.State {
      M.State(password, AbsClients(clientStore, fdToClient), AbsChannels(fdToClient, channelStore, channels))
    }
  }

  /** `Valid` for callers that only pass it on; `Open` gives its content to those that need it. */
  ghost predicate Consistent(g: Graph) { forall key: Key :: Turned(key, g) ==> g.Valid() }

  lemma Open(g: Graph)
    requires Consistent(g)
    ensures g.Valid()
  {
    assert Turned(Key, g);
  }

  // ----- Reading the graph ------------------------------------------------------------------

  lemma HoldersAreIndexed(g: Graph, password: string, nick: string)
    requires Consistent(g)
    ensures Fold(nick) in g.nickToClient ==>
              g.nickToClient[Fold(nick)] in g.clientStore && g.nickToClient[Fold(nick)] != NULL
    ensures M.Holders(g.Abs(password), nick) ==
            if Fold(nick) in g.nickToClient then {g.clientStore[g.nickToClient[Fold(nick)]].fd} else {}
  {
    Open(g);
    var s := g.Abs(password);
    forall f | f in M.Holders(s, nick)
      ensures Fold(nick) in g.nickToClient && f == g.clientStore[g.nickToClient[Fold(nick)]].fd
    {
      assert s.clients[f] == g.clientStore[g.fdToClient[f]].Abs();
    }
    if Fold(nick) in g.nickToClient {
      var p := g.nickToClient[Fold(nick)];
      assert s.clients[g.clientStore[p].fd] == g.clientStore[p].Abs();
    }
  }

  function FdsOf(fdToClient: map<int, Ptr>, ptrs: set<Ptr>): set<int> {
    set f | f in fdToClient && fdToClient[f] in ptrs
  }

  lemma {:induction false} FdsCount(g: Graph, ptrs: set<Ptr>)
    requires g.Indexed() && ptrs <= g.clientStore.Keys
    ensures |FdsOf(g.fdToClient, ptrs)| == |ptrs|
    decreases ptrs
  {
    if ptrs == {} {
      assert FdsOf(g.fdToClient, ptrs) == {};
    } else {
      var p :| p in ptrs;
      FdsCount(g, ptrs - {p});
      assert p in g.clientStore && g.fdToClient[g.clientStore[p].fd] == p;
      var fd, all, rest := g.clientStore[p].fd, FdsOf(g.fdToClient, ptrs), FdsOf(g.fdToClient, ptrs - {p});
      assert forall f :: f in all <==> f in rest || f == fd;
      assert all == rest + {fd} && fd !in rest;
    }
  }

  lemma MemberCount(g: Graph, q: Ptr)
    requires Consistent(g) && q in g.channelStore
    ensures |g.channelStore[q].members| == |AbsChannel(g.fdToClient, g.channelStore[q]).members|
  {
    Open(g);
    var ch := g.channelStore[q];
    FdsCount(g, ch.members.Keys);
    assert FdsOf(g.fdToClient, ch.members.Keys) == AbsChannel(g.fdToClient, ch).members;
  }

  lemma ByFd(g: Graph, f: int)
    requires Consistent(g) && f in g.fdToClient
    ensures g.fdToClient[f] != NULL && g.fdToClient[f] in g.clientStore && g.clientStore[g.fdToClient[f]].fd == f
  {
    Open(g);
  }

  lemma ByName(g: Graph, k: string)
    requires Consistent(g) && k in g.channels
    ensures g.channels[k] != NULL && g.channels[k] in g.channelStore && Fold(g.channelStore[g.channels[k]].name) == k
  {
    Open(g);
  }

  lemma NameOf(g: Graph, q: Ptr)
    requires Consistent(g) && q in g.channelStore
    ensures q != NULL && Fold(g.channelStore[q].name) in g.channels && g.channels[Fold(g.channelStore[q].name)] == q
    ensures g.channelStore[q].members != map[]
  {
    Open(g);
  }

  /** Membership, operator status and invitations read the same on both levels. */
  lemma MemberFacts(g: Graph, p: Ptr, q: Ptr)
    requires Consistent(g) && p in g.clientStore && q in g.channelStore
    ensures var ch, a, fd := g.channelStore[q], AbsChannel(g.fdToClient, g.channelStore[q]), g.clientStore[p].fd;
            (p in ch.members <==> fd in a.members) && (ch.IsOperator(p) <==> fd in a.ops) &&
            (p in ch.invited <==> fd in a.invited)
  {
    Open(g);
  }

  // ----- Writing one object -----------------------------------------------------------------

  function PutClient(g: Graph, p: Ptr, c: Client): Graph { g.(clientStore := g.clientStore[p := c]) }

  function PutChannel(g: Graph, q: Ptr, ch: Channel): Graph { g.(channelStore := g.channelStore[q := ch]) }

  lemma PutClientIndexed(g: Graph, p: Ptr, c: Client)
    requires g.Indexed() && p in g.clientStore && c.fd == g.clientStore[p].fd
    ensures PutClient(g, p, c).Indexed()
  {
  }

  lemma PutClientNicks(g: Graph, p: Ptr, c: Client)
    requires g.NickIndexed() && p in g.clientStore && c.nick == g.clientStore[p].nick
    ensures PutClient(g, p, c).NickIndexed()
  {
  }

  lemma PutClientLinked(g: Graph, p: Ptr, c: Client)
    requires g.Linked() && p in g.clientStore && c.channels == g.clientStore[p].channels
    ensures PutClient(g, p, c).Linked()
  {
  }

  lemma PutClientAbs(g: Graph, password: string, p: Ptr, c: Client)
    requires g.Indexed() && p in g.clientStore && c.fd == g.clientStore[p].fd
    ensures PutClient(g, p, c).Abs(password) == M.WithClient(g.Abs(password), c.fd, c.Abs())
  {
    assert AbsClients(g.clientStore[p := c], g.fdToClient) ==
      AbsClients(g.clientStore, g.fdToClient)[c.fd := c.Abs()] by {
      assert forall f <- g.fdToClient :: g.fdToClient[f] == p <==> f == c.fd;
    }
  }

  lemma PutClientKeeps(g: Graph, password: string, p: Ptr, c: Client)
    requires Consistent(g) && p in g.clientStore
    requires var was := g.clientStore[p]; c.fd == was.fd && c.nick == was.nick && c.channels == was.channels
    ensures Consistent(PutClient(g, p, c))
    ensures PutClient(g, p, c).Abs(password) == M.WithClient(g.Abs(password), c.fd, c.Abs())
  {
    Open(g);
    PutClientIndexed(g, p, c);
    PutClientNicks(g, p, c);
    PutClientLinked(g, p, c);
    PutClientAbs(g, password, p, c);
  }

  lemma PutChannelIndexed(g: Graph, q: Ptr, ch: Channel)
    requires g.Indexed() && q in g.channelStore && ch.name == g.channelStore[q].name
    ensures PutChannel(g, q, ch).Indexed()
  {
  }

  lemma PutChannelLinked(g: Graph, q: Ptr, ch: Channel)
    requires g.Linked() && q in g.channelStore
    requires ch.members != map[] && forall p :: p in ch.members <==> p in g.channelStore[q].members
    requires forall p <- ch.invited :: p in g.clientStore && p !in ch.members
    ensures PutChannel(g, q, ch).Linked()
  {
    PutChannelMutual(g, q, ch);
  }

  lemma PutChannelMutual(g: Graph, q: Ptr, ch: Channel)
    requires g.Mutual() && q in g.channelStore
    requires forall p :: p in ch.members <==> p in g.channelStore[q].members
    requires forall p <- ch.invited :: p in g.clientStore && p !in ch.members
    ensures PutChannel(g, q, ch).Mutual()
  {
  }

  lemma PutChannelAbs(g: Graph, password: string, q: Ptr, ch: Channel)
    requires g.Indexed() && q in g.channelStore && ch.name == g.channelStore[q].name
    ensures PutChannel(g, q, ch).Abs(password) == M.WithChannel(g.Abs(password), ch.name, AbsChannel(g.fdToClient, ch))
  {
    var k := Fold(ch.name);
    assert g.channels[k := q] == g.channels;
    ChannelsPut(g.fdToClient, g.channelStore, g.channels, k, q, ch);
  }

  /** A channel record may be replaced as long as the same clients are members and every invited
      client is live and not a member. */
  lemma PutChannelKeeps(g: Graph, password: string, q: Ptr, ch: Channel)
    requires Consistent(g) && q in g.channelStore && ch.name == g.channelStore[q].name
    requires ch.members != map[] && forall p :: p in ch.members <==> p in g.channelStore[q].members
    requires forall p <- ch.invited :: p in g.clientStore && p !in ch.members
    ensures Consistent(PutChannel(g, q, ch))
    ensures PutChannel(g, q, ch).Abs(password) == M.WithChannel(g.Abs(password), ch.name, AbsChannel(g.fdToClient, ch))
  {
    Open(g);
    PutChannelIndexed(g, q, ch);
    PutChannelLinked(g, q, ch);
    PutChannelAbs(g, password, q, ch);
  }

  // ----- Accepting a client -----------------------------------------------------------------

  function InsertClient(g: Graph, p: Ptr, c: Client): Graph {
    g.(clientStore := g.clientStore[p := c], fdToClient := g.fdToClient[c.fd := p])
  }

  /** A fresh address is in nobody's member or invite list, even if it was used before. */
  lemma FreshIsForeign(g: Graph, fd: int, p: Ptr, ch: Channel)
    requires fd !in g.fdToClient && p !in ch.members && p !in ch.invited
    ensures AbsChannel(g.fdToClient[fd := p], ch) == AbsChannel(g.fdToClient, ch)
  {
    var a, b := AbsChannel(g.fdToClient[fd := p], ch), AbsChannel(g.fdToClient, ch);
    assert a.members == b.members && a.ops == b.ops && a.invited == b.invited;
  }

  lemma InsertClientKeeps(g: Graph, password: string, p: Ptr, c: Client)
    requires Consistent(g) && p != NULL && p !in g.clientStore && c.fd !in g.fdToClient
    requires c.nick == "" && c.channels == {}
    ensures Consistent(InsertClient(g, p, c))
    ensures InsertClient(g, p, c).Abs(password) == M.WithClient(g.Abs(password), c.fd, c.Abs())
  {
    Open(g);
    InsertClientIndexed(g, p, c);
    InsertClientLinked(g, p, c);
    assert InsertClient(g, p, c).NickIndexed();
    InsertClientAbs(g, password, p, c);
  }

  lemma InsertClientIndexed(g: Graph, p: Ptr, c: Client)
    requires g.Indexed() && p != NULL && p !in g.clientStore && c.fd !in g.fdToClient
    ensures InsertClient(g, p, c).Indexed()
  {
  }

  lemma InsertClientLinked(g: Graph, p: Ptr, c: Client)
    requires g.Linked() && p !in g.clientStore && c.channels == {}
    ensures InsertClient(g, p, c).Linked()
  {
  }

  lemma InsertClientAbs(g: Graph, password: string, p: Ptr, c: Client)
    requires g.Indexed() && g.Linked() && p !in g.clientStore && c.fd !in g.fdToClient
    ensures InsertClient(g, p, c).Abs(password) == M.WithClient(g.Abs(password), c.fd, c.Abs())
  {
    ClientInserted(g.clientStore, g.fdToClient, c.fd, p, c);
    StrangerUnseen(g, c.fd, p);
  }

  lemma StrangerUnseen(g: Graph, fd: int, p: Ptr)
    requires g.Linked() && p !in g.clientStore && fd !in g.fdToClient
    requires forall k <- g.channels :: g.channels[k] in g.channelStore
    ensures AbsChannels(g.fdToClient[fd := p], g.channelStore, g.channels) ==
            AbsChannels(g.fdToClient, g.channelStore, g.channels)
  {
    forall k | k in g.channels
      ensures AbsChannel(g.fdToClient[fd := p], g.channelStore[g.channels[k]]) ==
              AbsChannel(g.fdToClient, g.channelStore[g.channels[k]])
    {
      FreshIsForeign(g, fd, p, g.channelStore[g.channels[k]]);
    }
  }

  // ----- Joining ----------------------------------------------------------------------------

  function Link(g: Graph, p: Ptr, q: Ptr, ch: Channel): Graph
    requires p in g.clientStore
  {
    var c := g.clientStore[p];
    g.(channelStore := g.channelStore[q := ch],
       clientStore := g.clientStore[p := c.(channels := c.channels + {q})],
       channels := g.channels[Fold(ch.name) := q])
  }

  lemma LinkValid(g: Graph, p: Ptr, q: Ptr, ch: Channel)
    requires g.Valid() && p in g.clientStore && q != NULL
    requires q in g.channelStore ==> ch.name == g.channelStore[q].name
    requires q !in g.channelStore ==> Fold(ch.name) !in g.channels
    requires forall r :: r in ch.members <==> r == p || (q in g.channelStore && r in g.channelStore[q].members)
    requires forall r <- ch.invited :: r in g.clientStore && r !in ch.members
    ensures Link(g, p, q, ch).Valid()
  {
    var g' := Link(g, p, q, ch);
    assert g'.Indexed() by { LinkIndexed(g, p, q, ch); }
    assert g'.NickIndexed();
    assert p in ch.members;
    assert g'.Linked() by { LinkLinked(g, p, q, ch); }
  }

  lemma LinkIndexed(g: Graph, p: Ptr, q: Ptr, ch: Channel)
    requires g.Indexed() && p in g.clientStore && q != NULL
    requires q in g.channelStore ==> ch.name == g.channelStore[q].name
    requires q !in g.channelStore ==> Fold(ch.name) !in g.channels
    ensures Link(g, p, q, ch).Indexed()
  {
  }

  lemma LinkLinked(g: Graph, p: Ptr, q: Ptr, ch: Channel)
    requires g.Linked() && p in g.clientStore && p in ch.members
    requires forall r :: r in ch.members <==> r == p || (q in g.channelStore && r in g.channelStore[q].members)
    requires forall r <- ch.invited :: r in g.clientStore && r !in ch.members
    ensures Link(g, p, q, ch).Linked()
  {
  }

  lemma LinkAbs(g: Graph, password: string, p: Ptr, q: Ptr, ch: Channel)
    requires g.Indexed() && p in g.clientStore
    requires q in g.channelStore ==> ch.name == g.channelStore[q].name
    ensures Link(g, p, q, ch).Abs(password) == M.WithChannel(g.Abs(password), ch.name, AbsChannel(g.fdToClient, ch))
  {
    var c := g.clientStore[p];
    SameClients(g.clientStore, g.fdToClient, p, c.(channels := c.channels + {q}));
    ChannelsPut(g.fdToClient, g.channelStore, g.channels, Fold(ch.name), q, ch);
  }

  /** Entering an existing channel as an ordinary member. */
  lemma EnterAbs(g: Graph, p: Ptr, ch: Channel)
    requires g.Indexed() && p in g.clientStore && p !in ch.members
    ensures var a, fd := AbsChannel(g.fdToClient, ch), g.clientStore[p].fd;
            AbsChannel(g.fdToClient, ch.AddMember(p)) == a.(members := a.members + {fd}, invited := a.invited - {fd}) &&
            fd !in a.members
  {
    var a, b, fd := AbsChannel(g.fdToClient, ch), AbsChannel(g.fdToClient, ch.AddMember(p)), g.clientStore[p].fd;
    assert forall f <- g.fdToClient :: g.fdToClient[f] == p <==> f == fd;
    assert b.members == a.members + {fd};
    assert b.ops == a.ops;
    assert b.invited == a.invited - {fd};
  }

  /** Founding a channel: alone, and its operator. */
  lemma FoundAbs(g: Graph, p: Ptr, name: string)
    requires g.Indexed() && p in g.clientStore
    ensures var fd := g.clientStore[p].fd;
            AbsChannel(g.fdToClient, Channel(name, "", map[p := true], {}, NO_MODES)) ==
            M.Channel(name, "", {fd}, {fd}, {}, NO_MODES)
  {
    var fd, b := g.clientStore[p].fd, AbsChannel(g.fdToClient, Channel(name, "", map[p := true], {}, NO_MODES));
    assert forall f <- g.fdToClient :: g.fdToClient[f] == p <==> f == fd;
    assert b.members == {fd} && b.ops == {fd} && b.invited == {};
  }

  // ----- Leaving ----------------------------------------------------------------------------

  /** Both sides of a membership are dropped, and the channel with its last member. */
  function Unlink(g: Graph, p: Ptr, q: Ptr): Graph
    requires p in g.clientStore && q in g.channelStore
  {
    var c, ch := g.clientStore[p], g.channelStore[q].RemoveClientState(p);
    var g' := g.(clientStore := g.clientStore[p := c.(channels := c.channels - {q})]);
    if ch.members == map[] then
      g'.(channelStore := g.channelStore - {q}, channels := g.channels - {Fold(ch.name)})
    else g'.(channelStore := g.channelStore[q := ch])
  }

  lemma UnlinkIndexed(g: Graph, p: Ptr, q: Ptr)
    requires g.Indexed() && p in g.clientStore && q in g.channelStore
    ensures Unlink(g, p, q).Indexed()
  {
    ChannelGone(g.channelStore, g.channels, q);
    ChannelChanged(g.channelStore, g.channels, q, g.channelStore[q].RemoveClientState(p));
    ClientChanged(g.clientStore, g.fdToClient, p, g.clientStore[p].(channels := g.clientStore[p].channels - {q}));
  }

  lemma ClientChanged(store: map<Ptr, Client>, fdToClient: map<int, Ptr>, p: Ptr, c: Client)
    requires ClientsIndexed(store, fdToClient) && p in store && c.fd == store[p].fd
    ensures ClientsIndexed(store[p := c], fdToClient)
  {
  }

  lemma ChannelChanged(store: map<Ptr, Channel>, channels: map<string, Ptr>, q: Ptr, ch: Channel)
    requires ChannelsIndexed(store, channels) && q in store && ch.name == store[q].name
    ensures ChannelsIndexed(store[q := ch], channels)
  {
  }

  lemma ChannelGone(store: map<Ptr, Channel>, channels: map<string, Ptr>, q: Ptr)
    requires ChannelsIndexed(store, channels) && q in store
    ensures ChannelsIndexed(store - {q}, channels - {Fold(store[q].name)})
  {
  }

  lemma AloneEmpty(members: map<Ptr, bool>, p: Ptr)
    requires p in members
    ensures members - {p} == map[] <==> forall r <- members :: r == p
  {
    assert forall r <- members :: r != p ==> r in members - {p};
  }

  lemma UnlinkLinked(g: Graph, p: Ptr, q: Ptr)
    requires g.Linked() && p in g.clientStore && q in g.channelStore && p in g.channelStore[q].members
    ensures Unlink(g, p, q).Linked()
  {
    var ch := g.channelStore[q];
    AloneEmpty(ch.members, p);
    if ch.members - {p} == map[] { UnlinkLast(g, p, q); } else { UnlinkSome(g, p, q); }
  }

  lemma UnlinkLast(g: Graph, p: Ptr, q: Ptr)
    requires g.Linked() && p in g.clientStore && q in g.channelStore
    requires g.channelStore[q].members - {p} == map[] && forall r <- g.channelStore[q].members :: r == p
    ensures Unlink(g, p, q).Linked()
  {
  }

  lemma UnlinkSome(g: Graph, p: Ptr, q: Ptr)
    requires g.Linked() && p in g.clientStore && q in g.channelStore
    requires g.channelStore[q].members - {p} != map[]
    ensures Unlink(g, p, q).Linked()
  {
  }

  lemma UnlinkValid(g: Graph, p: Ptr, q: Ptr)
    requires g.Valid() && p in g.clientStore && q in g.channelStore && p in g.channelStore[q].members
    ensures Unlink(g, p, q).Valid()
  {
    assert Unlink(g, p, q).Indexed() by { UnlinkIndexed(g, p, q); }
    assert Unlink(g, p, q).NickIndexed() by { UnlinkNicks(g, p, q); }
    assert Unlink(g, p, q).Linked() by { UnlinkLinked(g, p, q); }
  }

  lemma UnlinkNicks(g: Graph, p: Ptr, q: Ptr)
    requires g.NickIndexed() && p in g.clientStore && q in g.channelStore
    ensures Unlink(g, p, q).NickIndexed()
  {
    SameNicks(g, Unlink(g, p, q));
  }

  lemma SameNicks(g: Graph, g': Graph)
    requires g.NickIndexed() && g'.nickToClient == g.nickToClient && g'.clientStore.Keys == g.clientStore.Keys
    requires forall r <- g.clientStore :: g'.clientStore[r].nick == g.clientStore[r].nick
    ensures g'.NickIndexed()
  {
  }

  lemma StripAbs(g: Graph, p: Ptr, ch: Channel)
    requires g.Indexed() && p in g.clientStore
    ensures AbsChannel(g.fdToClient, ch.RemoveClientState(p)) ==
            M.Strip(AbsChannel(g.fdToClient, ch), g.clientStore[p].fd)
  {
    var fd := g.clientStore[p].fd;
    var a, b := AbsChannel(g.fdToClient, ch.RemoveClientState(p)), M.Strip(AbsChannel(g.fdToClient, ch), fd);
    assert forall f <- g.fdToClient :: g.fdToClient[f] == p <==> f == fd;
    assert a.members == b.members && a.ops == b.ops && a.invited == b.invited;
  }

  lemma AloneAbs(g: Graph, p: Ptr, ch: Channel)
    requires g.Indexed() && p in g.clientStore && p in ch.members
    requires forall r <- ch.members :: r in g.clientStore
    ensures ch.members - {p} == map[] <==> AbsChannel(g.fdToClient, ch).members == {g.clientStore[p].fd}
  {
    var fd, fds := g.clientStore[p].fd, AbsChannel(g.fdToClient, ch).members;
    AloneEmpty(ch.members, p);
    assert fd in fds;
    if fds == {fd} {
      forall r | r in ch.members ensures r == p {
        assert g.clientStore[r].fd in fds;
      }
    }
    if forall r <- ch.members :: r == p {
      assert forall f <- fds :: g.fdToClient[f] == p && f == fd;
    }
  }

  lemma UnlinkAbs(g: Graph, password: string, p: Ptr, q: Ptr)
    requires g.Indexed() && p in g.clientStore && q in g.channelStore && p in g.channelStore[q].members
    requires forall r <- g.channelStore[q].members :: r in g.clientStore
    ensures Unlink(g, p, q).Abs(password) ==
            M.RemoveMember(g.Abs(password), g.clientStore[p].fd, g.channelStore[q].name)
  {
    var c, ch, s := g.clientStore[p], g.channelStore[q], g.Abs(password);
    var k := Fold(ch.name);
    assert s.channels[k] == AbsChannel(g.fdToClient, ch);
    assert c.fd in s.channels[k].members;
    assert M.RemoveMember(s, c.fd, ch.name).channels ==
           if s.channels[k].members == {c.fd} then s.channels - {k} else s.channels[k := M.Strip(s.channels[k], c.fd)];
    assert Unlink(g, p, q).Abs(password).clients == s.clients by {
      SameClients(g.clientStore, g.fdToClient, p, c.(channels := c.channels - {q}));
    }
    assert ch.members - {p} == map[] <==> s.channels[k].members == {c.fd} by { AloneAbs(g, p, ch); }
    UnlinkChannelsAbs(g, p, q);
  }

  lemma UnlinkChannelsAbs(g: Graph, p: Ptr, q: Ptr)
    requires g.Indexed() && p in g.clientStore && q in g.channelStore
    ensures var ch, g' := g.channelStore[q], Unlink(g, p, q);
            var k, all := Fold(ch.name), AbsChannels(g.fdToClient, g.channelStore, g.channels);
            AbsChannels(g.fdToClient, g'.channelStore, g'.channels) ==
            if ch.members - {p} == map[] then all - {k}
            else all[k := M.Strip(AbsChannel(g.fdToClient, ch), g.clientStore[p].fd)]
  {
    var ch := g.channelStore[q];
    var k := Fold(ch.name);
    StripAbs(g, p, ch);
    if ch.members - {p} == map[] {
      ChannelsRemoved(g.fdToClient, g.channelStore, g.channels, k, q);
    } else {
      assert g.channels[k := q] == g.channels;
      ChannelsPut(g.fdToClient, g.channelStore, g.channels, k, q, ch.RemoveClientState(p));
    }
  }

  // ----- Renaming ---------------------------------------------------------------------------

  function Renamed(g: Graph, p: Ptr, nick: string): Graph
    requires p in g.clientStore
  {
    var c := g.clientStore[p];
    g.(clientStore := g.clientStore[p := c.(nick := nick)],
       nickToClient := (g.nickToClient - {Fold(c.nick)})[Fold(nick) := p])
  }

  lemma RenamedNicks(g: Graph, p: Ptr, nick: string)
    requires g.NickIndexed() && p in g.clientStore && nick != ""
    requires Fold(nick) in g.nickToClient ==> g.nickToClient[Fold(nick)] == p
    ensures Renamed(g, p, nick).NickIndexed()
  {
  }

  lemma RenamedIndexed(g: Graph, p: Ptr, nick: string)
    requires g.Indexed() && p in g.clientStore
    ensures Renamed(g, p, nick).Indexed()
  {
  }

  lemma RenamedLinked(g: Graph, p: Ptr, nick: string)
    requires g.Linked() && p in g.clientStore
    ensures Renamed(g, p, nick).Linked()
  {
  }

  lemma RenamedValid(g: Graph, p: Ptr, nick: string)
    requires g.Valid() && p in g.clientStore && nick != ""
    requires Fold(nick) in g.nickToClient ==> g.nickToClient[Fold(nick)] == p
    ensures Renamed(g, p, nick).Valid()
  {
    RenamedIndexed(g, p, nick);
    RenamedNicks(g, p, nick);
    RenamedLinked(g, p, nick);
  }

  /** A rename keeps the graph, unless it is to the empty nickname, which the index cannot hold. */
  lemma RenamedKeeps(g: Graph, password: string, p: Ptr, nick: string)
    requires Consistent(g) && p in g.clientStore
    requires Fold(nick) in g.nickToClient ==> g.nickToClient[Fold(nick)] == p
    ensures Consistent(Renamed(g, p, nick)) <==> nick != ""
    ensures Renamed(g, p, nick).Abs(password) ==
            M.WithClient(g.Abs(password), g.clientStore[p].fd, g.clientStore[p].Abs().(nick := nick))
  {
    if nick != "" {
      assert Renamed(g, p, nick).Valid() by {
        Open(g);
        RenamedValid(g, p, nick);
      }
    } else {
      NoEmptyNick(g, p);
    }
    assert g.Indexed() by { Open(g); }
    PutClientAbs(g, password, p, g.clientStore[p].(nick := nick));
  }

  lemma NoEmptyNick(g: Graph, p: Ptr)
    requires p in g.clientStore
    ensures !Consistent(Renamed(g, p, ""))
  {
    var g' := Renamed(g, p, "");
    assert Fold("") in g'.nickToClient && g'.nickToClient[Fold("")] == p && g'.clientStore[p].nick == "";
    if Consistent(g') { Open(g'); }
  }

  // ----- Removing a client ------------------------------------------------------------------

  /** `fd` has left the channels in `done` and is still on the others. */
  ghost function PartErased(s: M.State, fd: int, done: set<string>): M.State {
    s.(channels := map k | k in s.channels && !(k in done && s.channels[k].members == {fd}) ::
         if k in done then M.Strip(s.channels[k], fd) else s.channels[k])
  }

  lemma PartErasedNone(s: M.State, fd: int)
    ensures PartErased(s, fd, {}) == s
  {
    assert PartErased(s, fd, {}).channels == s.channels;
  }

  lemma PartErasedStep(s: M.State, fd: int, done: set<string>, name: string)
    requires M.OnChannel(PartErased(s, fd, done), fd, name)
    ensures M.RemoveMember(PartErased(s, fd, done), fd, name) == PartErased(s, fd, done + {Fold(name)})
  {
    var part, k := PartErased(s, fd, done), Fold(name);
    assert k !in done && part.channels[k] == s.channels[k];
    assert M.RemoveMember(part, fd, name).channels == PartErased(s, fd, done + {k}).channels;
  }

  function Uninvited(store: map<Ptr, Channel>, done: set<Ptr>, p: Ptr): map<Ptr, Channel> {
    map q | q in store :: if q in done then store[q].(invited := store[q].invited - {p}) else store[q]
  }

  /** Removing a client that is on no channel. */
  function Dropped(g: Graph, p: Ptr): Graph
    requires p in g.clientStore
  {
    Graph(g.clientStore - {p}, Uninvited(g.channelStore, g.channelStore.Keys, p),
      g.fdToClient - {g.clientStore[p].fd}, g.nickToClient - {Fold(g.clientStore[p].nick)}, g.channels)
  }

  lemma DroppedIndexed(g: Graph, p: Ptr)
    requires g.Indexed() && p in g.clientStore
    ensures Dropped(g, p).Indexed()
  {
  }

  lemma DroppedNicks(g: Graph, p: Ptr)
    requires g.NickIndexed() && p in g.clientStore
    ensures Dropped(g, p).NickIndexed()
  {
  }

  lemma DroppedLinked(g: Graph, p: Ptr)
    requires g.Linked() && p in g.clientStore && g.clientStore[p].channels == {}
    ensures Dropped(g, p).Linked()
  {
    DroppedMutual(g, p);
  }

  lemma DroppedMutual(g: Graph, p: Ptr)
    requires g.Mutual() && p in g.clientStore && g.clientStore[p].channels == {}
    ensures Dropped(g, p).Mutual()
  {
  }

  lemma DroppedChannelAbs(g: Graph, p: Ptr, ch: Channel)
    requires g.Indexed() && p in g.clientStore && p !in ch.members
    ensures AbsChannel(g.fdToClient - {g.clientStore[p].fd}, ch.(invited := ch.invited - {p})) ==
            M.Strip(AbsChannel(g.fdToClient, ch), g.clientStore[p].fd)
    ensures g.clientStore[p].fd !in AbsChannel(g.fdToClient, ch).members
  {
    var fd := g.clientStore[p].fd;
    var a := AbsChannel(g.fdToClient - {fd}, ch.(invited := ch.invited - {p}));
    var b := M.Strip(AbsChannel(g.fdToClient, ch), fd);
    assert forall f <- g.fdToClient :: g.fdToClient[f] == p <==> f == fd;
    assert a.members == b.members && a.ops == b.ops && a.invited == b.invited;
  }

  lemma DroppedClientsAbs(g: Graph, p: Ptr)
    requires g.Indexed() && p in g.clientStore
    ensures forall f <- g.fdToClient :: f != g.clientStore[p].fd ==> g.fdToClient[f] in g.clientStore - {p}
    ensures AbsClients(g.clientStore - {p}, g.fdToClient - {g.clientStore[p].fd}) ==
            AbsClients(g.clientStore, g.fdToClient) - {g.clientStore[p].fd}
  {
    assert forall f <- g.fdToClient :: g.fdToClient[f] == p <==> f == g.clientStore[p].fd;
  }

  lemma DroppedChannelsAbs(g: Graph, p: Ptr)
    requires g.Indexed() && p in g.clientStore
    requires forall q <- g.channelStore :: p !in g.channelStore[q].members
    ensures var fd, all := g.clientStore[p].fd, AbsChannels(g.fdToClient, g.channelStore, g.channels);
            AbsChannels(g.fdToClient - {fd}, Uninvited(g.channelStore, g.channelStore.Keys, p), g.channels) ==
            map k | k in all && all[k].members != {fd} :: M.Strip(all[k], fd)
  {
    forall k | k in g.channels
      ensures var fd, ch := g.clientStore[p].fd, g.channelStore[g.channels[k]];
              AbsChannel(g.fdToClient - {fd}, Uninvited(g.channelStore, g.channelStore.Keys, p)[g.channels[k]]) ==
              M.Strip(AbsChannel(g.fdToClient, ch), fd) && fd !in AbsChannel(g.fdToClient, ch).members
    {
      DroppedChannelAbs(g, p, g.channelStore[g.channels[k]]);
    }
  }

  lemma DroppedAbs(g: Graph, password: string, p: Ptr)
    requires g.Indexed() && g.Linked() && p in g.clientStore && g.clientStore[p].channels == {}
    ensures Dropped(g, p).Abs(password) == M.Erase(g.Abs(password), g.clientStore[p].fd)
  {
    DroppedClientsAbs(g, p);
    assert forall q <- g.channelStore :: p !in g.channelStore[q].members;
    DroppedChannelsAbs(g, p);
  }

  /** Leaving every channel and then being dropped is the same as being erased at once. */
  lemma ErasedInTheEnd(s: M.State, fd: int, done: set<string>)
    requires forall k <- s.channels :: fd in s.channels[k].members ==> k in done
    requires forall k <- s.channels :: k in done ==> fd in s.channels[k].members
    ensures M.Erase(PartErased(s, fd, done), fd) == M.Erase(s, fd)
  {
    var a, b := M.Erase(PartErased(s, fd, done), fd).channels, M.Erase(s, fd).channels;
    forall k | k in s.channels ensures M.Strip(M.Strip(s.channels[k], fd), fd) == M.Strip(s.channels[k], fd) {}
    assert a == b;
  }

  lemma DroppedKeeps(g: Graph, password: string, p: Ptr)
    requires Consistent(g) && p in g.clientStore && g.clientStore[p].channels == {}
    ensures Consistent(Dropped(g, p))
    ensures Dropped(g, p).Abs(password) == M.Erase(g.Abs(password), g.clientStore[p].fd)
  {
    Open(g);
    DroppedIndexed(g, p);
    DroppedNicks(g, p);
    DroppedLinked(g, p);
    DroppedAbs(g, password, p);
  }

  lemma UnlinkKeeps(g: Graph, password: string, p: Ptr, q: Ptr)
    requires Consistent(g) && p in g.clientStore && q in g.channelStore && p in g.channelStore[q].members
    ensures Consistent(Unlink(g, p, q))
    ensures Unlink(g, p, q).Abs(password) ==
            M.RemoveMember(g.Abs(password), g.clientStore[p].fd, g.channelStore[q].name)
  {
    Open(g);
    UnlinkValid(g, p, q);
    UnlinkAbs(g, password, p, q);
  }

  lemma TwoMembers(members: map<Ptr, bool>, p: Ptr)
    requires members != map[] && p !in members
    ensures |members[p := false]| != 1
  {
    assert members[p := false].Keys == members.Keys + {p};
    assert members.Keys != {};
  }

  lemma EnterKeeps(g: Graph, password: string, p: Ptr, q: Ptr)
    requires Consistent(g) && p in g.clientStore && q in g.channelStore && p !in g.channelStore[q].members
    ensures var ch := g.channelStore[q].AddMember(p);
            |ch.members| != 1 && Consistent(Link(g, p, q, ch)) &&
            Link(g, p, q, ch).Abs(password) == M.AddMember(g.Abs(password), g.clientStore[p].fd, g.channelStore[q].name)
  {
    Open(g);
    var ch := g.channelStore[q];
    assert q != NULL;
    TwoMembers(ch.members, p);
    LinkValid(g, p, q, ch.AddMember(p));
    LinkAbs(g, password, p, q, ch.AddMember(p));
    EnterAbs(g, p, ch);
  }

  lemma FoundKeeps(g: Graph, password: string, p: Ptr, q: Ptr, name: string)
    requires Consistent(g) && p in g.clientStore && q != NULL && q !in g.channelStore && Fold(name) !in g.channels
    ensures var ch := Channel(name, "", map[p := true], {}, NO_MODES);
            Consistent(Link(g, p, q, ch)) &&
            Link(g, p, q, ch).Abs(password) == M.AddMember(g.Abs(password), g.clientStore[p].fd, name)
  {
    Open(g);
    var ch := Channel(name, "", map[p := true], {}, NO_MODES);
    LinkValid(g, p, q, ch);
    LinkAbs(g, password, p, q, ch);
    FoundAbs(g, p, name);
  }
}
