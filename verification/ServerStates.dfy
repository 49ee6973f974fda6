/** The server state as the command layer uses it (src/c/ServerState.cpp, with the client registry
    of src/c/ClientRegistry.cpp): one object whose methods update the object graph in place. */
module ServerStates {
  import opened IrcText
  import opened Modes
  import opened ServerGraph
  import M = Model

  /** The elements in some order, each once: how a container keyed by addresses is walked. */
  method Listing(ptrs: set<Ptr>) returns (list: seq<Ptr>)
    ensures forall p :: p in list <==> p in ptrs
    ensures forall i, j :: 0 <= i < j < |list| ==> list[i] != list[j]
  {
    list := [];
    var rest := ptrs;
    while rest != {}
      invariant forall p :: p in list || p in rest <==> p in ptrs
      invariant forall p :: p in list ==> p !in rest
      invariant forall i, j :: 0 <= i < j < |list| ==> list[i] != list[j]
      decreases |rest|
    {
      var p :| p in rest;
      list, rest := list + [p], rest - {p};
    }
  }

  lemma {:induction false} Unused(used: set<Ptr>) returns (bound: Ptr)
    ensures forall p <- used :: p < bound
    ensures bound > 0
    decreases used
  {
    if used == {} {
      bound := 1;
    } else {
      var p :| p in used;
      bound := Unused(used - {p});
      if bound <= p { bound := p + 1; }
      assert forall r <- used :: r == p || r in used - {p};
    }
  }

  class ServerState {
    const password: string
    var clientStore: map<Ptr, Client>
    var channelStore: map<Ptr, Channel>
    var fdToClient: map<int, Ptr>
    var nickToClient: map<string, Ptr>
    var channels: map<string, Ptr>

    constructor (password: string)
      ensures this.password == password && Valid() && Abs() == M.State(password, map[], map[])
    {
      this.password := password;
      clientStore, channelStore, fdToClient, nickToClient, channels := map[], map[], map[], map[], map[];
    }

    ghost function View(): Graph
      reads this
    {
      Graph(clientStore, channelStore, fdToClient, nickToClient, channels)
    }

    ghost predicate Valid()
      reads this
    {
      Consistent(View())
    }

    ghost function Abs(): M.State
      reads this
    {
      View().Abs(password)
    }

    // ----- Lookups --------------------------------------------------------------------------

    method GetClientByFd(fd: int) returns (p: Ptr)
      requires Valid()
      ensures p == NULL <==> fd !in Abs().clients
      ensures p != NULL ==> p in clientStore && clientStore[p].fd == fd && Abs().clients[fd] == clientStore[p].Abs()
    {
      if fd in fdToClient {
        ByFd(View(), fd);
        return fdToClient[fd];
      }
      return NULL;
    }

    method GetClientByNick(nick: string) returns (p: Ptr)
      requires Valid()
      ensures p == NULL <==> M.Holders(Abs(), nick) == {}
      ensures p != NULL ==> p in clientStore && M.Holders(Abs(), nick) == {clientStore[p].fd}
    {
      HoldersAreIndexed(View(), password, nick);
      if Fold(nick) in nickToClient { return nickToClient[Fold(nick)]; }
      return NULL;
    }

    method GetChannel(name: string) returns (q: Ptr)
      requires Valid()
      ensures q == NULL <==> !M.Exists(Abs(), name)
      ensures q == NULL <==> Fold(name) !in channels
      ensures q != NULL ==> q == channels[Fold(name)] && q in channelStore &&
                            M.Chan(Abs(), name) == AbsChannel(fdToClient, channelStore[q])
    {
      if Fold(name) in channels {
        ByName(View(), Fold(name));
        return channels[Fold(name)];
      }
      return NULL;
    }

    /** The members of a channel, and the fds they stand for. */
    method GetMembers(q: Ptr) returns (list: seq<Ptr>, ghost order: seq<int>)
      requires Valid() && q in channelStore
      ensures |order| == |list|
      ensures forall i :: 0 <= i < |list| ==> list[i] in clientStore && order[i] == clientStore[list[i]].fd
      ensures M.Enumerates(order, AbsChannel(fdToClient, channelStore[q]).members)
    {
      list := Listing(channelStore[q].members.Keys);
      order := ListingFds(View(), q, list);
    }

    // ----- Clients --------------------------------------------------------------------------

    method AddClient(fd: int, host: string)
      requires Valid()
      modifies this
      ensures Valid()
      ensures Abs() == if fd in old(Abs()).clients then old(Abs())
                       else M.WithClient(old(Abs()), fd, M.Client("", "", "", host, false, false))
    {
      if fd in fdToClient {
        ByFd(View(), fd);
        return;
      }
      ghost var bound := Unused(clientStore.Keys);
      assert bound != NULL && bound !in clientStore;
      var p: Ptr :| p != NULL && p !in clientStore;
      var client := Client(fd, host, "", "", "", false, false, {});
      ghost var g := View();
      clientStore := clientStore[p := client];
      fdToClient := fdToClient[fd := p];
      assert View() == InsertClient(g, p, client);
      InsertClientKeeps(g, password, p, client);
    }

    /** Fails exactly when another client holds the nickname under case folding. */
    method UpdateNick(p: Ptr, newNick: string) returns (ok: bool)
      requires Valid() && p in clientStore
      modifies `clientStore, `nickToClient
      ensures Valid() <==> newNick != "" || old(clientStore[p].nick) == ""
      ensures ok <==> M.Holders(old(Abs()), newNick) <= {old(clientStore[p].fd)}
      ensures clientStore ==
              if ok then old(clientStore)[p := old(clientStore[p]).(nick := newNick)] else old(clientStore)
      ensures Abs() == if ok then M.WithClient(old(Abs()), clientStore[p].fd, clientStore[p].Abs()) else old(Abs())
    {
      ghost var g := View();
      NickFree(g, password, p, newNick);
      var oldNick := clientStore[p].nick;
      if oldNick == newNick {
        SameNick(g, password, p);
        return true;
      }
      if Fold(newNick) in nickToClient && nickToClient[Fold(newNick)] != p {
        HeldIsNotEmpty(g, newNick);
        return false;
      }
      MoveNick(p, newNick);
      return true;
    }

    /** The update of the index and the cached nickname. */
    method MoveNick(p: Ptr, newNick: string)
      requires Valid() && p in clientStore
      requires Fold(newNick) in nickToClient ==> nickToClient[Fold(newNick)] == p
      modifies `clientStore, `nickToClient
      ensures Valid() <==> newNick != ""
      ensures clientStore == old(clientStore)[p := old(clientStore[p]).(nick := newNick)]
      ensures Abs() == M.WithClient(old(Abs()), clientStore[p].fd, clientStore[p].Abs())
    {
      ghost var g := View();
      var oldNick := clientStore[p].nick;
      if oldNick != "" { nickToClient := nickToClient - {Fold(oldNick)}; }
      if Fold(newNick) !in nickToClient { nickToClient := nickToClient[Fold(newNick) := p]; }
      clientStore := clientStore[p := clientStore[p].(nick := newNick)];
      RenameSteps(g, View(), password, p, newNick);
    }

    /** Any other field of a client record. */
    method SetClient(p: Ptr, c: Client)
      requires Valid() && p in clientStore
      requires c.fd == clientStore[p].fd && c.nick == clientStore[p].nick && c.channels == clientStore[p].channels
      modifies `clientStore
      ensures Valid() && clientStore == old(clientStore)[p := c]
      ensures Abs() == M.WithClient(old(Abs()), c.fd, c.Abs())
    {
      PutClientKeeps(View(), password, p, c);
      clientStore := clientStore[p := c];
      assert View() == PutClient(old(View()), p, c);
    }

    // ----- Channels -------------------------------------------------------------------------

    /** Topic, modes, operator flags or invitations of a channel record. */
    method SetChannel(q: Ptr, ch: Channel)
      requires Valid() && q in channelStore && ch.name == channelStore[q].name
      requires forall p :: p in ch.members <==> p in channelStore[q].members
      requires forall p <- ch.invited :: p in clientStore && p !in ch.members
      modifies `channelStore
      ensures Valid() && channelStore == old(channelStore)[q := ch]
      ensures Abs() == M.WithChannel(old(Abs()), ch.name, AbsChannel(fdToClient, ch))
    {
      NameOf(View(), q);
      SomeMember(channelStore[q].members, ch.members);
      PutChannelKeeps(View(), password, q, ch);
      channelStore := channelStore[q := ch];
      assert View() == PutChannel(old(View()), q, ch);
    }

    method GetOrCreateChannel(name: string) returns (q: Ptr)
      requires Valid()
      modifies `channelStore, `channels
      ensures q != NULL && channels == old(channels)[Fold(name) := q] && q in channelStore
      ensures if Fold(name) in old(channels) then q == old(channels)[Fold(name)] && channelStore == old(channelStore)
              else q !in old(channelStore) &&
                   channelStore == old(channelStore)[q := Channel(name, "", map[], {}, NO_MODES)]
    {
      q := GetChannel(name);
      if q == NULL {
        ghost var bound := Unused(channelStore.Keys);
        assert bound != NULL && bound !in channelStore;
        q :| q != NULL && q !in channelStore;
        channelStore := channelStore[q := Channel(name, "", map[], {}, NO_MODES)];
        channels := channels[Fold(name) := q];
      }
    }

    method AddClientToChannel(p: Ptr, name: string) returns (q: Ptr)
      requires Valid() && p in clientStore
      modifies `clientStore, `channelStore, `channels
      ensures Valid() && q != NULL && p in clientStore && clientStore[p].Abs() == old(clientStore[p].Abs())
      ensures clientStore[p].fd == old(clientStore[p].fd)
      ensures Abs() == M.AddMember(old(Abs()), clientStore[p].fd, name)
      ensures Fold(name) in channels && channels[Fold(name)] == q
    {
      ghost var g := View();
      q := GetOrCreateChannel(name);
      if p in channelStore[q].members {
        AlreadyIn(g, password, p, q, name);
        return;
      }
      channelStore := channelStore[q := channelStore[q].AddMember(p)];
      clientStore := clientStore[p := clientStore[p].(channels := clientStore[p].channels + {q})];
      if |channelStore[q].members| == 1 {
        channelStore := channelStore[q := channelStore[q].SetOperator(p, true)];
      }
      JoinSteps(g, View(), password, p, q, name);
    }

    method RemoveChannelIfEmpty(name: string)
      requires Fold(name) in channels ==> channels[Fold(name)] in channelStore
      modifies `channelStore, `channels
      ensures if Fold(name) in old(channels) && old(channelStore[channels[Fold(name)]]).members == map[] then
                channelStore == old(channelStore) - {old(channels)[Fold(name)]} &&
                channels == old(channels) - {Fold(name)}
              else channelStore == old(channelStore) && channels == old(channels)
    {
      if Fold(name) in channels && channelStore[channels[Fold(name)]].members == map[] {
        channelStore := channelStore - {channels[Fold(name)]};
        channels := channels - {Fold(name)};
      }
    }

    /** Drops both sides of one membership; the body shared by the two removals below. */
    method Detach(p: Ptr, q: Ptr)
      requires Valid() && p in clientStore && q in channelStore && p in channelStore[q].members
      modifies `clientStore, `channelStore, `channels
      ensures Valid() && View() == Unlink(old(View()), p, q)
      ensures Abs() == M.RemoveMember(old(Abs()), old(clientStore[p].fd), old(channelStore[q].name))
    {
      ghost var g := View();
      NameOf(g, q);
      var name := channelStore[q].name;
      channelStore := channelStore[q := channelStore[q].RemoveClientState(p)];
      clientStore := clientStore[p := clientStore[p].(channels := clientStore[p].channels - {q})];
      RemoveChannelIfEmpty(name);
      UnlinkSteps(g, View(), p, q);
      UnlinkKeeps(g, password, p, q);
    }

    method RemoveClientFromChannel(p: Ptr, name: string)
      requires Valid() && p in clientStore
      modifies `clientStore, `channelStore, `channels
      ensures Valid() && Abs() == M.RemoveMember(old(Abs()), old(clientStore[p].fd), name)
    {
      var q := GetChannel(name);
      if q == NULL { return; }
      MemberFacts(View(), p, q);
      if p !in channelStore[q].members { return; }
      ByName(View(), Fold(name));
      SameKeyPart(Abs(), clientStore[p].fd, channelStore[q].name, name);
      Detach(p, q);
    }

    method RemoveClientFromAllInvites(p: Ptr)
      requires Valid()
      modifies `channelStore
      ensures channelStore == Uninvited(old(channelStore), old(channelStore).Keys, p)
    {
      var rest := channels.Keys;
      ghost var g := View();
      ghost var done: set<Ptr> := {};
      UninvitedNone(g.channelStore, p);
      while rest != {}
        invariant rest <= channels.Keys
        invariant channelStore == Uninvited(g.channelStore, done, p)
        invariant forall k <- channels :: k !in rest ==> channels[k] in done
        decreases |rest|
      {
        var k :| k in rest;
        ByName(g, k);
        var q := channels[k];
        UninvitedStep(g.channelStore, done, q, p);
        channelStore := channelStore[q := channelStore[q].(invited := channelStore[q].invited - {p})];
        rest := rest - {k};
        done := done + {q};
      }
      UninvitedAll(g, done, p);
    }

    /** One round of the loop below. */
    method LeaveOne(p: Ptr, q: Ptr, ghost s: M.State, ghost done: set<string>) returns (ghost done': set<string>)
      requires Valid() && p in clientStore && q in clientStore[p].channels
      requires Leaving(s, clientStore[p].fd, done, Abs())
      modifies `clientStore, `channelStore, `channels
      ensures Valid() && p in clientStore && clientStore[p].fd == old(clientStore[p].fd)
      ensures clientStore[p].channels == old(clientStore[p].channels) - {q}
      ensures Leaving(s, clientStore[p].fd, done', Abs())
    {
      OnItsChannel(View(), password, p, q);
      LeaveStep(s, clientStore[p].fd, done, Abs(), channelStore[q].name);
      done' := done + {Fold(channelStore[q].name)};
      UnlinkedClient(View(), p, q);
      Detach(p, q);
    }

    /** The loop of the disconnect cleanup: out of every channel, deleting on the way those that
        become empty. The pointers still to be visited stay live throughout. */
    method LeaveAllChannels(p: Ptr) returns (ghost done: set<string>)
      requires Valid() && p in clientStore
      modifies `clientStore, `channelStore, `channels
      ensures Valid() && p in clientStore && clientStore[p].fd == old(clientStore[p].fd)
      ensures clientStore[p].channels == {}
      ensures Leaving(old(Abs()), clientStore[p].fd, done, Abs())
    {
      ghost var s, fd := Abs(), clientStore[p].fd;
      done := {};
      PartErasedNone(s, fd);
      var list := Listing(clientStore[p].channels);
      var i := 0;
      while i < |list|
        invariant 0 <= i <= |list|
        invariant Valid() && p in clientStore && clientStore[p].fd == fd
        invariant forall q :: q in clientStore[p].channels <==> q in list[i..]
        invariant Leaving(s, fd, done, Abs())
      {
        Remaining(list, i);
        done := LeaveOne(p, list[i], s, done);
        i := i + 1;
      }
    }

    /** The rest of the cleanup, for a client on no channel: invite lists, indexes, store. */
    method Forget(p: Ptr)
      requires Valid() && p in clientStore && clientStore[p].channels == {}
      modifies this
      ensures Valid() && Abs() == M.Erase(old(Abs()), old(clientStore[p].fd))
    {
      ghost var g := View();
      RemoveClientFromAllInvites(p);
      nickToClient := nickToClient - {Fold(clientStore[p].nick)};
      fdToClient := fdToClient - {clientStore[p].fd};
      clientStore := clientStore - {p};
      assert View() == Dropped(g, p);
      DroppedKeeps(g, password, p);
    }

    method RemoveClient(fd: int)
      requires Valid()
      modifies this
      ensures Valid()
      ensures Abs() == if fd in old(Abs()).clients then M.Erase(old(Abs()), fd) else old(Abs())
    {
      var p := GetClientByFd(fd);
      if p == NULL { return; }
      ghost var s := Abs();
      ghost var done := LeaveAllChannels(p);
      OnNoChannel(View(), password, p);
      LeftEverything(s, Abs(), fd, done);
      Forget(p);
    }
  }

  // ----- Proof steps of the methods ---------------------------------------------------------

  ghost function FdOf(store: map<Ptr, Client>, p: Ptr): int { if p in store then store[p].fd else -1 }

  lemma ListingFds(g: Graph, q: Ptr, list: seq<Ptr>) returns (order: seq<int>)
    requires Consistent(g) && q in g.channelStore
    requires forall p :: p in list <==> p in g.channelStore[q].members.Keys
    requires forall i, j :: 0 <= i < j < |list| ==> list[i] != list[j]
    ensures |order| == |list|
    ensures forall i :: 0 <= i < |list| ==> list[i] in g.clientStore && order[i] == g.clientStore[list[i]].fd
    ensures M.Enumerates(order, AbsChannel(g.fdToClient, g.channelStore[q]).members)
  {
    Open(g);
    order := seq(|list|, i requires 0 <= i < |list| => FdOf(g.clientStore, list[i]));
    var fds := AbsChannel(g.fdToClient, g.channelStore[q]).members;
    forall i | 0 <= i < |list|
      ensures list[i] in g.clientStore && order[i] in fds && g.fdToClient[order[i]] == list[i]
    {
      assert list[i] in list;
    }
    forall f | f in fds ensures f in order {
      var p := g.fdToClient[f];
      assert p in g.channelStore[q].members.Keys;
      var i :| 0 <= i < |list| && list[i] == p;
      assert order[i] == f;
    }
  }

  lemma NickFree(g: Graph, password: string, p: Ptr, nick: string)
    requires Consistent(g) && p in g.clientStore
    ensures M.Holders(g.Abs(password), nick) <= {g.clientStore[p].fd} <==>
            (Fold(nick) in g.nickToClient ==> g.nickToClient[Fold(nick)] == p)
    ensures g.clientStore[p].nick == nick ==> M.Holders(g.Abs(password), nick) <= {g.clientStore[p].fd}
  {
    HoldersAreIndexed(g, password, nick);
    Open(g);
    if g.clientStore[p].nick == nick && nick == "" { assert Fold(nick) == ""; }
  }

  lemma HeldIsNotEmpty(g: Graph, nick: string)
    requires Consistent(g) && Fold(nick) in g.nickToClient
    ensures nick != ""
  {
    Open(g);
  }

  lemma SameNick(g: Graph, password: string, p: Ptr)
    requires Consistent(g) && p in g.clientStore
    ensures g.clientStore[p := g.clientStore[p].(nick := g.clientStore[p].nick)] == g.clientStore
    ensures M.WithClient(g.Abs(password), g.clientStore[p].fd, g.clientStore[p].Abs()) == g.Abs(password)
  {
    var c := g.clientStore[p];
    assert c.fd in g.fdToClient && g.fdToClient[c.fd] == p by { Open(g); }
    var all := AbsClients(g.clientStore, g.fdToClient);
    assert all[c.fd := c.Abs()] == all;
  }

  lemma RenameSteps(g: Graph, g': Graph, password: string, p: Ptr, nick: string)
    requires Consistent(g) && p in g.clientStore
    requires Fold(nick) in g.nickToClient ==> g.nickToClient[Fold(nick)] == p
    requires var c := g.clientStore[p];
             var erased := if c.nick != "" then g.nickToClient - {Fold(c.nick)} else g.nickToClient;
             g'.nickToClient == (if Fold(nick) !in erased then erased[Fold(nick) := p] else erased) &&
             g'.clientStore == g.clientStore[p := c.(nick := nick)]
    requires g'.fdToClient == g.fdToClient && g'.channelStore == g.channelStore && g'.channels == g.channels
    ensures Consistent(g') <==> nick != ""
    ensures g'.Abs(password) ==
            M.WithClient(g.Abs(password), g.clientStore[p].fd, g.clientStore[p].Abs().(nick := nick))
  {
    RenameIndex(g, p, nick);
    RenamedKeeps(g, password, p, nick);
    assert g' == Renamed(g, p, nick);
  }

  lemma RenameIndex(g: Graph, p: Ptr, nick: string)
    requires Consistent(g) && p in g.clientStore
    requires Fold(nick) in g.nickToClient ==> g.nickToClient[Fold(nick)] == p
    ensures var c := g.clientStore[p];
            var erased := if c.nick != "" then g.nickToClient - {Fold(c.nick)} else g.nickToClient;
            Renamed(g, p, nick).nickToClient == if Fold(nick) !in erased then erased[Fold(nick) := p] else erased
  {
    Open(g);
    var c := g.clientStore[p];
    if c.nick == "" {
      assert Fold(c.nick) == "";
      assert forall k <- g.nickToClient :: k != "";
      assert g.nickToClient - {""} == g.nickToClient;
    }
  }

  lemma SomeMember(a: map<Ptr, bool>, b: map<Ptr, bool>)
    requires a != map[] && forall p :: p in a <==> p in b
    ensures b != map[]
  {
    assert b == map[] ==> forall p :: p !in a;
  }

  lemma AlreadyIn(g: Graph, password: string, p: Ptr, q: Ptr, name: string)
    requires Consistent(g) && p in g.clientStore && Fold(name) in g.channels && g.channels[Fold(name)] == q
    requires q in g.channelStore && p in g.channelStore[q].members
    ensures M.AddMember(g.Abs(password), g.clientStore[p].fd, name) == g.Abs(password)
    ensures g.channels[Fold(name) := q] == g.channels
  {
    MemberFacts(g, p, q);
  }

  /** The steps of AddClientToChannel on an existing channel, from the graph `g` before them. */
  lemma EnterSteps(g: Graph, g': Graph, password: string, p: Ptr, q: Ptr, name: string)
    requires Consistent(g) && p in g.clientStore && q in g.channelStore && p !in g.channelStore[q].members
    requires Fold(name) in g.channels && q == g.channels[Fold(name)]
    requires var entered := g.channelStore[q].AddMember(p);
             g'.channelStore ==
             if |entered.members| == 1 then g.channelStore[q := entered][q := entered.SetOperator(p, true)]
             else g.channelStore[q := entered]
    requires g'.clientStore == g.clientStore[p := g.clientStore[p].(channels := g.clientStore[p].channels + {q})]
    requires g'.fdToClient == g.fdToClient && g'.nickToClient == g.nickToClient &&
             g'.channels == g.channels[Fold(name) := q]
    ensures Consistent(g') && g'.Abs(password) == M.AddMember(g.Abs(password), g.clientStore[p].fd, name)
  {
    ByName(g, Fold(name));
    EnterKeeps(g, password, p, q);
    SameKeyJoin(g.Abs(password), g.clientStore[p].fd, g.channelStore[q].name, name);
    assert g' == Link(g, p, q, g.channelStore[q].AddMember(p));
  }

  /** The steps of AddClientToChannel on a channel it creates. */
  lemma FoundSteps(g: Graph, g': Graph, password: string, p: Ptr, q: Ptr, name: string)
    requires Consistent(g) && p in g.clientStore && q != NULL && q !in g.channelStore && Fold(name) !in g.channels
    requires var entered := Channel(name, "", map[], {}, NO_MODES).AddMember(p);
             var store := g.channelStore[q := Channel(name, "", map[], {}, NO_MODES)][q := entered];
             g'.channelStore == if |entered.members| == 1 then store[q := entered.SetOperator(p, true)] else store
    requires g'.clientStore == g.clientStore[p := g.clientStore[p].(channels := g.clientStore[p].channels + {q})]
    requires g'.fdToClient == g.fdToClient && g'.nickToClient == g.nickToClient &&
             g'.channels == g.channels[Fold(name) := q]
    ensures Consistent(g') && g'.Abs(password) == M.AddMember(g.Abs(password), g.clientStore[p].fd, name)
  {
    var ch := Channel(name, "", map[p := true], {}, NO_MODES);
    Founded(p, name);
    FoundKeeps(g, password, p, q, name);
    PutThrice(g.channelStore, q, Channel(name, "", map[], {}, NO_MODES),
              Channel(name, "", map[], {}, NO_MODES).AddMember(p), ch);
    assert g' == Link(g, p, q, ch);
  }

  lemma JoinSteps(g: Graph, g': Graph, password: string, p: Ptr, q: Ptr, name: string)
    requires Consistent(g) && p in g.clientStore && q != NULL
    requires Fold(name) in g.channels ==>
               q == g.channels[Fold(name)] && q in g.channelStore && p !in g.channelStore[q].members
    requires Fold(name) !in g.channels ==> q !in g.channelStore
    requires var store := if Fold(name) in g.channels then g.channelStore
                          else g.channelStore[q := Channel(name, "", map[], {}, NO_MODES)];
             var entered := store[q].AddMember(p);
             g'.channelStore ==
             if |entered.members| == 1 then store[q := entered][q := entered.SetOperator(p, true)]
             else store[q := entered]
    requires g'.clientStore == g.clientStore[p := g.clientStore[p].(channels := g.clientStore[p].channels + {q})]
    requires g'.fdToClient == g.fdToClient && g'.nickToClient == g.nickToClient &&
             g'.channels == g.channels[Fold(name) := q]
    ensures Consistent(g') && g'.Abs(password) == M.AddMember(g.Abs(password), g.clientStore[p].fd, name)
  {
    if Fold(name) in g.channels {
      EnterSteps(g, g', password, p, q, name);
    } else {
      FoundSteps(g, g', password, p, q, name);
    }
  }

  lemma PutThrice<T>(store: map<Ptr, T>, q: Ptr, a: T, b: T, c: T)
    ensures store[q := a][q := b][q := c] == store[q := c]
  {
  }

  lemma Founded(p: Ptr, name: string)
    ensures var entered := Channel(name, "", map[], {}, NO_MODES).AddMember(p);
            |entered.members| == 1 && entered.SetOperator(p, true) == Channel(name, "", map[p := true], {}, NO_MODES)
  {
    var entered := Channel(name, "", map[], {}, NO_MODES).AddMember(p);
    assert entered.members == map[p := false];
    assert map[p := false][p := true] == map[p := true];
  }

  lemma SameKeyJoin(s: M.State, fd: int, a: string, b: string)
    requires Fold(a) == Fold(b) && M.Exists(s, a)
    ensures M.AddMember(s, fd, a) == M.AddMember(s, fd, b)
  {
  }

  lemma SameKeyPart(s: M.State, fd: int, a: string, b: string)
    requires Fold(a) == Fold(b)
    ensures M.RemoveMember(s, fd, a) == M.RemoveMember(s, fd, b)
  {
  }

  lemma UnlinkSteps(g: Graph, g': Graph, p: Ptr, q: Ptr)
    requires p in g.clientStore && q in g.channelStore
    requires g'.clientStore == g.clientStore[p := g.clientStore[p].(channels := g.clientStore[p].channels - {q})]
    requires g'.fdToClient == g.fdToClient && g'.nickToClient == g.nickToClient
    requires var ch := g.channelStore[q].RemoveClientState(p);
             var store := g.channelStore[q := ch];
             if ch.members == map[] then g'.channelStore == store - {q} && g'.channels == g.channels - {Fold(ch.name)}
             else g'.channelStore == store && g'.channels == g.channels
    ensures g' == Unlink(g, p, q)
  {
    assert g.channelStore[q := g.channelStore[q].RemoveClientState(p)] - {q} == g.channelStore - {q};
  }

  lemma UnlinkedClient(g: Graph, p: Ptr, q: Ptr)
    requires p in g.clientStore && q in g.channelStore
    ensures p in Unlink(g, p, q).clientStore
    ensures Unlink(g, p, q).clientStore[p] == g.clientStore[p].(channels := g.clientStore[p].channels - {q})
  {
  }

  lemma OnItsChannel(g: Graph, password: string, p: Ptr, q: Ptr)
    requires Consistent(g) && p in g.clientStore && q in g.clientStore[p].channels
    ensures q in g.channelStore && p in g.channelStore[q].members
    ensures M.OnChannel(g.Abs(password), g.clientStore[p].fd, g.channelStore[q].name)
  {
    Open(g);
    MemberFacts(g, p, q);
  }

  lemma OnNoChannel(g: Graph, password: string, p: Ptr)
    requires Consistent(g) && p in g.clientStore && g.clientStore[p].channels == {}
    ensures forall k <- g.Abs(password).channels :: g.clientStore[p].fd !in g.Abs(password).channels[k].members
  {
    Open(g);
    forall k | k in g.channels
      ensures g.clientStore[p].fd !in AbsChannel(g.fdToClient, g.channelStore[g.channels[k]]).members
    {
      MemberFacts(g, p, g.channels[k]);
    }
  }

  lemma Remaining(list: seq<Ptr>, i: nat)
    requires i < |list| && forall a, b :: 0 <= a < b < |list| ==> list[a] != list[b]
    ensures list[i] in list[i..]
    ensures forall q :: q in list[i + 1..] <==> q in list[i..] && q != list[i]
  {
    assert list[i..] == [list[i]] + list[i + 1..];
  }

  /** `now` is `s` after `fd` has left the channels in `done`, all of which it was on. */
  ghost predicate Leaving(s: M.State, fd: int, done: set<string>, now: M.State) {
    now == PartErased(s, fd, done) && forall k <- s.channels :: k in done ==> fd in s.channels[k].members
  }

  lemma LeaveStep(s: M.State, fd: int, done: set<string>, now: M.State, name: string)
    requires Leaving(s, fd, done, now) && M.OnChannel(now, fd, name)
    ensures Leaving(s, fd, done + {Fold(name)}, M.RemoveMember(now, fd, name))
  {
    PartErasedStep(s, fd, done, name);
  }

  lemma LeftEverything(s: M.State, now: M.State, fd: int, done: set<string>)
    requires Leaving(s, fd, done, now)
    requires forall k <- now.channels :: fd !in now.channels[k].members
    ensures M.Erase(now, fd) == M.Erase(s, fd)
  {
    assert forall k <- s.channels :: k !in done ==> k in now.channels && now.channels[k] == s.channels[k];
    ErasedInTheEnd(s, fd, done);
  }

  lemma UninvitedNone(store: map<Ptr, Channel>, p: Ptr)
    ensures Uninvited(store, {}, p) == store
  {
  }

  lemma UninvitedStep(store: map<Ptr, Channel>, done: set<Ptr>, q: Ptr, p: Ptr)
    requires q in store
    ensures var now := Uninvited(store, done, p);
            now[q := now[q].(invited := now[q].invited - {p})] == Uninvited(store, done + {q}, p)
  {
    var now := Uninvited(store, done, p);
    assert now[q].invited - {p} == store[q].invited - {p};
  }

  lemma UninvitedAll(g: Graph, done: set<Ptr>, p: Ptr)
    requires Consistent(g) && forall k <- g.channels :: g.channels[k] in done
    ensures Uninvited(g.channelStore, done, p) == Uninvited(g.channelStore, g.channelStore.Keys, p)
  {
    Open(g);
  }
}
