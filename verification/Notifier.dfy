/** The QUIT notices of a disconnect (src/b/DisconnectNotifier.cpp). */
module Notifier {
  import opened IrcText
  import opened Wire
  import opened Model
  import G = ServerGraph
  import opened ServerStates

  /** `order` holds the fds in `notified`, each once, and `replies` one copy of `line` for each. */
  ghost predicate Told(order: seq<int>, notified: set<int>, line: Line, fd: int, replies: seq<Out>) {
    Enumerates(order, notified) && fd !in notified && replies == ToAll(order, line, fd)
  }

  lemma ToldMore(order: seq<int>, notified: set<int>, line: Line, fd: int, replies: seq<Out>, f: int)
    requires Told(order, notified, line, fd, replies) && f !in notified && f != fd
    ensures Told(order + [f], notified + {f}, line, fd, replies + [Out(f, line)])
  {
    assert (order + [f])[..|order|] == order;
  }

  /** The inner loop: the members of one channel, except the leaving client and those already told. */
  method NotifyMembers(st: ServerState, q: G.Ptr, fd: int, line: Line, notified: set<int>, replies: seq<Out>,
                       ghost order: seq<int>)
    returns (notified': set<int>, replies': seq<Out>, ghost order': seq<int>)
    requires st.Valid() && q in st.channelStore && Told(order, notified, line, fd, replies)
    ensures Told(order', notified', line, fd, replies')
    ensures notified' == notified + (G.AbsChannel(st.fdToClient, st.channelStore[q]).members - {fd})
  {
    notified', replies', order' := notified, replies, order;
    ghost var members := G.AbsChannel(st.fdToClient, st.channelStore[q]).members;
    var list;
    ghost var walk;
    list, walk := st.GetMembers(q);
    for i := 0 to |list|
      invariant Told(order', notified', line, fd, replies')
      invariant forall f :: f in notified' <==> f in notified || (f in walk[..i] && f != fd)
    {
      var f := st.clientStore[list[i]].fd;
      assert walk[..i + 1] == walk[..i] + [f];
      if f != fd && f !in notified' {
        ToldMore(order', notified', line, fd, replies', f);
        order' := order' + [f];
        notified', replies' := notified' + {f}, replies' + [Out(f, line)];
      }
    }
    assert walk[..|list|] == walk;
    forall f ensures f in notified' <==> f in notified + (members - {fd}) {
      assert f in walk <==> f in members;
    }
  }

  /** The fds met on the channels in `list`. */
  ghost function MetOn(g: G.Graph, list: seq<G.Ptr>, fd: int): set<int> {
    if list == [] then {}
    else
      var q := list[|list| - 1];
      MetOn(g, list[..|list| - 1], fd) +
      (if q in g.channelStore then G.AbsChannel(g.fdToClient, g.channelStore[q]).members - {fd} else {})
  }

  lemma {:induction false} MetOnMember(g: G.Graph, list: seq<G.Ptr>, fd: int, f: int)
    ensures f in MetOn(g, list, fd) <==>
            f != fd &&
            exists q :: q in list && q in g.channelStore && f in G.AbsChannel(g.fdToClient, g.channelStore[q]).members
  {
    if list != [] {
      var front, last := list[..|list| - 1], list[|list| - 1];
      MetOnMember(g, front, fd, f);
      assert list == front + [last];
    }
  }

  /** Walking the client's own channels meets exactly its peers. */
  lemma MetOnIsPeers(g: G.Graph, password: string, p: G.Ptr, list: seq<G.Ptr>)
    requires G.Consistent(g) && p in g.clientStore
    requires forall q :: q in list <==> q in g.clientStore[p].channels
    ensures MetOn(g, list, g.clientStore[p].fd) == Peers(g.Abs(password), g.clientStore[p].fd)
  {
    var fd, s := g.clientStore[p].fd, g.Abs(password);
    forall f ensures f in MetOn(g, list, fd) <==> f in Peers(s, fd) {
      MetOnMember(g, list, fd, f);
      if f in Peers(s, fd) {
        var k :| k in s.channels && fd in s.channels[k].members && f in s.channels[k].members;
        PeerByName(g, password, p, k);
        assert g.channels[k] in list;
      }
      if f in MetOn(g, list, fd) {
        var q :| q in list && q in g.channelStore && f in G.AbsChannel(g.fdToClient, g.channelStore[q]).members;
        PeerByChannel(g, password, p, q);
      }
    }
  }

  lemma PeerByName(g: G.Graph, password: string, p: G.Ptr, k: string)
    requires G.Consistent(g) && p in g.clientStore
    requires k in g.Abs(password).channels && g.clientStore[p].fd in g.Abs(password).channels[k].members
    ensures k in g.channels && g.channels[k] in g.clientStore[p].channels && g.channels[k] in g.channelStore
    ensures g.Abs(password).channels[k] == G.AbsChannel(g.fdToClient, g.channelStore[g.channels[k]])
  {
    G.Open(g);
  }

  lemma PeerByChannel(g: G.Graph, password: string, p: G.Ptr, q: G.Ptr)
    requires G.Consistent(g) && p in g.clientStore && q in g.clientStore[p].channels
    ensures q in g.channelStore
    ensures var k := Fold(g.channelStore[q].name);
            k in g.Abs(password).channels &&
            g.Abs(password).channels[k] == G.AbsChannel(g.fdToClient, g.channelStore[q]) &&
            g.clientStore[p].fd in g.Abs(password).channels[k].members
  {
    G.Open(g);
  }

  method Build(fd: int, reason: string, st: ServerState) returns (replies: seq<Out>, ghost order: seq<int>)
    requires st.Valid()
    ensures fd !in st.Abs().clients ==> replies == []
    ensures fd in st.Abs().clients ==>
              Enumerates(order, Peers(st.Abs(), fd)) &&
              replies == ToAll(order, QuitLine(st.Abs().clients[fd], reason), fd)
  {
    replies, order := [], [];
    var p := st.GetClientByFd(fd);
    if p == G.NULL { return; }
    var line := QuitLine(st.clientStore[p].Abs(), reason);
    var notified: set<int> := {};
    var list := Listing(st.clientStore[p].channels);
    assert Told([], {}, line, fd, []);
    for i := 0 to |list|
      invariant Told(order, notified, line, fd, replies)
      invariant notified == MetOn(st.View(), list[..i], fd)
    {
      assert list[i] in list;
      PeerByChannel(st.View(), st.password, p, list[i]);
      assert list[..i + 1][..i] == list[..i];
      notified, replies, order := NotifyMembers(st, list[i], fd, line, notified, replies, order);
    }
    assert list[..|list|] == list;
    MetOnIsPeers(st.View(), st.password, p, list);
  }
}
