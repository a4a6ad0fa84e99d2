/**
 The client's message list (chatcontroller.cpp): messages sent from here wait for their confirmation,
 others arrive from the server, and pages of history are merged in.
 */
module ChatMerge {
  datatype ClientId = ClientId(id: nat)

  datatype Delivery = Sending | Delivered | Failing | Unknown

  /** `server` is the id given by the server, 0 until it is known. */
  datatype Message = Message(server: nat, client: ClientId, content: nat, delivery: Delivery, mine: bool)

  type Messages = seq<Message>

  // ---- Looking up ----

  /** Messages are looked up by either of their ids. */
  datatype Key = ByClient(client: ClientId) | ByServer(server: nat)

  predicate HasKey(m: Message, key: Key) {
    match key
    case ByClient(client) => m.client == client
    case ByServer(server) => m.server == server
  }

  /** The first row with the key, |list| if there is none. */
  function RowOf(list: Messages, key: Key): (row: nat)
    ensures row <= |list| && (row < |list| ==> HasKey(list[row], key))
    ensures forall i :: 0 <= i < row ==> !HasKey(list[i], key)
  {
    if list == [] || HasKey(list[0], key) then 0 else 1 + RowOf(list[1..], key)
  }

  /** The row a message from the server belongs to, |list| if it is new. */
  function Target(list: Messages, m: Message): (row: nat)
    ensures row <= |list|
  {
    var row := RowOf(list, ByClient(m.client));
    if row < |list| || m.server == 0 then row else RowOf(list, ByServer(m.server))
  }

  function Upserted(list: Messages, m: Message): Messages {
    var row := Target(list, m);
    if row < |list| then list[row := m] else list + [m]
  }

  /** For whatever list and message: the first message with the client id is replaced; if there is none, the first
      with the server id, unless the message has none; otherwise it is added at the end. */
  lemma UpsertedPlace(list: Messages, m: Message, row: nat)
    ensures row < |list| && list[row].client == m.client && (forall i :: 0 <= i < row ==> list[i].client != m.client)
      ==> Upserted(list, m) == list[row := m]
    ensures row < |list| && (forall x :: x in list ==> x.client != m.client)
      && m.server != 0 && list[row].server == m.server && (forall i :: 0 <= i < row ==> list[i].server != m.server)
      ==> Upserted(list, m) == list[row := m]
    ensures (forall x :: x in list ==> x.client != m.client && (m.server == 0 || x.server != m.server))
      ==> Upserted(list, m) == list + [m]
  {
  }

  function AllUpserted(list: Messages, page: Messages): Messages {
    if page == [] then list else Upserted(AllUpserted(list, page[..|page| - 1]), page[|page| - 1])
  }

  // ---- Sorting ----

  /** Confirmed messages by their ids, unconfirmed ones after them. */
  predicate Before(a: Message, b: Message) {
    if a.server == 0 || b.server == 0 then a.server != 0 && b.server == 0 else a.server < b.server
  }

  /** Before the first element that has to come later. */
  function Inserted(list: Messages, m: Message): Messages {
    if list == [] || Before(m, list[0]) then [m] + list else [list[0]] + Inserted(list[1..], m)
  }

  function StableSorted(list: Messages): Messages {
    if list == [] then [] else Inserted(StableSorted(list[..|list| - 1]), list[|list| - 1])
  }

  function Merged(list: Messages, page: Messages): Messages {
    if page == [] then list else StableSorted(AllUpserted(list, page))
  }

  // ---- What a merge means ----

  predicate Ascending(list: Messages) {
    && (forall i :: 0 <= i < |list| ==> list[i].server > 0)
    && forall i, j :: 0 <= i < j < |list| ==> list[i].server < list[j].server
  }

  function Clients(list: Messages): set<ClientId> {
    set m | m in list :: m.client
  }

  /** The messages that still wait for their confirmation, but for those of certain client ids, in order. */
  function Open(list: Messages, settled: set<ClientId>): Messages {
    if list == [] then [] else
      var last := list[|list| - 1];
      Open(list[..|list| - 1], settled) + if last.server == 0 && last.client !in settled then [last] else []
  }

  /** No message twice, by either id. */
  ghost predicate Distinct(list: Messages) {
    forall i, j :: 0 <= i < j < |list| ==>
      list[i].client != list[j].client && (list[i].server > 0 ==> list[i].server != list[j].server)
  }

  predicate SameMessage(a: Message, b: Message) {
    a.server > 0 && b.server > 0 ==> (a.server == b.server <==> a.client == b.client)
  }

  /** Server ids and client ids belong together one to one. */
  ghost predicate Paired(list: Messages, page: Messages) {
    forall a, b :: a in list && b in page ==> SameMessage(a, b)
  }

  /** What the server answers: confirmed messages, the same for the same id. */
  ghost predicate Page(page: Messages) {
    && (forall m :: m in page ==> m.server > 0)
    && Agree(page, page)
  }

  ghost predicate Agree(p: Messages, q: Messages) {
    Paired(p, q) && forall a, b :: a in p && b in q && a.server == b.server ==> a == b
  }

  // ---- Upserting ----

  lemma UpsertedKeepsDistinct(list: Messages, m: Message)
    requires Distinct(list) && m.server > 0 && Paired(list, [m])
    ensures Distinct(Upserted(list, m))
  {
    var row := Target(list, m);
    forall i | 0 <= i < |list| ensures SameMessage(list[i], m) {
      assert list[i] in list && m in [m];
    }
  }

  /** Exactly the message is new; a message stays if it is another one. */
  lemma UpsertedElements(list: Messages, m: Message, x: Message)
    requires Distinct(list) && m.server > 0 && Paired(list, [m])
    ensures x in Upserted(list, m) <==> x == m || (x in list && x.client != m.client)
  {
    var row := Target(list, m);
    forall i | 0 <= i < |list| ensures SameMessage(list[i], m) {
      assert list[i] in list && m in [m];
    }
    if x in list && x.client != m.client {
      var i :| 0 <= i < |list| && list[i] == x;
      assert Upserted(list, m)[i] == x;
    }
    assert row < |list| ==> Upserted(list, m)[row] == m;
    assert row == |list| ==> Upserted(list, m)[|list|] == m;
  }

  // ---- Waiting messages ----

  lemma {:induction false} OpenConcat(a: Messages, b: Messages, settled: set<ClientId>)
    ensures Open(a + b, settled) == Open(a, settled) + Open(b, settled)
  {
    if b == [] {
      assert a + b == a;
    } else {
      OpenConcat(a, b[..|b| - 1], settled);
      assert (a + b)[..|a + b| - 1] == a + b[..|b| - 1];
    }
  }

  lemma {:induction false} OpenOfOthers(list: Messages, settled: set<ClientId>, client: ClientId)
    requires forall m :: m in list ==> m.client != client
    ensures Open(list, settled + {client}) == Open(list, settled)
  {
    if list != [] {
      OpenOfOthers(list[..|list| - 1], settled, client);
      assert list[|list| - 1] in list;
    }
  }

  lemma {:induction false} OpenElements(list: Messages, settled: set<ClientId>, x: Message)
    ensures x in Open(list, settled) <==> x in list && x.server == 0 && x.client !in settled
  {
    if list != [] {
      OpenElements(list[..|list| - 1], settled, x);
      assert list == list[..|list| - 1] + [list[|list| - 1]];
    }
  }

  lemma {:induction false} OpenOfOpen(list: Messages, settled: set<ClientId>, more: set<ClientId>)
    ensures Open(Open(list, settled), more) == Open(list, settled + more)
  {
    if list != [] {
      var last := list[|list| - 1];
      var kept := if last.server == 0 && last.client !in settled then [last] else [];
      OpenOfOpen(list[..|list| - 1], settled, more);
      OpenConcat(Open(list[..|list| - 1], settled), kept, more);
      if kept != [] { assert [last][..0] == []; }
    }
  }

  lemma {:induction false} OpenOfConfirmed(list: Messages, settled: set<ClientId>)
    requires forall m :: m in list ==> m.server > 0
    ensures Open(list, settled) == []
  {
    if list != [] {
      assert list[|list| - 1] in list;
      OpenOfConfirmed(list[..|list| - 1], settled);
    }
  }

  lemma OpenOne(m: Message, settled: set<ClientId>)
    ensures Open([m], settled) == if m.server == 0 && m.client !in settled then [m] else []
  {
    assert [m][..0] == [];
  }

  /** Around its row nobody else has the client id. */
  lemma TargetIsAlone(list: Messages, m: Message)
    requires Distinct(list) && m.server > 0 && Paired(list, [m])
    ensures var row := Target(list, m);
      if row == |list| then forall x :: x in list ==> x.client != m.client
      else
        && list[row].client == m.client
        && (forall x :: x in list[..row] ==> x.client != m.client)
        && (forall x :: x in list[row + 1..] ==> x.client != m.client)
  {
    var row := Target(list, m);
    forall i | 0 <= i < |list| ensures SameMessage(list[i], m) {
      assert list[i] in list && m in [m];
    }
  }

  /** Confirming a message takes it out of the waiting ones and leaves the others in their order. */
  lemma UpsertedOpen(list: Messages, m: Message, settled: set<ClientId>)
    requires Distinct(list) && m.server > 0 && Paired(list, [m])
    ensures Open(Upserted(list, m), settled) == Open(list, settled + {m.client})
  {
    hide Distinct, Paired, Open, Target;
    var row := Target(list, m);
    TargetIsAlone(list, m);
    OpenOne(m, settled);
    if row < |list| {
      var a, b := list[..row], list[row + 1..];
      assert list == a + ([list[row]] + b) && list[row := m] == a + ([m] + b);
      OpenOne(list[row], settled + {m.client});
      OpenOfOthers(a, settled, m.client);
      OpenOfOthers(b, settled, m.client);
      OpenConcat([list[row]], b, settled + {m.client});
      OpenConcat([m], b, settled);
      OpenConcat(a, [list[row]] + b, settled + {m.client});
      OpenConcat(a, [m] + b, settled);
    } else {
      OpenOfOthers(list, settled, m.client);
      OpenConcat(list, [m], settled);
    }
  }

  // ---- A whole page ----

  lemma PagePrefix(page: Messages, n: nat)
    requires Page(page) && n <= |page|
    ensures Page(page[..n])
  {
    forall m | m in page[..n] ensures m in page {
    }
  }

  lemma PairedPrefix(list: Messages, page: Messages, n: nat)
    requires Paired(list, page) && n <= |page|
    ensures Paired(list, page[..n])
  {
    forall m | m in page[..n] ensures m in page {
    }
  }

  lemma ClientsOf(list: Messages, m: Message)
    ensures Clients(list + [m]) == Clients(list) + {m.client}
  {
    forall c | c in Clients(list) ensures c in Clients(list + [m]) {
      var x :| x in list && x.client == c;
      assert x in list + [m];
    }
    assert m in list + [m];
  }

  ghost predicate PageMerged(all: Messages, list: Messages, page: Messages) {
    && Distinct(all)
    && forall x :: x in all <==> x in page || (x in list && x.client !in Clients(page))
  }

  lemma PairedWithNext(all: Messages, list: Messages, page: Messages, m: Message)
    requires Page(page + [m]) && Paired(list, page + [m])
    requires PageMerged(all, list, page)
    ensures Paired(all, [m])
  {
    assert m in page + [m];
    forall a, b | a in all && b in [m] ensures SameMessage(a, b) {
      assert a in page + [m] || a in list;
    }
  }

  lemma UpsertedIsMerged(all: Messages, list: Messages, page: Messages, m: Message)
    requires Page(page + [m]) && Paired(list, page + [m]) && PageMerged(all, list, page)
    ensures Paired(all, [m]) && PageMerged(Upserted(all, m), list, page + [m])
  {
    PairedWithNext(all, list, page, m);
    assert m in page + [m] && m.server > 0;
    UpsertedKeepsDistinct(all, m);
    ClientsOf(page, m);
    hide Upserted, Distinct;
    forall x ensures x in Upserted(all, m) <==> x in page + [m] || (x in list && x.client !in Clients(page + [m])) {
      UpsertedElements(all, m, x);
      if x in page && x.client == m.client {
        assert x in page + [m] && SameMessage(x, m);
      }
    }
  }

  lemma {:induction false} AllUpsertedMeaning(list: Messages, page: Messages)
    requires Distinct(list) && Paired(list, page) && Page(page)
    ensures PageMerged(AllUpserted(list, page), list, page)
    decreases |page|
  {
    hide Distinct, Upserted;
    if page != [] {
      var n := |page| - 1;
      PagePrefix(page, n);
      PairedPrefix(list, page, n);
      AllUpsertedMeaning(list, page[..n]);
      assert page == page[..n] + [page[n]];
      UpsertedIsMerged(AllUpserted(list, page[..n]), list, page[..n], page[n]);
    }
  }

  lemma {:induction false} AllUpsertedOpen(list: Messages, page: Messages, settled: set<ClientId>)
    requires Distinct(list) && Paired(list, page) && Page(page)
    ensures Open(AllUpserted(list, page), settled) == Open(list, settled + Clients(page))
    decreases |page|
  {
    hide Distinct, Upserted, Open;
    if page == [] {
      assert settled + Clients(page) == settled;
    } else {
      var n := |page| - 1;
      var before, m := AllUpserted(list, page[..n]), page[n];
      PagePrefix(page, n);
      PairedPrefix(list, page, n);
      assert page == page[..n] + [m] && m in page;
      AllUpsertedMeaning(list, page[..n]);
      PairedWithNext(before, list, page[..n], m);
      UpsertedOpen(before, m, settled);
      AllUpsertedOpen(list, page[..n], settled + {m.client});
      ClientsOf(page[..n], m);
      assert settled + Clients(page) == (settled + {m.client}) + Clients(page[..n]);
    }
  }

  // ---- Sorting ----

  lemma {:induction false} OpenGoesLast(list: Messages, m: Message)
    requires m.server == 0
    ensures Inserted(list, m) == list + [m]
  {
    if list != [] {
      OpenGoesLast(list[1..], m);
    }
  }

  lemma AscendingTail(c: Messages)
    requires Ascending(c) && c != []
    ensures Ascending(c[1..]) && forall x :: x in c[1..] ==> x in c && c[0].server < x.server
  {
    forall x | x in c[1..] ensures x in c && c[0].server < x.server {
      var i :| 0 <= i < |c[1..]| && c[1..][i] == x;
      assert c[0].server < c[i + 1].server;
    }
  }

  lemma AscendingCons(m: Message, c: Messages)
    requires Ascending(c) && m.server > 0 && forall x :: x in c ==> m.server < x.server
    ensures Ascending([m] + c)
  {
    forall i | 0 <= i < |c| ensures m.server < c[i].server {
      assert c[i] in c;
    }
  }

  lemma InsertedStep(list: Messages, m: Message)
    ensures list == [] || Before(m, list[0]) ==> Inserted(list, m) == [m] + list
    ensures list != [] && !Before(m, list[0]) ==> Inserted(list, m) == [list[0]] + Inserted(list[1..], m)
  {
  }

  /** The confirmed part after the message has been inserted. */
  ghost predicate Grown(d: Messages, c: Messages, m: Message) {
    Ascending(d) && forall x :: x in d <==> x in c || x == m
  }

  lemma GrownAtFront(c: Messages, m: Message)
    requires Ascending(c) && m.server > 0 && (c != [] ==> m.server < c[0].server)
    ensures Grown([m] + c, c, m)
  {
    if c != [] { FirstIsConfirmed(c); }
    AscendingCons(m, c);
    hide Ascending;
  }

  lemma GrownLater(c: Messages, e: Messages, m: Message)
    requires Ascending(c) && c != [] && Grown(e, c[1..], m) && c[0].server < m.server
    ensures Grown([c[0]] + e, c, m)
  {
    AscendingTail(c);
    FirstIsConfirmed(c);
    AscendingCons(c[0], e);
    hide Ascending;
    assert c == [c[0]] + c[1..];
  }

  lemma {:induction false} ConfirmedFindsItsPlace(c: Messages, u: Messages, m: Message) returns (d: Messages)
    requires Ascending(c) && (forall x :: x in u ==> x.server == 0) && m.server > 0
    requires forall x :: x in c ==> x.server != m.server
    ensures Inserted(c + u, m) == d + u && Grown(d, c, m)
  {
    hide Inserted, Grown;
    InsertedStep(c + u, m);
    if c == [] {
      d := [m] + c;
      assert c + u == u && d == [m];
      Nonempty(u);
      GrownAtFront(c, m);
    } else {
      AscendingTail(c);
      FirstIsConfirmed(c);
      Nonempty(c);
      assert (c + u)[0] == c[0] && (c + u)[1..] == c[1..] + u;
      if m.server < c[0].server {
        d := [m] + c;
        GrownAtFront(c, m);
        Reassociated([m], c, u);
      } else {
        var e := ConfirmedFindsItsPlace(c[1..], u, m);
        d := [c[0]] + e;
        GrownLater(c, e, m);
        Reassociated([c[0]], e, u);
      }
    }
  }

  lemma Reassociated(a: Messages, b: Messages, c: Messages)
    ensures (a + b) + c == a + (b + c)
  {
  }

  lemma FirstIsConfirmed(c: Messages)
    requires Ascending(c) && c != []
    ensures c[0].server > 0 && forall x :: x in c ==> c[0].server <= x.server
  {
    AscendingTail(c);
    assert c == [c[0]] + c[1..];
  }

  lemma Nonempty(list: Messages)
    ensures list != [] ==> list[0] in list
  {
  }

  lemma DistinctInit(init: Messages, m: Message)
    requires Distinct(init + [m])
    ensures Distinct(init) && forall x :: x in init && x.server > 0 ==> x.server != m.server
  {
    var list := init + [m];
    assert forall i :: 0 <= i < |init| ==> list[i] == init[i];
    forall x | x in init && x.server > 0 ensures x.server != m.server {
      var i :| 0 <= i < |init| && init[i] == x;
      assert list[i].server != list[|init|].server;
    }
  }

  lemma SortedStep(init: Messages, m: Message)
    ensures StableSorted(init + [m]) == Inserted(StableSorted(init), m)
    ensures Open(init + [m], {}) == Open(init, {}) + if m.server == 0 then [m] else []
  {
    assert (init + [m])[..|init|] == init;
  }

  ghost predicate Confirmed(c: Messages, list: Messages) {
    Ascending(c) && forall x :: x in c <==> x in list && x.server > 0
  }

  lemma ConfirmedByNext(d: Messages, init: Messages, m: Message, c: Messages)
    requires Confirmed(d, init) && Ascending(c)
    requires if m.server == 0 then c == d else forall x :: x in c <==> x in d || x == m
    ensures Confirmed(c, init + [m])
  {
    hide Ascending;
  }

  lemma ConfirmedHasNot(d: Messages, init: Messages, m: Message)
    requires Confirmed(d, init) && forall x :: x in init && x.server > 0 ==> x.server != m.server
    ensures Ascending(d) && forall x :: x in d ==> x.server != m.server
  {
  }

  lemma OpenIsUnconfirmed(list: Messages)
    ensures forall x :: x in Open(list, {}) ==> x.server == 0
  {
    forall x ensures x in Open(list, {}) ==> x.server == 0 {
      OpenElements(list, {}, x);
    }
  }

  /** Inserting the next message into what has been sorted so far. */
  lemma InsertedShape(d: Messages, u: Messages, init: Messages, m: Message) returns (c: Messages)
    requires Confirmed(d, init) && forall x :: x in u ==> x.server == 0
    requires forall x :: x in init && x.server > 0 ==> x.server != m.server
    ensures Inserted(d + u, m) == c + (u + if m.server == 0 then [m] else []) && Confirmed(c, init + [m])
  {
    ConfirmedHasNot(d, init, m);
    hide Ascending, Inserted, Confirmed;
    if m.server == 0 {
      c := d;
      OpenGoesLast(d + u, m);
      Reassociated(d, u, [m]);
    } else {
      c := ConfirmedFindsItsPlace(d, u, m);
      assert u + [] == u;
    }
    ConfirmedByNext(d, init, m, c);
  }

  /** Sorting a list without duplicates puts the confirmed messages first, strictly ascending, and keeps
      the waiting ones behind them in their order. */
  lemma {:induction false} SortedShape(list: Messages) returns (c: Messages)
    requires Distinct(list)
    ensures StableSorted(list) == c + Open(list, {}) && Confirmed(c, list)
    decreases |list|
  {
    hide Distinct, Ascending, StableSorted, Open, Inserted, Confirmed;
    if list == [] {
      c := [];
      SortedNothing();
    } else {
      var init, m := list[..|list| - 1], list[|list| - 1];
      assert list == init + [m];
      DistinctInit(init, m);
      OpenIsUnconfirmed(init);
      var d := SortedShape(init);
      SortedStep(init, m);
      c := InsertedShape(d, Open(init, {}), init, m);
    }
  }

  lemma SortedNothing()
    ensures StableSorted([]) == [] + Open([], {}) && Confirmed([], [])
  {
  }

  /** There is only one way to put messages into strictly ascending order. */
  lemma {:induction false} AscendingUnique(c: Messages, d: Messages)
    requires Ascending(c) && Ascending(d) && forall x :: x in c <==> x in d
    ensures c == d
    decreases |c|
  {
    Nonempty(c);
    Nonempty(d);
    if c != [] {
      SameFirst(c, d);
      TailElements(c, d);
      hide Ascending;
      AscendingUnique(c[1..], d[1..]);
      assert c == [c[0]] + c[1..] && d == [d[0]] + d[1..];
    }
  }

  lemma SameFirst(c: Messages, d: Messages)
    requires Ascending(c) && Ascending(d) && c != [] && d != [] && c[0] in d && d[0] in c
    ensures c[0] == d[0]
  {
    var i :| 0 <= i < |d| && d[i] == c[0];
    var j :| 0 <= j < |c| && c[j] == d[0];
  }

  lemma TailElements(c: Messages, d: Messages)
    requires Ascending(c) && Ascending(d) && c != [] && d != [] && c[0] == d[0]
    requires forall x :: x in c <==> x in d
    ensures forall x :: x in c[1..] <==> x in d[1..]
    ensures Ascending(c[1..]) && Ascending(d[1..])
  {
    forall x ensures x in c[1..] <==> x in c && x != c[0] {
      if x in c[1..] { var i :| 0 <= i < |c[1..]| && c[1..][i] == x; assert c[0].server < c[i + 1].server; }
    }
    forall x ensures x in d[1..] <==> x in d && x != d[0] {
      if x in d[1..] { var i :| 0 <= i < |d[1..]| && d[1..][i] == x; assert d[0].server < d[i + 1].server; }
    }
  }

  // ---- Merging ----

  /** The confirmed part of a merged list. */
  ghost predicate MergedConfirmed(c: Messages, list: Messages, page: Messages) {
    && Ascending(c)
    && forall x :: x in c <==> x in page || (x in list && x.server > 0 && x.client !in Clients(page))
  }

  /** Merging a page confirms what it contains: the confirmed messages stand in strictly ascending order of
      their ids, the page's version replaces an older one, and behind them the messages that still wait
      keep their order. */
  lemma MergeMeaning(list: Messages, page: Messages) returns (c: Messages)
    requires Distinct(list) && Paired(list, page) && Page(page) && page != []
    ensures Merged(list, page) == c + Open(list, Clients(page)) && MergedConfirmed(c, list, page)
  {
    AllUpsertedMeaning(list, page);
    AllUpsertedOpen(list, page, {});
    c := SortedShape(AllUpserted(list, page));
    assert {} + Clients(page) == Clients(page);
    ConfirmedOfPage(c, AllUpserted(list, page), list, page);
    hide Distinct, Ascending, Open, AllUpserted, StableSorted, Clients, Confirmed, MergedConfirmed, PageMerged, Page;
  }

  lemma ConfirmedOfPage(c: Messages, merged: Messages, list: Messages, page: Messages)
    requires Confirmed(c, merged) && PageMerged(merged, list, page) && Page(page)
    ensures MergedConfirmed(c, list, page)
  {
    hide Ascending, Clients;
  }

  lemma MergedElements(list: Messages, page: Messages)
    requires Distinct(list) && Paired(list, page) && Page(page)
    ensures forall x :: x in Merged(list, page) <==> x in page || (x in list && x.client !in Clients(page))
  {
    if page != [] {
      var c := MergeMeaning(list, page);
      var u := Open(list, Clients(page));
      forall x ensures x in u <==> x in list && x.server == 0 && x.client !in Clients(page) {
        OpenElements(list, Clients(page), x);
      }
      hide Merged, Open, Ascending, Distinct, Clients;
      assert forall x :: x in c + u <==> x in c || x in u;
    }
  }

  lemma MergedOpen(list: Messages, page: Messages, settled: set<ClientId>)
    requires Distinct(list) && Paired(list, page) && Page(page)
    ensures Open(Merged(list, page), settled) == Open(list, Clients(page) + settled)
  {
    if page == [] {
      assert Clients(page) + settled == settled;
    } else {
      var c := MergeMeaning(list, page);
      OpenConcat(c, Open(list, Clients(page)), settled);
      OpenOfConfirmed(c, settled);
      OpenOfOpen(list, Clients(page), settled);
      hide Merged, Open, Clients;
      assert [] + Open(list, Clients(page) + settled) == Open(list, Clients(page) + settled);
    }
  }

  lemma {:induction false} UpsertsKeepDistinct(list: Messages, page: Messages)
    requires Distinct(list) && Paired(list, page) && Page(page)
    ensures Distinct(Merged(list, page))
  {
    if page != [] {
      var c := MergeMeaning(list, page);
      JoinIsDistinct(list, page, c, Open(list, Clients(page)));
    }
  }

  lemma {:induction false} OpenIsDistinct(list: Messages, settled: set<ClientId>)
    requires Distinct(list)
    ensures Distinct(Open(list, settled))
  {
    if list != [] {
      var init, m := list[..|list| - 1], list[|list| - 1];
      assert list == init + [m];
      DistinctInit(init, m);
      OpenIsDistinct(init, settled);
      forall x | x in Open(init, settled) ensures x.client != m.client && x.server == 0 {
        OpenElements(init, settled, x);
        var i :| 0 <= i < |init| && init[i] == x;
        assert list[i].client != list[|init|].client;
      }
      AppendDistinct(Open(init, settled), m);
    }
  }

  lemma AppendDistinct(list: Messages, m: Message)
    requires Distinct(list) && forall x :: x in list ==> x.client != m.client && x.server == 0
    ensures Distinct(list + [m])
  {
    var longer := list + [m];
    forall i, j | 0 <= i < j < |longer|
      ensures longer[i].client != longer[j].client && (longer[i].server > 0 ==> longer[i].server != longer[j].server)
    {
      assert longer[i] == list[i] && list[i] in list;
    }
  }

  lemma JoinIsDistinct(list: Messages, page: Messages, c: Messages, u: Messages)
    requires Distinct(list) && Paired(list, page) && Page(page)
    requires MergedConfirmed(c, list, page) && u == Open(list, Clients(page))
    ensures Distinct(c + u)
  {
    OpenIsDistinct(list, Clients(page));
    forall x | x in u ensures x in list && x.server == 0 && x.client !in Clients(page) {
      OpenElements(list, Clients(page), x);
    }
    hide Open;
    var all := c + u;
    forall i, j | 0 <= i < j < |all|
      ensures all[i].client != all[j].client && (all[i].server > 0 ==> all[i].server != all[j].server)
    {
      if j < |c| {
        assert c[i] in c && c[j] in c;
        ConfirmedApart(list, page, c[i], c[j]);
      } else if i < |c| {
        assert c[i] in c && u[j - |c|] in u;
        OpenApart(list, page, c[i], u[j - |c|]);
      } else {
        assert u[i - |c|].client != u[j - |c|].client && u[i - |c|] in u;
      }
    }
  }

  predicate InMerge(list: Messages, page: Messages, x: Message) {
    x in page || (x in list && x.client !in Clients(page))
  }

  lemma ConfirmedApart(list: Messages, page: Messages, a: Message, b: Message)
    requires Distinct(list) && Paired(list, page) && Page(page)
    requires InMerge(list, page, a) && InMerge(list, page, b) && a.server > 0 && b.server > 0 && a.server != b.server
    ensures a.client != b.client
  {
    if a in page && b in page {
      assert SameMessage(a, b);
    } else if a in page || b in page {
      assert a in page ==> a.client in Clients(page);
      assert b in page ==> b.client in Clients(page);
    } else {
      var i :| 0 <= i < |list| && list[i] == a;
      var j :| 0 <= j < |list| && list[j] == b;
    }
  }

  lemma OpenApart(list: Messages, page: Messages, a: Message, b: Message)
    requires Distinct(list) && InMerge(list, page, a) && a.server > 0
    requires b in list && b.server == 0 && b.client !in Clients(page)
    ensures a.client != b.client
  {
    if a in page {
      assert a.client in Clients(page);
    } else {
      var i :| 0 <= i < |list| && list[i] == a;
      var j :| 0 <= j < |list| && list[j] == b;
    }
  }

  /** A merge leaves no message twice, and what was a page stays compatible with it. */
  lemma MergeKeepsDistinct(list: Messages, page: Messages, other: Messages)
    requires Distinct(list) && Paired(list, page) && Page(page) && Paired(list, other) && Paired(page, other)
    ensures Distinct(Merged(list, page)) && Paired(Merged(list, page), other)
  {
    UpsertsKeepDistinct(list, page);
    MergedElements(list, page);
    hide Merged, Distinct;
  }

  /** Merging the same page again changes nothing. */
  lemma MergeIsIdempotent(list: Messages, page: Messages)
    requires Distinct(list) && Paired(list, page) && Page(page)
    ensures Merged(Merged(list, page), page) == Merged(list, page)
  {
    if page != [] {
      var once := Merged(list, page);
      MergeKeepsDistinct(list, page, page);
      var c := MergeMeaning(list, page);
      var d := MergeMeaning(once, page);
      MergedOpen(list, page, Clients(page));
      assert Clients(page) + Clients(page) == Clients(page);
      MergedElements(list, page);
      hide Merged, Distinct, Open, Clients, Paired, Page;
      SameConfirmed(c, d);
    }
  }

  lemma SameConfirmed(c: Messages, d: Messages)
    requires Ascending(c) && Ascending(d) && forall x :: x in c <==> x in d
    ensures c == d
  {
    AscendingUnique(c, d);
  }

  /** Pages that agree with each other can be merged in either order. */
  lemma MergesCommute(list: Messages, p: Messages, q: Messages)
    requires Distinct(list) && Paired(list, p) && Paired(list, q)
    requires Page(p) && Page(q) && Agree(p, q) && Agree(q, p)
    ensures Merged(Merged(list, p), q) == Merged(Merged(list, q), p)
  {
    if p != [] && q != [] {
      var c := BothMerged(list, p, q);
      var d := BothMerged(list, q, p);
      assert Clients(p) + Clients(q) == Clients(q) + Clients(p);
      hide Merged, Distinct, Open, Clients, Paired, Page, Agree;
      SameConfirmed(c, d);
    }
  }

  lemma BothMerged(list: Messages, p: Messages, q: Messages) returns (c: Messages)
    requires Distinct(list) && Paired(list, p) && Paired(list, q) && p != [] && q != []
    requires Page(p) && Page(q) && Agree(p, q)
    ensures Merged(Merged(list, p), q) == c + Open(list, Clients(p) + Clients(q)) && Ascending(c)
    ensures forall x :: x in c <==>
      x in p || x in q || (x in list && x.server > 0 && x.client !in Clients(p) && x.client !in Clients(q))
  {
    MergeKeepsDistinct(list, p, q);
    MergedElements(list, p);
    MergedOpen(list, p, Clients(q));
    c := MergeMeaning(Merged(list, p), q);
    hide Merged, Distinct, Open, Paired;
    forall x | x in p && x.client in Clients(q) ensures x in q {
      InAgreement(p, q, x);
    }
    hide Agree, Clients, Ascending;
  }

  lemma InAgreement(p: Messages, q: Messages, x: Message)
    requires Page(p) && Page(q) && Agree(p, q) && x in p && x.client in Clients(q)
    ensures x in q
  {
    var y :| y in q && y.client == x.client;
    assert SameMessage(x, y);
  }

  // ---- Any sequence of events ----

  datatype Step =
    | Send(client: ClientId, content: nat)
    | Acknowledge(client: ClientId, failed: bool, m: Message)
    | Receive(m: Message)
    | Merge(page: Messages)
    | Interrupt                     // the connection is lost
    | Clear                         // another meeting becomes the active one

  /** The id the server gives to the message with a client id; it gives none twice. */
  type Numbering = ClientId -> nat

  ghost predicate OneToOne(ids: Numbering) {
    (forall a :: ids(a) > 0) && forall a, b :: ids(a) == ids(b) ==> a == b
  }

  predicate Genuine(m: Message, ids: Numbering) {
    m.server > 0 ==> m.server == ids(m.client)
  }

  ghost predicate AllGenuine(list: Messages, ids: Numbering) {
    forall m :: m in list ==> Genuine(m, ids)
  }

  ghost predicate Sane(list: Messages, ids: Numbering) {
    Distinct(list) && AllGenuine(list, ids)
  }

  /** Client ids of new messages are new, and the server's messages carry the ids it gave. */
  ghost predicate Enabled(list: Messages, step: Step, ids: Numbering) {
    match step
    case Send(client, _) => client !in Clients(list)
    case Acknowledge(client, failed, m) => failed || (m.client == client && m.server > 0 && Genuine(m, ids))
    case Receive(m) => m.server > 0 && Genuine(m, ids)
    case Merge(page) => Page(page) && AllGenuine(page, ids)
    case _ => true
  }

  function Sent(list: Messages, client: ClientId, content: nat): Messages {
    list + [Message(0, client, content, Sending, true)]
  }

  function Acknowledged(list: Messages, client: ClientId, failed: bool, m: Message): Messages {
    var row := RowOf(list, ByClient(client));
    if row == |list| then list
    else if failed then list[row := list[row].(delivery := Failing)]
    else list[row := m.(delivery := Delivered, mine := true)]
  }

  function Received(list: Messages, m: Message): Messages {
    var row := RowOf(list, ByClient(m.client));
    if row < |list| then list[row := m.(delivery := Delivered, mine := true)]
    else list + [m.(delivery := Delivered, mine := false)]
  }

  function Interrupted(list: Messages): Messages {
    seq(|list|, i requires 0 <= i < |list| =>
      if list[i].delivery.Sending? then list[i].(delivery := Unknown) else list[i])
  }

  function After(list: Messages, step: Step): Messages {
    match step
    case Send(client, content) => Sent(list, client, content)
    case Acknowledge(client, failed, m) => Acknowledged(list, client, failed, m)
    case Receive(m) => Received(list, m)
    case Merge(page) => Merged(list, page)
    case Interrupt => Interrupted(list)
    case Clear => []
  }

  /** With ids given one to one, distinct client ids are enough. */
  lemma DistinctByClient(list: Messages, ids: Numbering)
    requires OneToOne(ids) && AllGenuine(list, ids)
    requires forall i, j :: 0 <= i < j < |list| ==> list[i].client != list[j].client
    ensures Distinct(list)
  {
    forall i, j | 0 <= i < j < |list| && list[i].server > 0 ensures list[i].server != list[j].server {
      assert list[i] in list && list[j] in list;
    }
  }

  lemma GenuinePairs(list: Messages, page: Messages, ids: Numbering)
    requires OneToOne(ids) && AllGenuine(list, ids) && AllGenuine(page, ids)
    ensures Paired(list, page)
  {
  }

  /** The same client ids row by row, but perhaps a new one at the end. */
  lemma RowsKeepSane(list: Messages, next: Messages, ids: Numbering)
    requires OneToOne(ids) && Sane(list, ids) && AllGenuine(next, ids)
    requires |list| <= |next| <= |list| + 1 && forall i :: 0 <= i < |list| ==> next[i].client == list[i].client
    requires |next| > |list| ==> next[|list|].client !in Clients(list)
    ensures Sane(next, ids) && Clients(list) <= Clients(next)
  {
    forall i | 0 <= i < |list| ensures list[i].client in Clients(list) {
      assert list[i] in list;
    }
    DistinctByClient(next, ids);
    forall c | c in Clients(list) ensures c in Clients(next) {
      var i :| 0 <= i < |list| && list[i].client == c;
      assert next[i] in next;
    }
  }

  lemma MergeKeepsSane(list: Messages, page: Messages, ids: Numbering)
    requires OneToOne(ids) && Sane(list, ids) && Page(page) && AllGenuine(page, ids)
    ensures Sane(Merged(list, page), ids) && Clients(list) <= Clients(Merged(list, page))
  {
    GenuinePairs(list, page, ids);
    MergeKeepsDistinct(list, page, []);
    MergedElements(list, page);
    hide Merged, Distinct;
    forall c | c in Clients(list) ensures c in Clients(Merged(list, page)) {
      var x :| x in list && x.client == c;
      if c in Clients(page) {
        var y :| y in page && y.client == c;
        assert y in Merged(list, page);
      } else {
        assert x in Merged(list, page);
      }
    }
  }

  lemma AbsentRow(list: Messages, client: ClientId)
    ensures RowOf(list, ByClient(client)) == |list| ==> client !in Clients(list)
  {
  }

  lemma ReplacedIsGenuine(list: Messages, row: nat, m: Message, ids: Numbering)
    requires AllGenuine(list, ids) && Genuine(m, ids) && row <= |list|
    ensures row < |list| ==> AllGenuine(list[row := m], ids)
    ensures AllGenuine(list + [m], ids)
  {
  }

  lemma StepKeepsSane(list: Messages, step: Step, ids: Numbering)
    requires OneToOne(ids) && Sane(list, ids) && Enabled(list, step, ids)
    ensures Sane(After(list, step), ids)
    ensures !step.Clear? ==> Clients(list) <= Clients(After(list, step))
  {
    var next := After(list, step);
    hide Clients;
    match step
    case Send(client, content) =>
      ReplacedIsGenuine(list, |list|, Message(0, client, content, Sending, true), ids);
      RowsKeepSane(list, next, ids);
    case Acknowledge(client, failed, m) =>
      var row := RowOf(list, ByClient(client));
      if row < |list| {
        assert list[row] in list;
        ReplacedIsGenuine(list, row, next[row], ids);
      }
      RowsKeepSane(list, next, ids);
    case Receive(m) =>
      var row := RowOf(list, ByClient(m.client));
      AbsentRow(list, m.client);
      ReplacedIsGenuine(list, row, next[row], ids);
      RowsKeepSane(list, next, ids);
    case Merge(page) =>
      MergeKeepsSane(list, page, ids);
    case Interrupt =>
      forall i | 0 <= i < |list| ensures Genuine(next[i], ids) {
        assert list[i] in list;
      }
      RowsKeepSane(list, next, ids);
    case Clear =>
  }

  ghost predicate Feasible(list: Messages, steps: seq<Step>, ids: Numbering)
    decreases |steps|
  {
    steps == [] || (Enabled(list, steps[0], ids) && Feasible(After(list, steps[0]), steps[1..], ids))
  }

  function Run(list: Messages, steps: seq<Step>): Messages
    decreases |steps|
  {
    if steps == [] then list else Run(After(list, steps[0]), steps[1..])
  }

  /** In any sequence of sending, answers, receipts, merges and interruptions, in whatever order they arrive
      and however often, no message is in the list twice by either id ... */
  lemma {:induction false} NeverTwice(list: Messages, steps: seq<Step>, ids: Numbering)
    requires OneToOne(ids) && Sane(list, ids) && Feasible(list, steps, ids)
    ensures Sane(Run(list, steps), ids)
    decreases |steps|
  {
    hide Sane, Enabled, After;
    if steps != [] {
      StepKeepsSane(list, steps[0], ids);
      NeverTwice(After(list, steps[0]), steps[1..], ids);
    }
  }

  /** ... and none that was in it is lost while the meeting stays. */
  lemma {:induction false} NoneLost(list: Messages, steps: seq<Step>, ids: Numbering)
    requires OneToOne(ids) && Sane(list, ids) && Feasible(list, steps, ids) && Clear !in steps
    ensures Clients(list) <= Clients(Run(list, steps))
    decreases |steps|
  {
    hide Sane, Enabled, After, Clients;
    if steps != [] {
      assert steps[0] != Clear;
      StepKeepsSane(list, steps[0], ids);
      NoneLost(After(list, steps[0]), steps[1..], ids);
    }
  }

  // ---- The controller ----

  /** The row that a client id stands for: the first one with it. */
  predicate FirstRow(list: Messages, client: ClientId, row: int) {
    0 <= row < |list| && list[row].client == client && forall i :: 0 <= i < row ==> list[i].client != client
  }

  lemma FirstRowIs(list: Messages, client: ClientId)
    ensures forall row :: FirstRow(list, client, row) <==> row == RowOf(list, ByClient(client)) && row < |list|
    ensures RowOf(list, ByClient(client)) == |list| <==> forall i :: 0 <= i < |list| ==> list[i].client != client
  {
    var row := RowOf(list, ByClient(client));
    assert row < |list| ==> HasKey(list[row], ByClient(client));
    forall i | 0 <= i < row ensures list[i].client != client {
      assert !HasKey(list[i], ByClient(client));
    }
  }

  class ChatController {
    var messages: Messages
    ghost const ids: Numbering

    ghost predicate Valid()
      reads this
    {
      OneToOne(ids) && Sane(messages, ids)
    }

    constructor (ghost ids: Numbering)
      requires OneToOne(ids)
      ensures messages == [] && Valid() && this.ids == ids
    {
      messages := [];
      this.ids := ids;
    }

    /** Another meeting becomes the active one. */
    method SetActiveMeeting()
      modifies this`messages
      ensures messages == After(old(messages), Clear) && (old(Valid()) ==> Valid())
      ensures messages == []
    {
      messages := [];
    }

    /** `client` is freshly made up. */
    method SendMessage(client: ClientId, content: nat)
      modifies this`messages
      ensures messages == After(old(messages), Send(client, content))
      ensures |messages| == |old(messages)| + 1 && messages[..|old(messages)|] == old(messages)
      ensures var m := messages[|old(messages)|];
        m.client == client && m.content == content && m.server == 0 && m.delivery == Sending && m.mine
      ensures old(Valid()) && client !in Clients(old(messages)) ==> Valid()
    {
      if Valid() && client !in Clients(messages) {
        StepKeepsSane(messages, Send(client, content), ids);
      }
      messages := messages + [Message(0, client, content, Sending, true)];
    }

    method ConnectionInterrupted()
      modifies this`messages
      ensures messages == After(old(messages), Interrupt) && (old(Valid()) ==> Valid())
      ensures |messages| == |old(messages)| && forall i :: 0 <= i < |messages| ==>
        messages[i] == if old(messages)[i].delivery == Sending then old(messages)[i].(delivery := Unknown)
                       else old(messages)[i]
    {
      if Valid() {
        StepKeepsSane(messages, Interrupt, ids);
      }
      ghost var before := messages;
      for row := 0 to |messages|
        invariant |messages| == |before|
        invariant forall i :: 0 <= i < row ==> messages[i] == Interrupted(before)[i]
        invariant forall i :: row <= i < |before| ==> messages[i] == before[i]
      {
        if messages[row].delivery == Sending {
          messages := messages[row := messages[row].(delivery := Unknown)];
        }
      }
      assert messages == Interrupted(before);
    }

    method Find(key: Key) returns (row: nat)
      ensures row == RowOf(messages, key)
    {
      row := 0;
      assert messages[0..] == messages;
      while row < |messages|
        invariant row <= |messages| && RowOf(messages, key) == row + RowOf(messages[row..], key)
      {
        if HasKey(messages[row], key) {
          return;
        }
        assert messages[row..][1..] == messages[row + 1..];
        row := row + 1;
      }
    }

    method FindMessage(client: ClientId) returns (row: nat)
      ensures row == RowOf(messages, ByClient(client))
    {
      row := Find(ByClient(client));
    }

    /** A message without an id from the server is not looked for. */
    method FindMessageByServerId(server: nat) returns (row: nat)
      ensures row == if server == 0 then |messages| else RowOf(messages, ByServer(server))
    {
      if server == 0 {
        return |messages|;
      }
      row := Find(ByServer(server));
    }

    /** The number of messages that were not in the list before. */
    method MergeHistoryMessages(page: Messages) returns (added: nat)
      modifies this`messages
      ensures messages == Merged(old(messages), page)
      ensures |messages| == |old(messages)| + added
      ensures old(Valid()) && Page(page) && AllGenuine(page, ids) ==> Valid()
    {
      if Valid() && Page(page) && AllGenuine(page, ids) {
        StepKeepsSane(messages, Merge(page), ids);
      }
      hide Sane, OneToOne;
      added := 0;
      if page == [] {
        return;
      }
      var i := 0;
      while i < |page|
        invariant i <= |page| && messages == AllUpserted(old(messages), page[..i])
        invariant |messages| == |old(messages)| + added
      {
        var m := page[i];
        var row := FindMessage(m.client);
        if row >= |messages| {
          row := FindMessageByServerId(m.server);
        }
        if row < |messages| {
          messages := messages[row := m];
        } else {
          messages := messages + [m];
          added := added + 1;
        }
        assert page[..i + 1][..i] == page[..i];
        i := i + 1;
      }
      assert page[..i] == page;
      SortedLength(messages);
      messages := StableSorted(messages);
    }

    /** The server's answer to a message sent from here. */
    method ApplySendMessageAck(client: ClientId, failed: bool, m: Message)
      modifies this`messages
      ensures messages == After(old(messages), Acknowledge(client, failed, m))
      ensures |messages| == |old(messages)|
      ensures forall i :: 0 <= i < |messages| && !FirstRow(old(messages), client, i) ==> messages[i] == old(messages)[i]
      ensures failed ==> forall i :: FirstRow(old(messages), client, i) ==>
        messages[i] == old(messages)[i].(delivery := Failing)
      ensures !failed ==> forall i :: FirstRow(old(messages), client, i) ==>
        messages[i].server == m.server && messages[i].client == m.client && messages[i].content == m.content &&
        messages[i].delivery == Delivered && messages[i].mine
      ensures old(Valid()) && (failed || (m.client == client && m.server > 0 && Genuine(m, ids))) ==> Valid()
    {
      if Valid() && (failed || (m.client == client && m.server > 0 && Genuine(m, ids))) {
        StepKeepsSane(messages, Acknowledge(client, failed, m), ids);
      }
      FirstRowIs(messages, client);
      var row := FindMessage(client);
      if row >= |messages| {
        return;
      }
      if failed {
        messages := messages[row := messages[row].(delivery := Failing)];
      } else {
        messages := messages[row := m.(delivery := Delivered, mine := true)];
      }
    }

    /** A message from the server; one that was sent from here is recognised by its client id. */
    method ApplyMessageReceived(m: Message)
      modifies this`messages
      ensures messages == After(old(messages), Receive(m))
      ensures forall i :: 0 <= i < |old(messages)| && !FirstRow(old(messages), m.client, i) ==>
        i < |messages| && messages[i] == old(messages)[i]
      ensures forall i :: FirstRow(old(messages), m.client, i) ==>
        |messages| == |old(messages)| && messages[i].server == m.server && messages[i].client == m.client &&
        messages[i].content == m.content && messages[i].delivery == Delivered && messages[i].mine
      ensures (forall i :: 0 <= i < |old(messages)| ==> old(messages)[i].client != m.client) ==>
        |messages| == |old(messages)| + 1 && var last := messages[|old(messages)|];
        last.server == m.server && last.client == m.client && last.content == m.content &&
        last.delivery == Delivered && !last.mine
      ensures old(Valid()) && m.server > 0 && Genuine(m, ids) ==> Valid()
    {
      if Valid() && m.server > 0 && Genuine(m, ids) {
        StepKeepsSane(messages, Receive(m), ids);
      }
      FirstRowIs(messages, m.client);
      var row := FindMessage(m.client);
      if row < |messages| {
        messages := messages[row := m.(delivery := Delivered, mine := true)];
      } else {
        messages := messages + [m.(delivery := Delivered, mine := false)];
      }
    }
  }

  lemma {:induction false} InsertedLength(list: Messages, m: Message)
    ensures |Inserted(list, m)| == |list| + 1
  {
    if list != [] && !Before(m, list[0]) {
      InsertedLength(list[1..], m);
    }
  }

  lemma {:induction false} SortedLength(list: Messages)
    ensures |StableSorted(list)| == |list|
  {
    if list != [] {
      SortedLength(list[..|list| - 1]);
      InsertedLength(StableSorted(list[..|list| - 1]), list[|list| - 1]);
    }
  }
}
