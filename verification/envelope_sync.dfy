/** Cursor synchronisation: the sorted inbox query, the page loop, the client
    that drains pages, and the watermark of a client that syncs while other
    devices keep saving. */
module EnvelopeSync {
  import opened Bytes
  import opened PacketCodec
  import opened EnvelopeStore

  const PAGE_SIZE: nat := 100
  const PAGE_WIRE_BUDGET: nat := 512 * 1024
  const MAX_CURSORS: nat := 1000

  type Cursors = map<Uuid, nat>

  // ------------------------------------------------ the inbox query

  function After(cursors: Cursors, peer: Uuid): nat {
    if peer in cursors then cursors[peer] else 0
  }

  predicate Matches(e: Envelope, device: Uuid, cursors: Cursors) {
    e.recipient == device && e.number > After(cursors, e.sender)
  }

  /** ORDER BY sender_device_id, seq, envelope_id */
  predicate Before(a: Envelope, b: Envelope) {
    a.sender < b.sender || (a.sender == b.sender && (a.number < b.number || (a.number == b.number && a.id < b.id)))
  }

  ghost predicate Sorted(r: seq<Envelope>) {
    forall i, j :: 0 <= i < j < |r| ==> Before(r[i], r[j])
  }

  function InsertSorted(r: seq<Envelope>, e: Envelope): (t: seq<Envelope>) {
    if r == [] then [e]
    else if Before(e, r[0]) then [e] + r
    else [r[0]] + InsertSorted(r[1..], e)
  }

  function Query(log: seq<Envelope>, device: Uuid, cursors: Cursors): (r: seq<Envelope>) {
    if log == [] then []
    else
      var last, rest := log[|log| - 1], Query(log[..|log| - 1], device, cursors);
      if Matches(last, device, cursors) then InsertSorted(rest, last) else rest
  }

  lemma {:induction false} InsertSortedMembers(r: seq<Envelope>, e: Envelope, x: Envelope)
    ensures x in InsertSorted(r, e) <==> x == e || x in r
  {
    if r != [] && !Before(e, r[0]) {
      InsertSortedMembers(r[1..], e, x);
      assert r == [r[0]] + r[1..];
    }
  }

  lemma {:induction false} InsertSortedSorted(r: seq<Envelope>, e: Envelope)
    requires Sorted(r) && forall i :: 0 <= i < |r| ==> r[i].id != e.id
    ensures Sorted(InsertSorted(r, e))
  {
    if r != [] && !Before(e, r[0]) {
      var t := InsertSorted(r[1..], e);
      InsertSortedSorted(r[1..], e);
      forall j | 0 <= j < |t|
        ensures Before(r[0], t[j])
      {
        assert t[j] in t;
        InsertSortedMembers(r[1..], e, t[j]);
      }
    }
  }

  lemma {:induction false} QueryMembers(log: seq<Envelope>, device: Uuid, cursors: Cursors, x: Envelope)
    ensures x in Query(log, device, cursors) <==> x in log && Matches(x, device, cursors)
  {
    if log != [] {
      var front, last := log[..|log| - 1], log[|log| - 1];
      QueryMembers(front, device, cursors, x);
      InsertSortedMembers(Query(front, device, cursors), last, x);
      assert log == front + [last];
    }
  }

  lemma {:induction false} QuerySorted(log: seq<Envelope>, device: Uuid, cursors: Cursors)
    requires Distinct(log)
    ensures Sorted(Query(log, device, cursors))
  {
    if log != [] {
      var front, last := log[..|log| - 1], log[|log| - 1];
      QuerySorted(front, device, cursors);
      var r := Query(front, device, cursors);
      forall i | 0 <= i < |r|
        ensures r[i].id != last.id
      {
        QueryMembers(front, device, cursors, r[i]);
        assert r[i] in front;
      }
      InsertSortedSorted(r, last);
    }
  }

  /** A strictly sorted list is determined by its members. */
  lemma {:induction false} SortedUnique(a: seq<Envelope>, b: seq<Envelope>)
    requires Sorted(a) && Sorted(b) && forall x :: x in a <==> x in b
    ensures a == b
  {
    if a != [] || b != [] {
      assert a != [] ==> a[0] in b;
      assert b != [] ==> b[0] in a;
      assert a[0] == b[0];
      assert a == [a[0]] + a[1..] && b == [b[0]] + b[1..];
      forall x
        ensures x in a[1..] <==> x in b[1..]
      {
        assert a[0] !in a[1..] && b[0] !in b[1..];
        assert x in a[1..] ==> x in a;
        assert x in b[1..] ==> x in b;
      }
      SortedUnique(a[1..], b[1..]);
    }
  }

  // ------------------------------------------------ request cursors

  datatype Cursor = Cursor(peer: Uuid, after: int)

  ghost predicate ValidCursors(device: Uuid, list: seq<Cursor>) {
    && |list| <= MAX_CURSORS
    && (forall i :: 0 <= i < |list| ==> list[i].peer != 0 && list[i].peer != device && list[i].after >= 0)
    && (forall i, j :: 0 <= i < j < |list| ==> list[i].peer != list[j].peer)
  }

  function Peers(list: seq<Cursor>, n: nat): set<Uuid>
    requires n <= |list|
  {
    set k | 0 <= k < n :: list[k].peer
  }

  /** The cursors a request's list stands for. */
  ghost predicate IsMap(cursors: Cursors, list: seq<Cursor>) {
    && cursors.Keys == Peers(list, |list|)
    && forall i :: 0 <= i < |list| ==> list[i].peer in cursors && cursors[list[i].peer] == list[i].after
  }

  lemma {:induction false} BadCursor(device: Uuid, list: seq<Cursor>, i: nat)
    requires i < |list|
    requires list[i].peer == 0 || list[i].peer == device || list[i].after < 0 || list[i].peer in Peers(list, i)
    ensures !ValidCursors(device, list)
  {
  }

  /** The request check of a synchronisation; None is its invalid_argument. */
  method CheckCursors(user: Uuid, device: Uuid, list: seq<Cursor>) returns (r: Option<Cursors>)
    ensures r.Some? <==> user != 0 && device != 0 && ValidCursors(device, list)
    ensures r.Some? ==> IsMap(r.value, list)
  {
    if user == 0 || device == 0 || |list| > MAX_CURSORS { return None; }
    var cursors: Cursors := map[];
    for i := 0 to |list|
      invariant cursors.Keys == Peers(list, i)
      invariant forall k :: 0 <= k < i ==> list[k].peer != 0 && list[k].peer != device && list[k].after >= 0
      invariant forall j, k :: 0 <= j < k < i ==> list[j].peer != list[k].peer
      invariant forall k :: 0 <= k < i ==> list[k].peer in cursors && cursors[list[k].peer] == list[k].after
    {
      hide ValidCursors;
      var c := list[i];
      if c.peer == 0 || c.peer == device || c.after < 0 || c.peer in cursors {
        BadCursor(device, list, i);
        return None;
      }
      assert Peers(list, i + 1) == Peers(list, i) + {c.peer};
      cursors := cursors[c.peer := c.after];
    }
    return Some(cursors);
  }

  ghost predicate DistinctPeers(list: seq<Cursor>) {
    forall i, j :: 0 <= i < j < |list| ==> list[i].peer != list[j].peer
  }

  /** The list holds the cursors except those of the peers in `rest`. */
  ghost predicate Listed(cursors: Cursors, list: seq<Cursor>, rest: set<Uuid>) {
    && Peers(list, |list|) + rest == cursors.Keys && Peers(list, |list|) !! rest
    && |list| + |rest| == |cursors.Keys|
    && (forall i :: 0 <= i < |list| ==> list[i].peer in cursors && cursors[list[i].peer] == list[i].after)
    && DistinctPeers(list)
  }

  lemma {:induction false} ListedNext(cursors: Cursors, list: seq<Cursor>, rest: set<Uuid>, peer: Uuid)
    requires Listed(cursors, list, rest) && peer in rest
    ensures peer in cursors && Listed(cursors, list + [Cursor(peer, cursors[peer])], rest - {peer})
  {
    hide Peers;
    OneMorePeer(list, list + [Cursor(peer, cursors[peer])]);
  }

  lemma {:induction false} ListedAll(cursors: Cursors, list: seq<Cursor>)
    requires Listed(cursors, list, {})
    ensures IsMap(cursors, list) && DistinctPeers(list) && |list| == |cursors.Keys|
  {
    hide Peers;
  }

  /** A client's cursors as the list it sends. */
  method Entries(cursors: Cursors) returns (list: seq<Cursor>)
    ensures IsMap(cursors, list) && DistinctPeers(list) && |list| == |cursors.Keys|
  {
    list := [];
    var rest := cursors.Keys;
    assert Peers(list, 0) == {};
    assert Listed(cursors, list, rest);
    hide Listed, Peers, DistinctPeers;
    while rest != {}
      invariant Listed(cursors, list, rest)
      decreases rest
    {
      var peer :| peer in rest;
      ListedNext(cursors, list, rest, peer);
      list := list + [Cursor(peer, cursors[peer])];
      rest := rest - {peer};
    }
    ListedAll(cursors, list);
  }

  lemma {:induction false} OneMorePeer(list: seq<Cursor>, longer: seq<Cursor>)
    requires longer != [] && list == longer[..|longer| - 1]
    ensures Peers(longer, |longer|) == Peers(list, |list|) + {longer[|longer| - 1].peer}
    ensures forall i :: 0 <= i < |list| ==> list[i].peer in Peers(list, |list|)
  {
    forall p | p in Peers(longer, |longer|)
      ensures p in Peers(list, |list|) + {longer[|longer| - 1].peer}
    {
      var k :| 0 <= k < |longer| && longer[k].peer == p;
      assert k < |list| ==> list[k] == longer[k];
    }
    assert forall k :: 0 <= k < |list| ==> longer[k] == list[k];
  }

  /** A request the server does not refuse, by the peers it names. */
  ghost predicate Askable(user: Uuid, device: Uuid, peers: set<Uuid>) {
    user != 0 && device != 0 && |peers| <= MAX_CURSORS && 0 !in peers && device !in peers
  }

  lemma {:induction false} ListAskable(user: Uuid, device: Uuid, cursors: Cursors, list: seq<Cursor>)
    requires IsMap(cursors, list) && DistinctPeers(list) && |list| == |cursors.Keys|
    ensures user != 0 && device != 0 && ValidCursors(device, list) <==> Askable(user, device, cursors.Keys)
  {
    forall p
      ensures p in cursors.Keys <==> exists i :: 0 <= i < |list| && list[i].peer == p
    {
    }
  }

  /** A list stands for one set of cursors. */
  lemma {:induction false} OneMap(a: Cursors, b: Cursors, list: seq<Cursor>)
    requires IsMap(a, list) && IsMap(b, list)
    ensures a == b
  {
    forall p | p in a
      ensures p in b && a[p] == b[p]
    {
      var i :| 0 <= i < |list| && list[i].peer == p;
    }
  }

  // ------------------------------------------------ one page

  function RecordCost(e: Envelope): nat {
    4 * ((|e.packet| + 2) / 3) + 2048
  }

  function Cost(rows: seq<Envelope>): nat {
    if rows == [] then 0 else Cost(rows[..|rows| - 1]) + RecordCost(rows[|rows| - 1])
  }

  /** `k` is the length of the longest prefix within 100 records and the wire budget. */
  ghost predicate IsPage(rows: seq<Envelope>, k: nat) {
    && k <= |rows| && k <= PAGE_SIZE && Cost(rows[..k]) <= PAGE_WIRE_BUDGET
    && (k < |rows| ==> k == PAGE_SIZE || Cost(rows[..k + 1]) > PAGE_WIRE_BUDGET)
  }

  lemma {:induction false} CostMonotone(rows: seq<Envelope>, j: nat, k: nat)
    requires j <= k <= |rows|
    ensures Cost(rows[..j]) <= Cost(rows[..k])
  {
    if j < k {
      CostMonotone(rows, j, k - 1);
      assert rows[..k][..k - 1] == rows[..k - 1];
    }
  }

  /** The page is determined: no other length is the longest fitting prefix. */
  lemma {:induction false} PageUnique(rows: seq<Envelope>, j: nat, k: nat)
    requires IsPage(rows, j) && IsPage(rows, k)
    ensures j == k
  {
    if j < k { CostMonotone(rows, j + 1, k); }
    if k < j { CostMonotone(rows, k + 1, j); }
  }

  lemma {:induction false} CostBound(rows: seq<Envelope>)
    requires forall i :: 0 <= i < |rows| ==> |rows[i].packet| <= MAX_PACKET
    ensures Cost(rows) <= 89432 * |rows|
  {
    if rows != [] { CostBound(rows[..|rows| - 1]); }
  }

  /** A page cut short still carries at least five envelopes, so the client always progresses. */
  lemma {:induction false} ShortPageProgress(rows: seq<Envelope>, k: nat)
    requires IsPage(rows, k) && k < |rows| && forall i :: 0 <= i < |rows| ==> |rows[i].packet| <= MAX_PACKET
    ensures k >= 5
  {
    CostBound(rows[..k + 1]);
  }

  lemma {:induction false} CostSnoc(rows: seq<Envelope>, k: nat)
    requires k < |rows|
    ensures Cost(rows[..k + 1]) == Cost(rows[..k]) + RecordCost(rows[k])
  {
    assert rows[..k + 1][..k] == rows[..k];
  }

  lemma {:induction false} NoCost(rows: seq<Envelope>)
    ensures Cost(rows[..0]) == 0
  {
  }

  lemma {:induction false} PageStops(rows: seq<Envelope>, k: nat)
    requires k <= |rows| && k <= PAGE_SIZE && Cost(rows[..k]) <= PAGE_WIRE_BUDGET
    requires k == |rows| || k == PAGE_SIZE || Cost(rows[..k]) + RecordCost(rows[k]) > PAGE_WIRE_BUDGET
    ensures IsPage(rows, k)
  {
    if k < |rows| { CostSnoc(rows, k); }
  }

  datatype Page = Page(envelopes: seq<Envelope>, hasMore: bool)

  /** The page loop over the first 101 matches; None is the conversion error of an unreadable packet. */
  method BuildPage(rows: seq<Envelope>) returns (r: Option<Page>)
    ensures (forall i :: 0 <= i < |rows| ==> 1 <= |rows[i].packet| <= MAX_PACKET) ==> r.Some?
    ensures r.Some? ==>
      && IsPage(rows, |r.value.envelopes|)
      && r.value.envelopes == rows[..|r.value.envelopes|]
      && (r.value.hasMore <==> |r.value.envelopes| < |rows|)
    ensures r.None? ==> exists i :: 0 <= i < |rows| && i < PAGE_SIZE && !(1 <= |rows[i].packet| <= MAX_PACKET)
  {
    hide Hex, StoredPacket, Unhex, Cost, IsPage, RowOk;
    NoCost(rows);
    var result := rows[..if |rows| < PAGE_SIZE + 1 then |rows| else PAGE_SIZE + 1];
    var page: seq<Envelope> := [];
    var hasMore, estimated := false, 0;
    var row := 0;
    while row < |result|
      invariant 0 <= row <= |result| && |page| == row && !hasMore && row <= PAGE_SIZE
      invariant page == rows[..row] && estimated == Cost(rows[..row]) <= PAGE_WIRE_BUDGET
    {
      if |page| == PAGE_SIZE {
        hasMore := true;
        break;
      }
      StoredPacketRoundTrip(result[row].packet);
      var hex := EncodeHex(result[row].packet);
      var packet := DecodePacketHex(hex);
      if packet.None? { return None; }
      CostSnoc(rows, row);
      var recordCost := 4 * ((|packet.value| + 2) / 3) + 2048;
      var left: nat := PAGE_WIRE_BUDGET - estimated;
      if recordCost > left {
        hasMore := true;
        break;
      }
      assert result[row] == rows[row] == result[row].(packet := packet.value);
      page := page + [result[row].(packet := packet.value)];
      estimated := estimated + recordCost;
      row := row + 1;
    }
    PageStops(rows, row);
    return Some(Page(page, hasMore));
  }

  // ------------------------------------------------ advancing cursors

  /** Each sender's cursor moves to the largest number of its rows in the page; pages are sorted, so to the last. */
  function Advance(cursors: Cursors, page: seq<Envelope>): (c: Cursors) {
    if page == [] then cursors
    else Advance(cursors, page[..|page| - 1])[page[|page| - 1].sender := page[|page| - 1].number]
  }

  ghost predicate InPage(page: seq<Envelope>, peer: Uuid) {
    exists i :: 0 <= i < |page| && page[i].sender == peer
  }

  /** The cursor after a sorted page: the largest number seen, or unchanged. */
  lemma {:induction false} AdvanceValue(cursors: Cursors, page: seq<Envelope>, peer: Uuid)
    requires Sorted(page)
    ensures !InPage(page, peer) ==>
      && (peer in Advance(cursors, page) <==> peer in cursors)
      && After(Advance(cursors, page), peer) == After(cursors, peer)
    ensures InPage(page, peer) ==>
      && peer in Advance(cursors, page)
      && (exists i :: 0 <= i < |page| && page[i].sender == peer && page[i].number == Advance(cursors, page)[peer])
      && (forall i :: 0 <= i < |page| && page[i].sender == peer ==> page[i].number <= Advance(cursors, page)[peer])
  {
    if page != [] {
      var front, last := page[..|page| - 1], page[|page| - 1];
      AdvanceValue(cursors, front, peer);
      assert forall i :: 0 <= i < |front| ==> front[i] == page[i];
      if last.sender == peer {
        assert page[|page| - 1].sender == peer;
        forall i | 0 <= i < |page| && page[i].sender == peer
          ensures page[i].number <= last.number
        {
          if i < |page| - 1 { assert Before(page[i], last); }
        }
      } else if InPage(front, peer) {
        var i :| 0 <= i < |front| && front[i].sender == peer && front[i].number == Advance(cursors, front)[peer];
        assert page[i].sender == peer && page[i].number == Advance(cursors, page)[peer];
      }
    }
  }

  function Senders(rows: seq<Envelope>): set<Uuid> {
    set e | e in rows :: e.sender
  }

  lemma {:induction false} AdvanceKeys(cursors: Cursors, page: seq<Envelope>)
    ensures Advance(cursors, page).Keys == cursors.Keys + Senders(page)
  {
    if page != [] {
      var front, last := page[..|page| - 1], page[|page| - 1];
      AdvanceKeys(cursors, front);
      assert page == front + [last];
      assert Senders(page) == Senders(front) + {last.sender};
    }
  }

  /** Two committed envelopes of one pair with the same number are the same envelope. */
  lemma {:induction false} NumberIdentifies(log: seq<Envelope>, a: Envelope, b: Envelope)
    requires Numbered(log) && a in log && b in log && EnvelopePair(a) == EnvelopePair(b) && a.number == b.number
    ensures a == b
  {
    var i :| 0 <= i < |log| && log[i] == a;
    var j :| 0 <= j < |log| && log[j] == b;
    var k := OfPairMember(log, i);
    var l := OfPairMember(log, j);
  }

  ghost predicate LogOk(log: seq<Envelope>) {
    Numbered(log) && Distinct(log) && forall i :: 0 <= i < |log| ==> RowOk(log[i])
  }

  /** Whether a row still matches once the first `k` matches moved the cursors. */
  lemma {:induction false} StillMatches(log: seq<Envelope>, device: Uuid, cursors: Cursors, k: nat, x: Envelope)
    requires LogOk(log) && k <= |Query(log, device, cursors)|
    ensures var rows := Query(log, device, cursors);
      x in rows[k..] <==> x in log && Matches(x, device, Advance(cursors, rows[..k]))
  {
    hide Query, Advance;
    var rows := Query(log, device, cursors);
    var page := rows[..k];
    var next := Advance(cursors, page);
    QuerySorted(log, device, cursors);
    QueryMembers(log, device, cursors, x);
    AdvanceValue(cursors, page, x.sender);
    if InPage(page, x.sender) {
      var j :| 0 <= j < |page| && page[j].sender == x.sender && page[j].number == next[x.sender];
      assert rows[j] in rows;
      QueryMembers(log, device, cursors, rows[j]);
      if x in rows {
        var i :| 0 <= i < |rows| && rows[i] == x;
        if i >= k {
          assert Before(rows[j], rows[i]);
          if rows[j].number == x.number { NumberIdentifies(log, rows[j], x); }
        } else {
          assert page[i] == x;
          SortedOnce(rows, i, x, k);
        }
      }
    } else if x in rows {
      var i :| 0 <= i < |rows| && rows[i] == x;
      assert x !in page;
      assert rows == page + rows[k..];
    }
  }

  lemma {:induction false} SortedOnce(rows: seq<Envelope>, i: nat, x: Envelope, k: nat)
    requires Sorted(rows) && i < k <= |rows| && rows[i] == x
    ensures x !in rows[k..]
  {
  }

  /** After a page, the next query returns exactly the rows the page left. */
  lemma {:induction false} QueryAfterPage(log: seq<Envelope>, device: Uuid, cursors: Cursors, k: nat)
    requires LogOk(log) && k <= |Query(log, device, cursors)|
    ensures var rows := Query(log, device, cursors);
      Query(log, device, Advance(cursors, rows[..k])) == rows[k..]
  {
    var rows := Query(log, device, cursors);
    var next := Advance(cursors, rows[..k]);
    QuerySorted(log, device, cursors);
    QuerySorted(log, device, next);
    forall x
      ensures x in Query(log, device, next) <==> x in rows[k..]
    {
      StillMatches(log, device, cursors, k, x);
      QueryMembers(log, device, next, x);
    }
    SortedUnique(Query(log, device, next), rows[k..]);
  }

  lemma {:induction false} QueryRowsOk(log: seq<Envelope>, device: Uuid, cursors: Cursors)
    requires LogOk(log)
    ensures forall i :: 0 <= i < |Query(log, device, cursors)| ==> RowOk(Query(log, device, cursors)[i])
  {
    var rows := Query(log, device, cursors);
    forall i | 0 <= i < |rows|
      ensures RowOk(rows[i])
    {
      QueryMembers(log, device, cursors, rows[i]);
    }
  }

  /** What is known between two pages of a drain. */
  ghost predicate Draining(log: seq<Envelope>, device: Uuid, cursors: Cursors, delivered: seq<Envelope>,
                           last: Cursors) {
    && delivered + Query(log, device, last) == Query(log, device, cursors)
    && last.Keys == cursors.Keys + Senders(delivered)
  }

  lemma {:induction false} SplitRows(delivered: seq<Envelope>, rows: seq<Envelope>, k: nat)
    requires k <= |rows|
    ensures (delivered + rows[..k]) + rows[k..] == delivered + rows
    ensures Senders(delivered + rows[..k]) == Senders(delivered) + Senders(rows[..k])
  {
  }

  lemma {:induction false} DrainStep(log: seq<Envelope>, device: Uuid, cursors: Cursors,
                                     delivered: seq<Envelope>, last: Cursors, k: nat)
    requires LogOk(log) && Draining(log, device, cursors, delivered, last) && k <= |Query(log, device, last)|
    ensures var page := Query(log, device, last)[..k];
      && Draining(log, device, cursors, delivered + page, Advance(last, page))
      && |Query(log, device, Advance(last, page))| == |Query(log, device, last)| - k
  {
    var rows := Query(log, device, last);
    QueryAfterPage(log, device, last, k);
    AdvanceKeys(last, rows[..k]);
    SplitRows(delivered, rows, k);
  }

  /** The exact page of a query, with progress. */
  ghost predicate ExactPage(rows: seq<Envelope>, page: Page) {
    && IsPage(rows, |page.envelopes|)
    && page.envelopes == rows[..|page.envelopes|]
    && (page.hasMore <==> |page.envelopes| < |rows|)
    && (page.hasMore ==> |page.envelopes| >= 5)
  }

  /** The length of the page of some rows, counting on from `k`. */
  ghost function PageFrom(rows: seq<Envelope>, k: nat): (n: nat)
    requires k <= |rows|
    decreases |rows| - k
  {
    if k == |rows| || k == PAGE_SIZE || Cost(rows[..k + 1]) > PAGE_WIRE_BUDGET then k else PageFrom(rows, k + 1)
  }

  lemma {:induction false} PageFromIsPage(rows: seq<Envelope>, k: nat)
    requires k <= |rows| && k <= PAGE_SIZE && Cost(rows[..k]) <= PAGE_WIRE_BUDGET
    ensures IsPage(rows, PageFrom(rows, k))
    decreases |rows| - k
  {
    hide Cost;
    if !(k == |rows| || k == PAGE_SIZE || Cost(rows[..k + 1]) > PAGE_WIRE_BUDGET) { PageFromIsPage(rows, k + 1); }
  }

  /** Where the last page of a drain of some rows begins. */
  ghost function LastPageStart(rows: seq<Envelope>): (n: nat)
    ensures n <= |rows|
    decreases |rows|
  {
    var k := PageFrom(rows, 0);
    if 0 < k < |rows| then k + LastPageStart(rows[k..]) else 0
  }

  lemma {:induction false} LastPageAfter(rows: seq<Envelope>, page: Page)
    requires ExactPage(rows, page)
    ensures LastPageStart(rows)
         == if page.hasMore then |page.envelopes| + LastPageStart(rows[|page.envelopes|..]) else 0
  {
    NoCost(rows);
    PageFromIsPage(rows, 0);
    PageUnique(rows, PageFrom(rows, 0), |page.envelopes|);
  }

  /** One synchronisation: refused exactly when its cursors are not valid, otherwise the exact page. */
  method SyncPage(log: seq<Envelope>, user: Uuid, device: Uuid, list: seq<Cursor>)
    returns (r: Option<Page>, ghost asked: Cursors)
    requires LogOk(log)
    ensures r.Some? <==> user != 0 && device != 0 && ValidCursors(device, list)
    ensures r.Some? ==> IsMap(asked, list) && ExactPage(Query(log, device, asked), r.value)
  {
    hide ValidCursors, IsMap, IsPage, Query;
    asked := map[];
    var cursors := CheckCursors(user, device, list);
    if cursors.None? { return None, asked; }
    asked := cursors.value;
    var rows := Query(log, device, cursors.value);
    QueryRowsOk(log, device, cursors.value);
    r := BuildPage(rows);
    if r.value.hasMore { ShortPageProgress(rows, |r.value.envelopes|); }
  }

  /** A client's request for the page after its cursors. */
  method AskPage(log: seq<Envelope>, user: Uuid, device: Uuid, cursors: Cursors) returns (r: Option<Page>)
    requires LogOk(log)
    ensures r.Some? <==> Askable(user, device, cursors.Keys)
    ensures r.Some? ==> ExactPage(Query(log, device, cursors), r.value)
  {
    hide ValidCursors, IsMap, IsPage, Query, ExactPage, Askable, DistinctPeers;
    var list := Entries(cursors);
    ListAskable(user, device, cursors, list);
    ghost var asked;
    r, asked := SyncPage(log, user, device, list);
    if r.Some? { OneMap(asked, cursors, list); }
  }

  /** The peers a page adds to the cursors can be asked about: no envelope is from nobody or from the device itself. */
  lemma {:induction false} SendersAskable(log: seq<Envelope>, device: Uuid, cursors: Cursors)
    requires LogOk(log)
    ensures 0 !in Senders(Query(log, device, cursors)) && device !in Senders(Query(log, device, cursors))
  {
    var rows := Query(log, device, cursors);
    forall e | e in rows
      ensures e.sender != 0 && e.sender != device
    {
      QueryMembers(log, device, cursors, e);
      assert RowOk(e);
    }
  }

  /** Between two pages of a drain only the number of cursors can make the next request refused. */
  lemma {:induction false} StillAskable(log: seq<Envelope>, user: Uuid, device: Uuid, cursors: Cursors,
                                        delivered: seq<Envelope>, last: Cursors)
    requires LogOk(log) && Draining(log, device, cursors, delivered, last) && Askable(user, device, cursors.Keys)
    ensures Askable(user, device, last.Keys) <==> |last.Keys| <= MAX_CURSORS
  {
    hide Query;
    SendersAskable(log, device, cursors);
    var rows := Query(log, device, cursors);
    assert forall e :: e in delivered ==> e in rows;
    assert Senders(delivered) <= Senders(rows);
  }

  /** How far a drain is: what is left ends with the same last page. */
  ghost predicate Ahead(rows: seq<Envelope>, delivered: seq<Envelope>, rest: seq<Envelope>) {
    delivered + rest == rows && |delivered| + LastPageStart(rest) == LastPageStart(rows)
  }

  /** The peers of any request of a drain are among those of its last, so too many of them stay too many. */
  lemma {:induction false} TooManyStays(rows: seq<Envelope>, delivered: seq<Envelope>, rest: seq<Envelope>,
                                        keys: set<Uuid>)
    requires Ahead(rows, delivered, rest)
    ensures |keys + Senders(delivered)| <= |keys + Senders(rows[..LastPageStart(rows)])|
    ensures |keys + Senders(rows[..LastPageStart(rows)])| <= |keys + Senders(rows)|
  {
    hide LastPageStart;
    var upTo := rows[..LastPageStart(rows)];
    assert delivered == rows[..|delivered|];
    assert forall e :: e in delivered ==> e in upTo;
    assert forall e :: e in upTo ==> e in rows;
    SubsetSize(keys + Senders(delivered), keys + Senders(upTo));
    SubsetSize(keys + Senders(upTo), keys + Senders(rows));
  }

  lemma {:induction false} DrainPage(log: seq<Envelope>, device: Uuid, cursors: Cursors,
                                     delivered: seq<Envelope>, last: Cursors, page: Page)
    requires LogOk(log) && Draining(log, device, cursors, delivered, last)
    requires ExactPage(Query(log, device, last), page)
    ensures var next, rows := Advance(last, page.envelopes), Query(log, device, cursors);
      && Draining(log, device, cursors, delivered + page.envelopes, next)
      && (page.hasMore ==> |Query(log, device, next)| < |Query(log, device, last)|)
      && (Ahead(rows, delivered, Query(log, device, last)) ==>
            if page.hasMore then Ahead(rows, delivered + page.envelopes, Query(log, device, next))
            else |delivered| == LastPageStart(rows))
      && (!page.hasMore ==> delivered + page.envelopes == Query(log, device, cursors) && Query(log, device, next) == [])
  {
    hide Query, Advance, Cost, LogOk, Senders, LastPageStart;
    DrainStep(log, device, cursors, delivered, last, |page.envelopes|);
    QueryAfterPage(log, device, last, |page.envelopes|);
    LastPageAfter(Query(log, device, last), page);
  }

  lemma {:induction false} DrainStart(log: seq<Envelope>, device: Uuid, cursors: Cursors)
    ensures Draining(log, device, cursors, [], cursors)
    ensures Ahead(Query(log, device, cursors), [], Query(log, device, cursors))
  {
    assert [] + Query(log, device, cursors) == Query(log, device, cursors);
  }

  /** The peers named by the last request of a drain. */
  ghost function LastPeers(log: seq<Envelope>, device: Uuid, cursors: Cursors): set<Uuid> {
    var rows := Query(log, device, cursors);
    cursors.Keys + Senders(rows[..LastPageStart(rows)])
  }

  /** Drain the inbox with no new saves: every match is delivered once, in order. It succeeds exactly when the first
      request is acceptable and the last one names at most 1000 peers; None is a refused request. */
  method Drain(log: seq<Envelope>, user: Uuid, device: Uuid, cursors: Cursors)
    returns (r: Option<seq<Envelope>>, last: Cursors)
    requires LogOk(log)
    ensures r.Some? ==> r.value == Query(log, device, cursors) && Query(log, device, last) == []
    ensures r.Some? <==> Askable(user, device, cursors.Keys) && |LastPeers(log, device, cursors)| <= MAX_CURSORS
    ensures Askable(user, device, cursors.Keys) && |cursors.Keys + Senders(Query(log, device, cursors))| <= MAX_CURSORS
      ==> r.Some?
  {
    hide Query, Advance, Askable, ExactPage, LogOk, LastPageStart;
    last := cursors;
    var delivered: seq<Envelope> := [];
    DrainStart(log, device, cursors);
    ghost var rows := Query(log, device, cursors);
    var page := AskPage(log, user, device, last);
    while page.Some? && page.value.hasMore
      invariant Draining(log, device, cursors, delivered, last)
      invariant Ahead(rows, delivered, Query(log, device, last))
      invariant page.Some? <==> Askable(user, device, last.Keys)
      invariant page.Some? ==> ExactPage(Query(log, device, last), page.value) && Askable(user, device, cursors.Keys)
      decreases |Query(log, device, last)|
    {
      DrainPage(log, device, cursors, delivered, last, page.value);
      delivered := delivered + page.value.envelopes;
      last := Advance(last, page.value.envelopes);
      page := AskPage(log, user, device, last);
    }
    TooManyStays(rows, delivered, Query(log, device, last), cursors.Keys);
    if Askable(user, device, cursors.Keys) { StillAskable(log, user, device, cursors, delivered, last); }
    if page.None? { return None, last; }
    DrainPage(log, device, cursors, delivered, last, page.value);
    assert delivered == rows[..|delivered|];
    return Some(delivered + page.value.envelopes), Advance(last, page.value.envelopes);
  }

  lemma {:induction false} SubsetSize(a: set<Uuid>, b: set<Uuid>)
    requires a <= b
    ensures |a| <= |b|
  {
    assert b == a + (b - a);
  }

  // ------------------------------------------------ syncing while others save

  datatype Client = Client(cursors: Cursors, received: set<Envelope>)

  /** A synchronisation in flight: its request's cursors and, once the server read, its page. */
  datatype Sync = Sync(device: Uuid, cursors: Cursors, page: Option<seq<Envelope>>)

  datatype World = World(store: State, clients: map<Uuid, Client>, syncs: map<nat, Sync>)

  datatype Event =
    | Store(step: Step)                      // any step of any concurrent save
    | Join(device: Uuid)
    | Ask(sync: nat, device: Uuid)           // the client sends its present cursors
    | Read(sync: nat, count: nat)            // the server's query and page
    | Deliver(sync: nat)                     // the client takes the page and moves its cursors
    | Lose(sync: nat)                        // error, denial or lost reply
    | Push(device: Uuid, index: nat)         // an online push; moves no cursor

  predicate Possible(w: World, e: Event) {
    match e
    case Store(_) => true
    case Join(device) => device !in w.clients
    case Ask(sync, device) =>
      sync !in w.syncs && device in w.clients && |w.clients[device].cursors| <= MAX_CURSORS
    case Read(sync, count) =>
      && sync in w.syncs && w.syncs[sync].page.None?
      && count <= |Query(w.store.log, w.syncs[sync].device, w.syncs[sync].cursors)|
    case Deliver(sync) => sync in w.syncs && w.syncs[sync].page.Some? && w.syncs[sync].device in w.clients
    case Lose(sync) => sync in w.syncs
    case Push(device, index) =>
      device in w.clients && index < |w.store.log| && w.store.log[index].recipient == device
  }

  function Elements(page: seq<Envelope>): set<Envelope> {
    set e | e in page
  }

  function Happen(hash: Pair -> nat, w: World, e: Event): World
    requires Possible(w, e)
  {
    match e
    case Store(step) => w.(store := Next(hash, w.store, step))
    case Join(device) => w.(clients := w.clients[device := Client(map[], {})])
    case Ask(sync, device) => w.(syncs := w.syncs[sync := Sync(device, w.clients[device].cursors, None)])
    case Read(sync, count) =>
      var y := w.syncs[sync];
      w.(syncs := w.syncs[sync := y.(page := Some(Query(w.store.log, y.device, y.cursors)[..count]))])
    case Deliver(sync) =>
      var y := w.syncs[sync];
      var c := w.clients[y.device];
      var next := Client(Advance(c.cursors, y.page.value), c.received + Elements(y.page.value));
      w.(clients := w.clients[y.device := next],
         syncs := w.syncs - {sync})
    case Lose(sync) => w.(syncs := w.syncs - {sync})
    case Push(device, index) =>
      var c := w.clients[device];
      w.(clients := w.clients[device := c.(received := c.received + {w.store.log[index]})])
  }

  const START: World := World(EMPTY, map[], map[])

  function Play(hash: Pair -> nat, events: seq<Event>): World {
    if events == [] then START
    else
      var w, e := Play(hash, events[..|events| - 1]), events[|events| - 1];
      if Possible(w, e) then Happen(hash, w, e) else w
  }

  /** Everything committed for `device` at or below its cursors has been received. */
  ghost predicate Covered(log: seq<Envelope>, device: Uuid, cursors: Cursors, received: set<Envelope>) {
    && (forall peer :: peer in cursors ==> cursors[peer] <= |OfPair(log, PairOf(peer, device))|)
    && (forall e :: e in log && e.recipient == device && e.sender in cursors && e.number <= cursors[e.sender] ==>
          e in received)
  }

  ghost predicate SyncOk(log: seq<Envelope>, y: Sync, received: set<Envelope>) {
    match y.page
    case None => Covered(log, y.device, y.cursors, received)
    case Some(page) => Sorted(page) && Covered(log, y.device, Advance(y.cursors, page), received + Elements(page))
  }

  ghost predicate WorldInv(hash: Pair -> nat, w: World) {
    && Inv(hash, w.store)
    && (forall d :: d in w.clients ==> Covered(w.store.log, d, w.clients[d].cursors, w.clients[d].received))
    && (forall y :: y in w.syncs ==>
          w.syncs[y].device in w.clients && SyncOk(w.store.log, w.syncs[y], w.clients[w.syncs[y].device].received))
  }

  /** A later commit of the pair is numbered above every cursor, so coverage survives it. */
  lemma {:induction false} CoveredAppend(log: seq<Envelope>, e: Envelope, device: Uuid, cursors: Cursors,
                                         received: set<Envelope>)
    requires Covered(log, device, cursors, received) && e.number == |OfPair(log, EnvelopePair(e))| + 1
    ensures Covered(log + [e], device, cursors, received)
  {
  }

  lemma {:induction false} NumberWithinPair(log: seq<Envelope>, e: Envelope)
    requires Numbered(log) && e in log
    ensures e.number <= |OfPair(log, EnvelopePair(e))|
  {
    var i :| 0 <= i < |log| && log[i] == e;
    var k := OfPairMember(log, i);
  }

  /** A page prefix extends coverage to the cursors it moves. */
  lemma {:induction false} ReadCovers(log: seq<Envelope>, device: Uuid, cursors: Cursors, received: set<Envelope>,
                                      k: nat)
    requires LogOk(log) && Covered(log, device, cursors, received) && k <= |Query(log, device, cursors)|
    ensures var page := Query(log, device, cursors)[..k];
      Sorted(page) && Covered(log, device, Advance(cursors, page), received + Elements(page))
  {
    hide Query, Advance;
    var rows := Query(log, device, cursors);
    var page := rows[..k];
    var next := Advance(cursors, page);
    QuerySorted(log, device, cursors);
    forall peer | peer in next
      ensures next[peer] <= |OfPair(log, PairOf(peer, device))|
    {
      AdvanceValue(cursors, page, peer);
      if InPage(page, peer) {
        var i :| 0 <= i < |page| && page[i].sender == peer && page[i].number == next[peer];
        QueryMembers(log, device, cursors, rows[i]);
        NumberWithinPair(log, rows[i]);
      }
    }
    forall x | x in log && x.recipient == device && x.sender in next && x.number <= next[x.sender]
      ensures x in received + Elements(page)
    {
      StillMatches(log, device, cursors, k, x);
      QueryMembers(log, device, cursors, x);
      assert rows == page + rows[k..];
      if !Matches(x, device, cursors) { PositiveNumber(log, x); }
    }
  }

  lemma {:induction false} PositiveNumber(log: seq<Envelope>, e: Envelope)
    requires Numbered(log) && e in log
    ensures e.number >= 1
  {
    var i :| 0 <= i < |log| && log[i] == e;
    var k := OfPairMember(log, i);
  }

  /** Delivering a page moves only the cursors of the page's senders, so the rest stay covered as before. */
  lemma {:induction false} DeliverCovers(log: seq<Envelope>, device: Uuid, held: Cursors, received: set<Envelope>,
                                         asked: Cursors, page: seq<Envelope>)
    requires Covered(log, device, held, received) && Sorted(page)
    requires Covered(log, device, Advance(asked, page), received + Elements(page))
    ensures Covered(log, device, Advance(held, page), received + Elements(page))
  {
    forall peer | peer in Advance(held, page)
      ensures Advance(held, page)[peer] ==
        if InPage(page, peer) then After(Advance(asked, page), peer) else After(held, peer)
      ensures if InPage(page, peer) then peer in Advance(asked, page) else peer in held
    {
      AdvanceValue(held, page, peer);
      AdvanceValue(asked, page, peer);
    }
  }

  lemma {:induction false} CoveredMore(log: seq<Envelope>, y: Sync, received: set<Envelope>, more: set<Envelope>)
    requires SyncOk(log, y, received) && received <= more
    ensures SyncOk(log, y, more)
  {
  }

  lemma {:induction false} StoreKeeps(hash: Pair -> nat, w: World, step: Step)
    requires WorldInv(hash, w)
    ensures WorldInv(hash, w.(store := Next(hash, w.store, step)))
  {
    NextKeeps(hash, w.store, step);
    LogStep(hash, w.store, step);
    var log := Next(hash, w.store, step).log;
    if log != w.store.log {
      var e :| log == w.store.log + [e] && e.number == |OfPair(w.store.log, EnvelopePair(e))| + 1;
      forall d | d in w.clients
        ensures Covered(log, d, w.clients[d].cursors, w.clients[d].received)
      {
        CoveredAppend(w.store.log, e, d, w.clients[d].cursors, w.clients[d].received);
      }
      forall n | n in w.syncs
        ensures SyncOk(log, w.syncs[n], w.clients[w.syncs[n].device].received)
      {
        var y := w.syncs[n];
        var received := w.clients[y.device].received;
        match y.page
        case None => CoveredAppend(w.store.log, e, y.device, y.cursors, received);
        case Some(page) => CoveredAppend(w.store.log, e, y.device, Advance(y.cursors, page), received + Elements(page));
      }
    }
  }

  /** Replacing a client by one that received at least as much keeps its syncs in order. */
  lemma {:induction false} ClientKeeps(hash: Pair -> nat, w: World, device: Uuid, c: Client)
    requires WorldInv(hash, w) && Covered(w.store.log, device, c.cursors, c.received)
    requires device in w.clients ==> w.clients[device].received <= c.received
    ensures WorldInv(hash, w.(clients := w.clients[device := c]))
  {
    forall n | n in w.syncs
      ensures w.syncs[n].device in w.clients[device := c]
      ensures SyncOk(w.store.log, w.syncs[n], w.clients[device := c][w.syncs[n].device].received)
    {
      if w.syncs[n].device == device {
        CoveredMore(w.store.log, w.syncs[n], w.clients[device].received, c.received);
      }
    }
  }

  lemma {:induction false} ReadKeeps(hash: Pair -> nat, w: World, sync: nat, count: nat)
    requires WorldInv(hash, w) && Possible(w, Read(sync, count))
    ensures WorldInv(hash, Happen(hash, w, Read(sync, count)))
  {
    hide Query, Covered, Sorted;
    var y := w.syncs[sync];
    ReadCovers(w.store.log, y.device, y.cursors, w.clients[y.device].received, count);
  }

  lemma {:induction false} DeliverKeeps(hash: Pair -> nat, w: World, sync: nat)
    requires WorldInv(hash, w) && Possible(w, Deliver(sync))
    ensures WorldInv(hash, Happen(hash, w, Deliver(sync)))
  {
    hide Covered, Sorted, Inv;
    var y := w.syncs[sync];
    var c := w.clients[y.device];
    DeliverCovers(w.store.log, y.device, c.cursors, c.received, y.cursors, y.page.value);
    ClientKeeps(hash, w, y.device, Client(Advance(c.cursors, y.page.value), c.received + Elements(y.page.value)));
  }

  lemma {:induction false} HappenKeeps(hash: Pair -> nat, w: World, e: Event)
    requires WorldInv(hash, w) && Possible(w, e)
    ensures WorldInv(hash, Happen(hash, w, e))
  {
    hide Query, Advance, Inv;
    match e
    case Store(step) => StoreKeeps(hash, w, step);
    case Join(device) => ClientKeeps(hash, w, device, Client(map[], {}));
    case Ask(sync, device) =>
    case Read(sync, count) => ReadKeeps(hash, w, sync, count);
    case Deliver(sync) => DeliverKeeps(hash, w, sync);
    case Lose(sync) =>
    case Push(device, index) =>
      var c := w.clients[device];
      ClientKeeps(hash, w, device, c.(received := c.received + {w.store.log[index]}));
  }

  lemma {:induction false} PlayKeeps(hash: Pair -> nat, events: seq<Event>)
    ensures WorldInv(hash, Play(hash, events))
  {
    if events != [] {
      var w, e := Play(hash, events[..|events| - 1]), events[|events| - 1];
      PlayKeeps(hash, events[..|events| - 1]);
      if Possible(w, e) { HappenKeeps(hash, w, e); }
    }
  }

  /** Watermark safety: however saves, aborts, overlapping and lost syncs and pushes
      interleave, a client has received every envelope committed to it by a peer at
      or below that peer's cursor. */
  lemma {:induction false} WatermarkNeverSkips(hash: Pair -> nat, events: seq<Event>, device: Uuid, e: Envelope)
    requires var w := Play(hash, events);
      && device in w.clients && e in w.store.log && e.recipient == device
      && e.sender in w.clients[device].cursors && e.number <= w.clients[device].cursors[e.sender]
    ensures e in Play(hash, events).clients[device].received
  {
    PlayKeeps(hash, events);
  }
}
