/** The query and its pages in literal terms: which rows, in which order, and how many fit. */
module EnvelopeWire {
  import opened Bytes
  import opened PacketCodec
  import opened EnvelopeStore
  import opened EnvelopeSync

  /** A row matches if it is for the device and its number is above the sender's cursor, if there is one. */
  lemma {:induction false} QueryContents(log: seq<Envelope>, device: Uuid, cursors: Cursors, x: Envelope)
    requires LogOk(log)
    ensures x in Query(log, device, cursors) <==>
      x in log && x.recipient == device && (x.sender in cursors ==> x.number > cursors[x.sender])
  {
    QueryMembers(log, device, cursors, x);
    if x in log { PositiveNumber(log, x); }
  }

  /** Rows come by sender, and each sender's by rising number. */
  lemma {:induction false} QueryOrder(log: seq<Envelope>, device: Uuid, cursors: Cursors, i: nat, j: nat)
    requires LogOk(log) && i < j < |Query(log, device, cursors)|
    ensures var a, b := Query(log, device, cursors)[i], Query(log, device, cursors)[j];
      a.sender < b.sender || (a.sender == b.sender && a.number < b.number)
  {
    hide Query;
    var rows := Query(log, device, cursors);
    QuerySorted(log, device, cursors);
    QueryMembers(log, device, cursors, rows[i]);
    QueryMembers(log, device, cursors, rows[j]);
    assert Before(rows[i], rows[j]);
    if rows[i].sender == rows[j].sender && rows[i].number == rows[j].number {
      NumberIdentifies(log, rows[i], rows[j]);
    }
  }

  /** The wire size of some rows: each packet in Base64 and 2048 bytes for the rest of its record. */
  function WireSize(rows: seq<Envelope>): nat {
    if rows == [] then 0 else |Base64(rows[0].packet)| + 2048 + WireSize(rows[1..])
  }

  lemma {:induction false} RecordCostIs(e: Envelope)
    ensures RecordCost(e) == |Base64(e.packet)| + 2048
  {
    Base64Length(e.packet);
  }

  lemma {:induction false} WireSizeLast(rows: seq<Envelope>)
    requires rows != []
    ensures WireSize(rows) == WireSize(rows[..|rows| - 1]) + |Base64(rows[|rows| - 1].packet)| + 2048
  {
    hide Base64;
    if |rows| > 1 {
      WireSizeLast(rows[1..]);
      assert rows[1..][..|rows| - 2] == rows[..|rows| - 1][1..];
    } else {
      assert rows[1..] == [] && rows[..0] == [];
    }
  }

  lemma {:induction false} CostIsWireSize(rows: seq<Envelope>)
    ensures Cost(rows) == WireSize(rows)
  {
    hide Base64, RecordCost;
    if rows != [] {
      CostIsWireSize(rows[..|rows| - 1]);
      WireSizeLast(rows);
      RecordCostIs(rows[|rows| - 1]);
    }
  }

  /** A page is the longest prefix of at most 100 records and at most 524288 bytes on the wire. */
  lemma {:induction false} PageMeans(rows: seq<Envelope>, k: nat)
    requires k <= |rows|
    ensures IsPage(rows, k) <==>
      && k <= 100 && WireSize(rows[..k]) <= 524288
      && (k < |rows| ==> k == 100 || WireSize(rows[..k + 1]) > 524288)
  {
    hide Cost, WireSize;
    CostIsWireSize(rows[..k]);
    if k < |rows| { CostIsWireSize(rows[..k + 1]); }
  }

  /** A cursor list is valid with at most 1000 cursors of different devices, none nil, none the own, none negative. */
  lemma CursorsMean(device: Uuid, list: seq<Cursor>)
    ensures ValidCursors(device, list) <==>
      && |list| <= 1000
      && (forall i :: 0 <= i < |list| ==> list[i].peer != 0 && list[i].peer != device && list[i].after >= 0)
      && (forall i, j :: 0 <= i < j < |list| ==> list[i].peer != list[j].peer)
  {
  }
}
