/**
 * The bill history hook: a newest-first list of saved bills, at most 50 long, mirrored
 * in the browser's local storage under one key.
 *
 * The storage entry is abstracted as a `StorageSlot`: no entry, an entry that parses to a
 * list of records, or an entry that cannot be read or parsed. A write that throws (quota
 * exceeded, storage disabled) is the `writeFails` argument of the operation that writes.
 */
module HistoryStore {
  import opened Wrappers
  import opened Billing

  /** A saved bill: the form inputs, the computed figures, an id and a creation time. */
  datatype BillHistoryRecord = BillHistoryRecord(
    id: string,
    mode: Mode,
    mainPrevReading: real,
    mainCurrReading: real,
    subPrevReading: real,
    subCurrReading: real,
    totalUnits: real,
    subUnits: real,
    ownUnits: real,
    averageRate: real,
    demandCharge: real,
    vatRate: real,
    ownerBill: real,
    tenantBill: real,
    totalBill: real,
    createdAt: int)

  /** What the calculator hands to `SaveBill`: a record without id and creation time. */
  datatype SaveBillData = SaveBillData(
    mode: Mode,
    mainPrev: real,
    mainCurr: real,
    subPrev: real,
    subCurr: real,
    totalUnits: real,
    subUnits: real,
    ownUnits: real,
    averageRate: real,
    demandCharge: real,
    vatRate: real,
    ownerBill: real,
    tenantBill: real,
    totalBill: real)

  /** The local-storage entry of the history; an empty-string entry reads as `NoEntry`. */
  datatype StorageSlot = NoEntry | Entry(records: seq<BillHistoryRecord>) | Unreadable

  /** The most records the stored history keeps. */
  const Capacity: nat := 50

  function Min(a: int, b: int): int
  {
    if a <= b then a else b
  }

  /** The save data a record was made from. */
  function DataOf(r: BillHistoryRecord): SaveBillData
  {
    SaveBillData(r.mode, r.mainPrevReading, r.mainCurrReading, r.subPrevReading, r.subCurrReading,
                 r.totalUnits, r.subUnits, r.ownUnits, r.averageRate, r.demandCharge, r.vatRate,
                 r.ownerBill, r.tenantBill, r.totalBill)
  }

  /** The record `SaveBill` stores: every field of the data verbatim, plus id and time. */
  function NewRecord(data: SaveBillData, id: string, createdAt: int): (r: BillHistoryRecord)
    ensures DataOf(r) == data && r.id == id && r.createdAt == createdAt
  {
    BillHistoryRecord(id, data.mode, data.mainPrev, data.mainCurr, data.subPrev, data.subCurr,
                      data.totalUnits, data.subUnits, data.ownUnits, data.averageRate,
                      data.demandCharge, data.vatRate, data.ownerBill, data.tenantBill,
                      data.totalBill, createdAt)
  }

  /** The records a readable slot holds; a missing entry reads as the empty list. */
  function StoredRecords(slot: StorageSlot): seq<BillHistoryRecord>
  {
    if slot.Entry? then slot.records else []
  }

  /** The list a save writes: the new record first, then the stored ones, cut to capacity. */
  function PrependCapped(rec: BillHistoryRecord, rs: seq<BillHistoryRecord>): (r: seq<BillHistoryRecord>)
    ensures |r| == Min(|rs| + 1, Capacity)
    ensures r[0] == rec
    ensures r[1..] == rs[..|r| - 1]
  {
    ([rec] + rs)[..Min(|rs| + 1, Capacity)]
  }

  /** A full stored list loses exactly its oldest (last) record on a save. */
  lemma SaveEvictsOldest(rec: BillHistoryRecord, rs: seq<BillHistoryRecord>)
    requires |rs| == Capacity
    ensures PrependCapped(rec, rs) == [rec] + rs[..Capacity - 1]
  {
  }

  /** The stored list after saving `recs` one after another, starting from `rs`. */
  function SaveAll(recs: seq<BillHistoryRecord>, rs: seq<BillHistoryRecord>): seq<BillHistoryRecord>
    decreases |recs|
  {
    if recs == [] then rs else SaveAll(recs[1..], PrependCapped(recs[0], rs))
  }

  function Reverse<T>(s: seq<T>): (r: seq<T>)
    ensures |r| == |s|
  {
    if s == [] then [] else Reverse(s[1..]) + [s[0]]
  }

  /**
   * Any run of saves keeps the newest records, newest first, and never more than 50:
   * from an empty history, 51 saves leave the last 50 saved.
   */
  lemma {:induction false} SaveAllKeepsNewest(recs: seq<BillHistoryRecord>, rs: seq<BillHistoryRecord>)
    requires |rs| <= Capacity
    ensures var n := Min(|recs| + |rs|, Capacity);
      SaveAll(recs, rs) == (Reverse(recs) + rs)[..n]
    decreases |recs|
  {
    if recs != [] {
      var rs' := PrependCapped(recs[0], rs);
      SaveAllKeepsNewest(recs[1..], rs');
      var n := Min(|recs| + |rs|, Capacity);
      var m := Min(|rs| + 1, Capacity);
      assert Reverse(recs) == Reverse(recs[1..]) + [recs[0]];
      assert rs' == ([recs[0]] + rs)[..m];
      calc {
        SaveAll(recs, rs);
        SaveAll(recs[1..], rs');
        (Reverse(recs[1..]) + rs')[..n];
        { assert |Reverse(recs[1..])| + m >= n; }
        (Reverse(recs[1..]) + [recs[0]] + rs)[..n];
      }
    }
  }

  /** Every record of `rs` whose id differs from `id`, in their original order. */
  function Without(rs: seq<BillHistoryRecord>, id: string): (r: seq<BillHistoryRecord>)
    ensures |r| <= |rs|
    ensures forall x :: x in r <==> x in rs && x.id != id
  {
    if rs == [] then []
    else if rs[0].id != id then [rs[0]] + Without(rs[1..], id)
    else Without(rs[1..], id)
  }

  /** Filtering keeps relative order: it distributes over concatenation. */
  lemma {:induction false} WithoutConcat(a: seq<BillHistoryRecord>, b: seq<BillHistoryRecord>, id: string)
    ensures Without(a + b, id) == Without(a, id) + Without(b, id)
  {
    if a == [] {
      assert a + b == b;
    } else {
      assert (a + b)[0] == a[0] && (a + b)[1..] == a[1..] + b;
      WithoutConcat(a[1..], b, id);
    }
  }

  /** Deleting an id no record carries changes nothing. */
  lemma {:induction false} WithoutAbsentId(rs: seq<BillHistoryRecord>, id: string)
    requires forall x :: x in rs ==> x.id != id
    ensures Without(rs, id) == rs
  {
    if rs != [] {
      WithoutAbsentId(rs[1..], id);
    }
  }

  /** Records ordered by creation time, newest first. */
  predicate NewestFirstOrdered(rs: seq<BillHistoryRecord>)
  {
    forall i, j :: 0 <= i < j < |rs| ==> rs[i].createdAt >= rs[j].createdAt
  }

  /** Saving a record no older than any stored one onto a newest-first list keeps it so. */
  lemma SaveKeepsNewestFirst(rec: BillHistoryRecord, rs: seq<BillHistoryRecord>)
    requires NewestFirstOrdered(rs)
    requires forall x :: x in rs ==> x.createdAt <= rec.createdAt
    ensures NewestFirstOrdered(PrependCapped(rec, rs))
  {
    var r := PrependCapped(rec, rs);
    forall i, j | 0 <= i < j < |r|
      ensures r[i].createdAt >= r[j].createdAt
    {
      assert r[j] == rs[j - 1];
      if i > 0 {
        assert r[i] == rs[i - 1];
      } else {
        assert rs[j - 1] in rs;
      }
    }
  }

  /** A newest-first list without its head is newest first, and no record in it is newer. */
  lemma TailNewestFirst(rs: seq<BillHistoryRecord>)
    requires rs != [] && NewestFirstOrdered(rs)
    ensures NewestFirstOrdered(rs[1..])
    ensures forall y :: y in rs[1..] ==> y.createdAt <= rs[0].createdAt
  {
    var rest := rs[1..];
    forall i, j | 0 <= i < j < |rest|
      ensures rest[i].createdAt >= rest[j].createdAt
    {
      assert rest[i] == rs[i + 1] && rest[j] == rs[j + 1];
    }
    forall y | y in rest
      ensures y.createdAt <= rs[0].createdAt
    {
      var k :| 0 <= k < |rest| && rest[k] == y;
      assert rs[k + 1] == y;
    }
  }

  /** A record no older than any in a newest-first list can head it. */
  lemma ConsNewestFirst(x: BillHistoryRecord, s: seq<BillHistoryRecord>)
    requires NewestFirstOrdered(s)
    requires forall y :: y in s ==> y.createdAt <= x.createdAt
    ensures NewestFirstOrdered([x] + s)
  {
    var r := [x] + s;
    forall i, j | 0 <= i < j < |r|
      ensures r[i].createdAt >= r[j].createdAt
    {
      assert r[j] == s[j - 1];
      if i > 0 {
        assert r[i] == s[i - 1];
      } else {
        assert s[j - 1] in s;
      }
    }
  }

  /** Deleting by id keeps a newest-first list newest first. */
  lemma {:induction false} DeleteKeepsNewestFirst(rs: seq<BillHistoryRecord>, id: string)
    requires NewestFirstOrdered(rs)
    ensures NewestFirstOrdered(Without(rs, id))
  {
    if rs != [] {
      TailNewestFirst(rs);
      DeleteKeepsNewestFirst(rs[1..], id);
      if rs[0].id != id {
        ConsNewestFirst(rs[0], Without(rs[1..], id));
      }
    }
  }

  /** Places `x` before the first record that is not newer than it. */
  function Insert(x: BillHistoryRecord, s: seq<BillHistoryRecord>): (r: seq<BillHistoryRecord>)
    ensures multiset(r) == multiset(s) + multiset{x}
  {
    if s == [] || s[0].createdAt <= x.createdAt then [x] + s
    else
      assert s == [s[0]] + s[1..];
      [s[0]] + Insert(x, s[1..])
  }

  lemma {:induction false} InsertKeepsOrder(x: BillHistoryRecord, s: seq<BillHistoryRecord>)
    requires NewestFirstOrdered(s)
    ensures NewestFirstOrdered(Insert(x, s))
  {
    if s != [] && s[0].createdAt > x.createdAt {
      var tail := Insert(x, s[1..]);
      TailNewestFirst(s);
      InsertKeepsOrder(x, s[1..]);
      forall y | y in tail
        ensures y.createdAt <= s[0].createdAt
      {
        assert y in multiset(tail);
        assert y == x || y in multiset(s[1..]);
      }
      ConsNewestFirst(s[0], tail);
    }
  }

  /**
   * The stable sort of the loaded list by creation time, newest first: the result is
   * ordered and a permutation of its input.
   */
  function NewestFirst(rs: seq<BillHistoryRecord>): (r: seq<BillHistoryRecord>)
    ensures multiset(r) == multiset(rs)
    ensures NewestFirstOrdered(r)
  {
    if rs == [] then []
    else
      assert rs == [rs[0]] + rs[1..];
      var sorted := NewestFirst(rs[1..]);
      InsertKeepsOrder(rs[0], sorted);
      Insert(rs[0], sorted)
  }

  /** The records created at time `t`, in order. */
  function CreatedAt(rs: seq<BillHistoryRecord>, t: int): seq<BillHistoryRecord>
  {
    if rs == [] then []
    else if rs[0].createdAt == t then [rs[0]] + CreatedAt(rs[1..], t)
    else CreatedAt(rs[1..], t)
  }

  lemma {:induction false} InsertStable(x: BillHistoryRecord, s: seq<BillHistoryRecord>, t: int)
    ensures CreatedAt(Insert(x, s), t) ==
      if x.createdAt == t then [x] + CreatedAt(s, t) else CreatedAt(s, t)
  {
    if s == [] || s[0].createdAt <= x.createdAt {
      assert ([x] + s)[1..] == s;
    } else {
      InsertStable(x, s[1..], t);
      assert ([s[0]] + Insert(x, s[1..]))[1..] == Insert(x, s[1..]);
    }
  }

  /** Loading is stable: records with equal creation times keep their stored order. */
  lemma {:induction false} NewestFirstStable(rs: seq<BillHistoryRecord>, t: int)
    ensures CreatedAt(NewestFirst(rs), t) == CreatedAt(rs, t)
  {
    if rs != [] {
      NewestFirstStable(rs[1..], t);
      InsertStable(rs[0], NewestFirst(rs[1..]), t);
    }
  }

  /**
   * The history hook's state: the in-memory `history`, the `loading` flag and the storage
   * entry the hook reads and overwrites.
   */
  class BillHistoryStore {
    var history: seq<BillHistoryRecord>
    var loading: bool
    var stored: StorageSlot

    /** The in-memory list holds what storage holds (a readable entry), or is empty. */
    ghost predicate Mirrors()
      reads this
    {
      match stored
      case Entry(rs) => multiset(history) == multiset(rs)
      case NoEntry => history == []
      case Unreadable => true
    }

    /** Mounting the hook: empty history, `loading` set, then the mount-time load. */
    constructor (initial: StorageSlot)
      ensures stored == initial && !loading
      ensures history == if initial.Entry? then NewestFirst(initial.records) else []
      ensures Mirrors()
    {
      history := [];
      loading := true;
      stored := initial;
      new;
      LoadHistory();
    }

    /** Reads the stored list and shows it newest first; a missing or bad entry changes nothing. */
    method LoadHistory()
      modifies this`history, this`loading
      ensures !loading
      ensures history == if stored.Entry? then NewestFirst(stored.records) else old(history)
      ensures stored.Entry? ==> Mirrors()
      ensures old(Mirrors()) ==> Mirrors()
    {
      loading := true;
      match stored {
        case Entry(rs) =>
          history := NewestFirst(rs);
        case NoEntry =>
        case Unreadable =>
      }
      loading := false;
    }

    /**
     * Prepends a new record to the STORED list (not the in-memory one), keeps the first 50,
     * writes the list back and shows it. An unreadable entry or a failed write reports
     * failure and changes nothing.
     */
    method SaveBill(data: SaveBillData, id: string, createdAt: int, writeFails: bool) returns (ok: bool)
      modifies this`history, this`stored
      ensures ok == (!old(stored).Unreadable? && !writeFails)
      ensures ok ==> history == PrependCapped(NewRecord(data, id, createdAt), StoredRecords(old(stored)))
      ensures ok ==> stored == Entry(history)
      ensures !ok ==> history == old(history) && stored == old(stored)
      ensures old(Mirrors()) ==> Mirrors()
    {
      var newRecord := NewRecord(data, id, createdAt);
      if stored.Unreadable? {
        return false;
      }
      var currentHistory := if stored.Entry? then stored.records else [];
      var updatedHistory := [newRecord] + currentHistory;
      if |updatedHistory| > Capacity {
        updatedHistory := updatedHistory[..Capacity];
      }
      if writeFails {
        return false;
      }
      stored := Entry(updatedHistory);
      history := updatedHistory;
      ok := true;
    }

    /**
     * Removes every record with the id from the IN-MEMORY list and writes the result over
     * the stored list; an absent id is not an error. A failed write changes nothing.
     */
    method DeleteBill(id: string, writeFails: bool) returns (ok: bool)
      modifies this`history, this`stored
      ensures ok == !writeFails
      ensures ok ==> history == Without(old(history), id) && stored == Entry(history)
      ensures !ok ==> history == old(history) && stored == old(stored)
      ensures old(Mirrors()) ==> Mirrors()
    {
      var updatedHistory := Without(history, id);
      if writeFails {
        return false;
      }
      stored := Entry(updatedHistory);
      history := updatedHistory;
      ok := true;
    }

    /** Removes the storage entry and empties the list. */
    method ClearHistory(removeFails: bool) returns (ok: bool)
      modifies this`history, this`stored
      ensures ok == !removeFails
      ensures ok ==> stored == NoEntry && history == []
      ensures !ok ==> history == old(history) && stored == old(stored)
      ensures old(Mirrors()) ==> Mirrors()
    {
      if removeFails {
        return false;
      }
      stored := NoEntry;
      history := [];
      ok := true;
    }
  }
}
