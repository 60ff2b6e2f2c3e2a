/** The invocation table as the connector service changes it, with the loop that makes room for cleanup receipts. */
module ConnectorStore {
  import opened Prelude
  import opened ConnectorLedger

  class InvocationStore {
    var rows: Rows

    constructor ()
      ensures rows == []
    {
      rows := [];
    }

    /** Construction over an existing table: whatever was running when the process died is now unknown. */
    method Recover()
      modifies this
      ensures rows == Restarted(old(rows))
    {
      ghost var was := rows;
      for i := 0 to |rows|
        invariant |rows| == |was|
        invariant forall j :: 0 <= j < |was| ==> rows[j] == if j < i then Restarted(was)[j] else was[j]
      {
        if rows[i].status.Running? { rows := rows[i := rows[i].(status := Unknown)]; }
      }
      assert rows == Restarted(was);
    }

    method Find(id: InvocationId) returns (i: Option<nat>)
      ensures i.Some? <==> HasId(rows, id)
      ensures i.Some? ==> i.value < |rows| && rows[i.value].id == id
    {
      for k := 0 to |rows|
        invariant forall j :: 0 <= j < k ==> rows[j].id != id
      {
        if rows[k].id == id { return Some(k); }
      }
      return None;
    }

    /** reserve after the digest is known: one row per id, ever. */
    method Reserve(id: InvocationId, request: Request, now: nat) returns (reply: Reply)
      requires forall i, j :: 0 <= i < j < |rows| ==> rows[i].id != rows[j].id
      modifies this
      ensures reply == ReserveReply(old(rows), id, request, now)
      ensures rows == if reply.Inserted? then old(rows) + [Row(id, request, now, Running, None)] else old(rows)
    {
      var existing := Find(id);
      if existing.Some? {
        var row := rows[existing.value];
        if row.request != request { return Conflict; }
        if row.status.Completed? && row.result.Some? { return Replayed(row.result.value); }
        return Conflict;
      }
      var age := now - request.issuedAt;
      if age > MAX_AGE_MS || age < -MAX_LEAD_MS { return Expired; }
      if |rows| >= MAX_ROWS { return Full; }
      rows := rows + [Row(id, request, now, Running, None)];
      return Inserted;
    }

    /** SELECT SUM(length(result)). */
    method TotalBytes() returns (total: nat)
      ensures total == Total(rows)
    {
      total := 0;
      for i := 0 to |rows|
        invariant total == Total(rows[..i])
      {
        assert rows[..i + 1][..i] == rows[..i];
        total := total + rows[i].Size();
      }
      assert rows[..|rows|] == rows;
    }

    /** The oldest completed row that still has its result, if any. */
    method Oldest() returns (oldest: Option<nat>)
      ensures oldest.None? ==> forall j :: 0 <= j < |rows| ==> !rows[j].Evictable()
      ensures oldest.Some? ==> oldest.value < |rows| && rows[oldest.value].Evictable()
      ensures oldest.Some? ==> forall j :: 0 <= j < |rows| && rows[j].Evictable() ==> rows[oldest.value].createdAt <= rows[j].createdAt
    {
      oldest := None;
      for i := 0 to |rows|
        invariant oldest.None? ==> forall j :: 0 <= j < i ==> !rows[j].Evictable()
        invariant oldest.Some? ==> oldest.value < |rows| && rows[oldest.value].Evictable()
        invariant oldest.Some? ==> forall j :: 0 <= j < i && rows[j].Evictable() ==> rows[oldest.value].createdAt <= rows[j].createdAt
      {
        if rows[i].Evictable() && (oldest.None? || rows[i].createdAt < rows[oldest.value].createdAt) { oldest := Some(i); }
      }
    }

    method Complete(i: nat, output: Bytes)
      requires i < |rows|
      modifies this
      ensures rows == Settled(old(rows), i, Succeeded(output))
    {
      var total := TotalBytes();
      var kept := if |output| <= MAX_RECEIPT && total + |output| <= MAX_RECEIPTS then Some(output) else None;
      rows := rows[i := rows[i].(status := Completed, result := kept)];
    }

    /** The eviction loop of storeCleanup. `total` stays the true sum all along. */
    method MakeRoom(size: nat) returns (fits: bool)
      modifies this
      ensures MakesRoom(old(rows), rows, size)
      ensures fits <==> Total(rows) + size <= MAX_RECEIPTS
    {
      ghost var was := rows;
      var total := TotalBytes();
      while total + size > MAX_RECEIPTS
        invariant total == Total(rows)
        invariant Thinned(was, rows) && OldestFirst(was, rows)
        invariant rows != was ==> exists i :: 0 <= i < |was| && Evicted(was, rows, i) && Total(rows) + was[i].Size() + size > MAX_RECEIPTS
        decreases Left(rows)
      {
        var oldest := Oldest();
        if oldest.None? { return false; }
        var i := oldest.value;
        var bytes := rows[i].Size();
        ghost var before := rows;
        rows := rows[i := rows[i].(result := None)];
        EvictOne(was, before, i);
        TotalUpdate(before, i, rows[i]);
        LeftUpdate(before, i, rows[i]);
        total := total - bytes;
      }
      return true;
    }

    /** The handling of a failed call: unknown first, then the receipt if warnings came back. */
    method Fail(i: nat, warnings: Option<seq<Warning>>) returns (stored: bool)
      requires i < |rows| && rows[i].status.Running?
      requires warnings.Some? ==> ValidWarnings(warnings.value)
      modifies this
      ensures warnings.None? ==> rows == MarkUnknown(old(rows), i)
      ensures warnings.Some? ==> exists thinned ::
        MakesRoom(MarkUnknown(old(rows), i), thinned, |CleanupReceipt(warnings.value)|) && rows == Settled(old(rows), i, Failed(warnings, thinned))
      ensures RowsFit(old(rows)) ==> stored == warnings.Some?
    {
      ghost var was := rows;
      rows := rows[i := rows[i].(status := Unknown)];
      stored := false;
      if warnings.Some? {
        var receipt := CleanupReceipt(warnings.value);
        ghost var marked := rows;
        stored := MakeRoom(|receipt|);
        ghost var thinned := rows;
        if stored && rows[i].status.Unknown? { rows := rows[i := rows[i].(result := Some(receipt))]; }
        assert rows == Settled(was, i, Failed(warnings, thinned));
        if RowsFit(was) { RoomFor(was, i, warnings.value, thinned); }
      }
    }
  }

  /** How many results the loop could still evict. */
  ghost function Left(rows: Rows): nat {
    if rows == [] then 0 else Left(rows[..|rows| - 1]) + if rows[|rows| - 1].Evictable() then 1 else 0
  }

  lemma {:induction false} LeftUpdate(rows: Rows, i: nat, row: Row)
    requires i < |rows| && rows[i].Evictable() && !row.Evictable()
    ensures Left(rows[i := row]) < Left(rows)
  {
    var after := rows[i := row];
    if i == |rows| - 1 {
      assert after[..i] == rows[..i];
    } else {
      LeftUpdate(rows[..|rows| - 1], i, row);
      assert after[..|rows| - 1] == rows[..|rows| - 1][i := row];
    }
  }

  lemma {:induction false} EvictOne(was: Rows, before: Rows, i: nat)
    requires Thinned(was, before) && OldestFirst(was, before)
    requires i < |before| && before[i].Evictable()
    requires forall j :: 0 <= j < |before| && before[j].Evictable() ==> before[i].createdAt <= before[j].createdAt
    ensures var after := before[i := before[i].(result := None)];
      Thinned(was, after) && OldestFirst(was, after) && Evicted(was, after, i)
  {
    var after := before[i := before[i].(result := None)];
    assert was[i] == before[i];
    forall a, b | 0 <= a < |was| && 0 <= b < |after| && Evicted(was, after, a) && after[b].Evictable()
      ensures was[a].createdAt <= after[b].createdAt
    {
      assert a != i ==> Evicted(was, before, a);
    }
  }

  lemma {:induction false} RoomFor(rows: Rows, i: nat, ws: seq<Warning>, thinned: Rows)
    requires RowsFit(rows) && i < |rows| && rows[i].status.Running? && ValidWarnings(ws)
    requires MakesRoom(MarkUnknown(rows, i), thinned, |CleanupReceipt(ws)|)
    ensures Total(thinned) + |CleanupReceipt(ws)| <= MAX_RECEIPTS
  {
    assert RowFits(rows[i]);
    UnknownKeeps(rows, i);
    CleanupReceiptSize(ws);
    RoomIsFound(MarkUnknown(rows, i), thinned, i, |CleanupReceipt(ws)|);
  }

  predicate WellFormed(items: seq<Option<Warning>>) {
    1 <= |items| <= 8 && forall i :: 0 <= i < |items| ==> items[i].Some? && ValidWarning(items[i].value)
  }

  /** cleanupWarnings: all of a well-formed list, nothing of any other. */
  method CleanupWarnings(value: Option<seq<Option<Warning>>>) returns (warnings: Option<seq<Warning>>)
    ensures warnings.Some? ==> ValidWarnings(warnings.value)
    ensures warnings.Some? <==> value.Some? && WellFormed(value.value)
    ensures warnings.Some? ==> |warnings.value| == |value.value|
    ensures warnings.Some? ==> forall i :: 0 <= i < |warnings.value| ==> value.value[i] == Some(warnings.value[i])
  {
    if value.None? || |value.value| == 0 || |value.value| > 8 { return None; }
    var items, result := value.value, [];
    for i := 0 to |items|
      invariant |result| == i
      invariant forall k :: 0 <= k < i ==> items[k] == Some(result[k]) && ValidWarning(result[k])
    {
      if items[i].None? || !ValidWarning(items[i].value) { return None; }
      result := result + [items[i].value];
    }
    return Some(result);
  }
}
