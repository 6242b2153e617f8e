/** The primary store: the `promotions` table behind `WriteRepository`. The table is a
    sequence; since the batch query has no ORDER BY, the model fixes the sequence
    order as the order the database returns rows in. */
module WriteRepo {
  import opened Errors
  import opened Models

  /** The rows SQL `LIMIT limit OFFSET offset` selects from `rows`. */
  function Window(rows: seq<Promotion>, offset: nat, limit: nat): (w: seq<Promotion>)
    ensures |w| <= limit
    ensures offset >= |rows| ==> w == []
    ensures offset < |rows| ==> |w| == if offset + limit <= |rows| then limit else |rows| - offset
    ensures forall k :: 0 <= k < |w| ==> offset + k < |rows| && w[k] == rows[offset + k]
  {
    if offset >= |rows| then []
    else rows[offset .. if offset + limit <= |rows| then offset + limit else |rows|]
  }

  /** The windows at offsets `offset, offset + b, offset + 2b, ...` taken while the
      offset is below the row count, concatenated. */
  function Pages(rows: seq<Promotion>, b: nat, offset: nat): seq<Promotion>
    requires b > 0
    decreases |rows| - offset
  {
    if offset >= |rows| then [] else Window(rows, offset, b) + Pages(rows, b, offset + b)
  }

  /** Paging an unchanged table with a fixed batch size returns every row exactly
      once, in table order. */
  lemma {:induction false} PagesCoverTable(rows: seq<Promotion>, b: nat, offset: nat)
    requires b > 0 && offset <= |rows|
    ensures Pages(rows, b, offset) == rows[offset..]
    decreases |rows| - offset
  {
    if offset < |rows| {
      assert Pages(rows, b, offset) == Window(rows, offset, b) + Pages(rows, b, offset + b);
      if offset + b <= |rows| {
        assert Window(rows, offset, b) == rows[offset .. offset + b];
        PagesCoverTable(rows, b, offset + b);
        assert rows[offset..] == rows[offset .. offset + b] + rows[offset + b ..];
      } else {
        assert Window(rows, offset, b) == rows[offset..];
        assert Pages(rows, b, offset + b) == [];
      }
    }
  }

  /** Where a row-level failure happens while `GetPromotionsBatch` iterates. */
  datatype RowFault =
    | NoRowFault
      /** `rows.Scan` fails on the row at this position of the result set. */
    | ScanFails(at: nat, msg: string)
      /** `rows.Next` stops before the row at this position and `rows.Err()` reports `msg`. */
    | NextFails(at: nat, msg: string)

  datatype BatchFaults = BatchFaults(query: Status, row: RowFault)

  /** Model text of the database's refusal of a negative LIMIT or OFFSET. */
  const NegativeWindow := "LIMIT and OFFSET must not be negative"

  class WriteRepository {
    var rows: seq<Promotion>

    constructor (rows: seq<Promotion>)
      ensures this.rows == rows
    {
      this.rows := rows;
    }

    /** `DELETE FROM promotions`; `fault` is the outcome of the statement. */
    method ClearAllPromotions(fault: Status) returns (err: Status)
      modifies this
      ensures err == fault
      ensures rows == if fault.Nil? then [] else old(rows)
    {
      if fault.Nil? {
        rows := [];
      }
      err := fault;
    }

    /** Single-row INSERT; on success the row is appended, on error nothing changes. */
    method CreatePromotion(p: Promotion, fault: Status) returns (err: Status)
      modifies this
      ensures err.Nil? <==> fault.Nil?
      ensures fault.Err? ==> err == Err(Wrapf("failed to insert promotion", fault.msg))
      ensures rows == if fault.Nil? then old(rows) + [p] else old(rows)
    {
      if fault.Err? {
        return Err(Wrapf("failed to insert promotion", fault.msg));
      }
      rows := rows + [p];
      err := Nil;
    }

    /** `SELECT COUNT(*)`: a pure read. On error `count` keeps its zero value. */
    method GetTotalPromotionsCount(fault: Status) returns (count: int, err: Status)
      ensures err == fault
      ensures count == if fault.Nil? then |rows| else 0
    {
      count := 0;
      if fault.Nil? {
        count := |rows|;
      }
      err := fault;
    }

    /** `SELECT ... LIMIT limit OFFSET offset`, scanning the result rows one by one. */
    method GetPromotionsBatch(offset: int, limit: int, f: BatchFaults)
      returns (batch: seq<Promotion>, err: Status)
      ensures f.query.Err? ==> batch == [] && err == f.query
      ensures f.query.Nil? && (offset < 0 || limit < 0) ==> batch == [] && err == Err(NegativeWindow)
      ensures f.query.Nil? && offset >= 0 && limit >= 0 ==>
                var w := Window(rows, offset, limit);
                match f.row
                case ScanFails(k, m) =>
                  if k < |w| then batch == [] && err == Err(m) else batch == w && err == Nil
                case NextFails(k, m) =>
                  if k <= |w| then batch == w[..k] && err == Err(m) else batch == w && err == Nil
                case NoRowFault => batch == w && err == Nil
    {
      if f.query.Err? {
        return [], f.query;
      }
      if offset < 0 || limit < 0 {
        return [], Err(NegativeWindow);
      }
      var result := Window(rows, offset, limit);
      batch := [];
      var i := 0;
      while i < |result|
        invariant 0 <= i <= |result|
        invariant batch == result[..i]
        invariant f.row.ScanFails? ==> f.row.at >= i
        invariant f.row.NextFails? ==> f.row.at >= i
      {
        if f.row.NextFails? && f.row.at == i {
          return batch, Err(f.row.msg);
        }
        if f.row.ScanFails? && f.row.at == i {
          return [], Err(f.row.msg);
        }
        batch := batch + [result[i]];
        i := i + 1;
      }
      if f.row.NextFails? && f.row.at == |result| {
        return batch, Err(f.row.msg);
      }
      err := Nil;
    }
  }
}
