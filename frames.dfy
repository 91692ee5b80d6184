/**
 * Shared vocabulary of the signal engine: optional values (pandas' NaN is
 * `None`), results carrying the exception a step raises, and the numeric
 * table (a pandas DataFrame) the indicators and generators pass along.
 */
module Base {
  datatype Option<T> = None | Some(value: T)

  /** The exceptions the modelled code raises or catches. */
  datatype Error =
    | MissingColumn(column: string)  // KeyError on a DataFrame column
    | MissingKey(key: string)        // KeyError on a dict
    | NoRows                         // IndexError from `df.iloc[-1]` on an empty table
    | FetchFailed                    // the provider raised (no data, missing columns, network)
    | MissingRequestData             // a required user_data entry is absent or empty
    | InvalidTicker                  // the ticker is not listed for the asset type

  datatype Result<T> = Ok(value: T) | Err(error: Error)
}

module Frames {
  import opened Base

  /** A numeric column; `None` stands for NaN. */
  type Column = seq<Option<real>>

  /**
   * A DataFrame of numeric columns: `len` rows in chronological order. The
   * time index itself is not needed by any computation and is left implicit
   * in the row positions.
   */
  datatype Frame = Frame(len: nat, cols: map<string, Column>)

  /** Every column has one entry per row. */
  predicate Rect(f: Frame) {
    forall c :: c in f.cols ==> |f.cols[c]| == f.len
  }

  predicate Defined(col: Column) {
    forall i :: 0 <= i < |col| ==> col[i].Some?
  }

  /**
   * The shape every provider hands over: rectangular, with numeric Close and
   * Volume on every row.
   */
  predicate Priced(f: Frame) {
    Rect(f) && "Close" in f.cols && "Volume" in f.cols &&
    Defined(f.cols["Close"]) && Defined(f.cols["Volume"])
  }

  function Values(col: Column): (r: seq<real>)
    requires Defined(col)
    ensures |r| == |col|
    ensures forall i :: 0 <= i < |col| ==> col[i] == Some(r[i])
  {
    seq(|col|, i requires 0 <= i < |col| => col[i].value)
  }

  function Closes(f: Frame): seq<real>
    requires Priced(f)
  {
    Values(f.cols["Close"])
  }

  function Volumes(f: Frame): seq<real>
    requires Priced(f)
  {
    Values(f.cols["Volume"])
  }

  /** No column of `f` is NaN at row `i`. */
  predicate CompleteRow(f: Frame, i: nat)
    requires Rect(f) && i < f.len
  {
    forall c :: c in f.cols ==> f.cols[c][i].Some?
  }

  /** The complete rows at or after `i`, in increasing order. */
  function KeptFrom(f: Frame, i: nat): (r: seq<nat>)
    requires Rect(f) && i <= f.len
    ensures forall k :: 0 <= k < |r| ==> i <= r[k] < f.len && CompleteRow(f, r[k])
    ensures forall k, l :: 0 <= k < l < |r| ==> r[k] < r[l]
    ensures forall j :: i <= j < f.len && CompleteRow(f, j) ==> j in r
    decreases f.len - i
  {
    if i == f.len then []
    else if CompleteRow(f, i) then [i] + KeptFrom(f, i + 1)
    else KeptFrom(f, i + 1)
  }

  /** The row positions `df.dropna()` keeps. */
  function Kept(f: Frame): seq<nat>
    requires Rect(f)
  {
    KeptFrom(f, 0)
  }

  /**
   * `df.dropna()`: removes every row in which any column is NaN, keeping the
   * order of the rest; the set of columns does not change.
   */
  function DropNa(f: Frame): (r: Frame)
    requires Rect(f)
    ensures Rect(r) && r.cols.Keys == f.cols.Keys && r.len == |Kept(f)| <= f.len
    ensures forall c :: c in r.cols ==> Defined(r.cols[c])
    ensures forall c, k :: c in r.cols && 0 <= k < r.len ==> r.cols[c][k] == f.cols[c][Kept(f)[k]]
  {
    var ks := Kept(f);
    KeptBound(f, 0);
    Frame(|ks|, map c | c in f.cols :: seq(|ks|, k requires 0 <= k < |ks| => f.cols[c][ks[k]]))
  }

  lemma {:induction false} KeptBound(f: Frame, i: nat)
    requires Rect(f) && i <= f.len
    ensures |KeptFrom(f, i)| <= f.len - i
    decreases f.len - i
  {
    if i < f.len {
      KeptBound(f, i + 1);
    }
  }

  /**
   * The last row `dropna` keeps is the latest complete row of the input:
   * every complete row is at or before it.
   */
  lemma LastKeptIsLatestComplete(f: Frame)
    requires Rect(f) && |Kept(f)| > 0
    ensures CompleteRow(f, Kept(f)[|Kept(f)| - 1])
    ensures forall j :: 0 <= j < f.len && CompleteRow(f, j) ==> j <= Kept(f)[|Kept(f)| - 1]
  {
    var ks := Kept(f);
    forall j | 0 <= j < f.len && CompleteRow(f, j)
      ensures j <= ks[|ks| - 1]
    {
      var k :| 0 <= k < |ks| && ks[k] == j;
      assert k == |ks| - 1 || ks[k] < ks[|ks| - 1];
    }
  }

  /** A table with no complete row comes out of `dropna` empty, and conversely. */
  lemma DropNaEmptyIff(f: Frame)
    requires Rect(f)
    ensures DropNa(f).len == 0 <==> forall j :: 0 <= j < f.len ==> !CompleteRow(f, j)
  {
    if DropNa(f).len == 0 {
      assert Kept(f) == [];
    } else {
      assert CompleteRow(f, Kept(f)[0]);
    }
  }
}
