/**
  Shared vocabulary of the CSV scripts: optional values, and a CSV row as the
  dictionary `csv.DictReader` yields (column name to cell text).
*/
module Base {

  datatype Option<+T> = None | Some(value: T)

  /** The outcome of a script that can stop with an error before writing. */
  datatype Result<+T> = Ok(value: T) | Err(reason: string)

  /** A CSV row: column name to cell text. A column the row lacks is absent. */
  type Row = map<string, string>

  /** `row.get(k) or ""` (and `row.get(k, "")`): the cell text, "" when absent. */
  function Get(r: Row, k: string): (v: string)
    ensures k !in r ==> v == ""
    ensures k in r ==> v == r[k]
  {
    if k in r then r[k] else ""
  }

  /** `row.get(k) or d`: the cell text, or `d` when it is absent or empty. */
  function GetOr(r: Row, k: string, d: string): (v: string)
    ensures v == d || (k in r && v == r[k] && r[k] != "")
    ensures Get(r, k) != "" ==> v == r[k]
  {
    if Get(r, k) != "" then r[k] else d
  }

  /** `row[k] = v`: cell `k` holds `v` and every other cell is as before. */
  function Assign(r: Row, k: string, v: string): (r': Row)
    ensures k in r' && r'[k] == v
    ensures forall k' :: k' != k ==> (k' in r' <==> k' in r) && (k' in r ==> r'[k'] == r[k'])
  {
    r[k := v]
  }

  /** `r'` is `r` with the columns `cols` written and every other column as it was. */
  predicate Keeps(r: Row, r': Row, cols: set<string>)
  {
    r'.Keys == r.Keys + cols && forall k :: k in r && k !in cols ==> r'[k] == r[k]
  }

  /** Two rounds of writes are one round writing both sets of columns. */
  lemma KeepsCompose(r: Row, r1: Row, r2: Row, a: set<string>, b: set<string>)
    requires Keeps(r, r1, a) && Keeps(r1, r2, b)
    ensures Keeps(r, r2, a + b)
  {
  }

  /** Writing into a row the values it already holds leaves it as it is. */
  lemma KeepsSame(r: Row, r': Row, cols: set<string>)
    requires Keeps(r, r', cols) && cols <= r.Keys
    requires forall k :: k in cols ==> r'[k] == r[k]
    ensures r' == r
  {
  }

  /** The cells written in turn: `row[k] = v` for each pair `(k, v)`. */
  function Write(r: Row, cells: seq<(string, string)>): Row
    decreases |cells|
  {
    if cells == [] then r else Write(r[cells[0].0 := cells[0].1], cells[1..])
  }

  /** The column names of a list of cells. */
  function Columns(cells: seq<(string, string)>): set<string>
  {
    set i | 0 <= i < |cells| :: cells[i].0
  }

  /** No column is written twice. */
  predicate DistinctColumns(cells: seq<(string, string)>)
  {
    forall i, j :: 0 <= i < j < |cells| ==> cells[i].0 != cells[j].0
  }

  /** Writing cells changes exactly their columns. */
  lemma {:induction false} WriteKeeps(r: Row, cells: seq<(string, string)>)
    ensures Keeps(r, Write(r, cells), Columns(cells))
    decreases |cells|
  {
    if cells != [] {
      var r1 := r[cells[0].0 := cells[0].1];
      WriteKeeps(r1, cells[1..]);
      assert Columns(cells) == {cells[0].0} + Columns(cells[1..]) by {
        forall k | k in Columns(cells) ensures k in {cells[0].0} + Columns(cells[1..]) {
          var i :| 0 <= i < |cells| && cells[i].0 == k;
          if i > 0 { assert cells[1..][i - 1].0 == k; }
        }
      }
      KeepsCompose(r, r1, Write(r, cells), {cells[0].0}, Columns(cells[1..]));
    }
  }

  /** With no column written twice, each column reads back as the value written into it. */
  lemma {:induction false} WriteAt(r: Row, cells: seq<(string, string)>, i: nat)
    requires DistinctColumns(cells) && i < |cells|
    ensures cells[i].0 in Write(r, cells) && Write(r, cells)[cells[i].0] == cells[i].1
    decreases |cells|
  {
    var r1 := r[cells[0].0 := cells[0].1];
    WriteKeeps(r1, cells[1..]);
    if i == 0 {
      assert cells[0].0 !in Columns(cells[1..]);
    } else {
      WriteAt(r1, cells[1..], i - 1);
    }
  }

  /** Writing the same cells twice is writing them once. */
  lemma WriteTwice(r: Row, cells: seq<(string, string)>)
    requires DistinctColumns(cells)
    ensures Write(Write(r, cells), cells) == Write(r, cells)
  {
    var w := Write(r, cells);
    WriteKeeps(r, cells);
    WriteKeeps(w, cells);
    forall k | k in Columns(cells) ensures Write(w, cells)[k] == w[k] {
      var i :| 0 <= i < |cells| && cells[i].0 == k;
      WriteAt(r, cells, i);
      WriteAt(w, cells, i);
    }
    KeepsSame(w, Write(w, cells), Columns(cells));
  }

  /** `min(a, b)` on integers. */
  function Min(a: int, b: int): int { if a <= b then a else b }

  /** `max(a, b)` on integers. */
  function Max(a: int, b: int): int { if a >= b then a else b }

  /** `s[:n]` for a list: the first `n` elements, or all of them when fewer. */
  function Take<T>(s: seq<T>, n: nat): (r: seq<T>)
    ensures |r| == Min(n, |s|)
    ensures r <= s
  {
    if n <= |s| then s[..n] else s
  }

  /** `s[n:]` for a list: what `Take(s, n)` leaves out. */
  function Drop<T>(s: seq<T>, n: nat): (r: seq<T>)
    ensures Take(s, n) + r == s
  {
    if n <= |s| then s[n..] else []
  }
}

/**
  The per-row loops of the scripts (`for row in reader: ...; writer.writerow(row)`):
  every row is transformed by the same rule and written in input order, or
  only the rows that pass a test are projected and written.
*/
module Rows {
  import opened Base

  /** The rows a filtering loop writes, in input order. */
  function FilterMap(rows: seq<Row>, keep: Row -> bool, f: Row -> Row): (out: seq<Row>)
    ensures |out| <= |rows|
  {
    if rows == [] then []
    else
      var prev := FilterMap(rows[..|rows| - 1], keep, f);
      var last := rows[|rows| - 1];
      if keep(last) then prev + [f(last)] else prev
  }

  /** Every written row is the projection of some kept input row. */
  lemma {:induction false} FilterMapFrom(rows: seq<Row>, keep: Row -> bool, f: Row -> Row, x: Row)
    requires x in FilterMap(rows, keep, f)
    ensures exists i :: 0 <= i < |rows| && keep(rows[i]) && x == f(rows[i])
  {
    var n := |rows| - 1;
    var prev := FilterMap(rows[..n], keep, f);
    if x in prev {
      FilterMapFrom(rows[..n], keep, f, x);
      var i :| 0 <= i < n && keep(rows[..n][i]) && x == f(rows[..n][i]);
      assert rows[..n][i] == rows[i];
    } else {
      assert keep(rows[n]) && x == f(rows[n]);
    }
  }

  /** Every kept input row is written, at an index no later than its own. */
  lemma {:induction false} FilterMapHas(rows: seq<Row>, keep: Row -> bool, f: Row -> Row, i: nat) returns (a: nat)
    requires i < |rows| && keep(rows[i])
    ensures a <= i && a < |FilterMap(rows, keep, f)| && FilterMap(rows, keep, f)[a] == f(rows[i])
  {
    var n := |rows| - 1;
    var prev := FilterMap(rows[..n], keep, f);
    if i < n {
      assert rows[..n][i] == rows[i];
      a := FilterMapHas(rows[..n], keep, f, i);
    } else {
      a := |prev|;
    }
  }

  /** The written rows keep input order: earlier output rows come from earlier kept input rows. */
  lemma {:induction false} FilterMapOrder(rows: seq<Row>, keep: Row -> bool, f: Row -> Row, a: nat, b: nat) returns (i: nat, j: nat)
    requires a <= b < |FilterMap(rows, keep, f)|
    ensures i <= j < |rows| && (a < b ==> i < j)
    ensures keep(rows[i]) && FilterMap(rows, keep, f)[a] == f(rows[i])
    ensures keep(rows[j]) && FilterMap(rows, keep, f)[b] == f(rows[j])
  {
    var n := |rows| - 1;
    var prev := FilterMap(rows[..n], keep, f);
    if b < |prev| {
      i, j := FilterMapOrder(rows[..n], keep, f, a, b);
      assert rows[..n][i] == rows[i] && rows[..n][j] == rows[j];
    } else {
      j := n;
      if a < |prev| {
        var i2;
        i, i2 := FilterMapOrder(rows[..n], keep, f, a, a);
        assert rows[..n][i] == rows[i];
      } else {
        i := n;
      }
    }
  }

  /** Every kept row contributes exactly one output row; so with no row kept nothing is written. */
  lemma {:induction false} FilterMapCount(rows: seq<Row>, keep: Row -> bool, f: Row -> Row)
    ensures |FilterMap(rows, keep, f)| == |set i | 0 <= i < |rows| && keep(rows[i])|
  {
    if rows != [] {
      var n := |rows| - 1;
      FilterMapCount(rows[..n], keep, f);
      var before := set i | 0 <= i < n && keep(rows[..n][i]);
      var now := set i | 0 <= i < |rows| && keep(rows[i]);
      assert before == set i | 0 <= i < n && keep(rows[i]);
      if keep(rows[n]) {
        assert now == before + {n};
      } else {
        assert now == before;
      }
    }
  }

  /** A loop that rewrites each row with `f` and writes every row, in order. */
  method MapRows<A, B>(rows: seq<A>, f: A -> B) returns (out: seq<B>)
    ensures |out| == |rows|
    ensures forall i :: 0 <= i < |rows| ==> out[i] == f(rows[i])
  {
    out := [];
    var i := 0;
    while i < |rows|
      invariant 0 <= i <= |rows|
      invariant |out| == i
      invariant forall j :: 0 <= j < i ==> out[j] == f(rows[j])
    {
      out := out + [f(rows[i])];
      i := i + 1;
    }
  }

  /** Two mapped files written one after the other. */
  lemma MappedConcat<A, B>(xs: seq<A>, ys: seq<A>, f: A -> B, a: seq<B>, b: seq<B>)
    requires |a| == |xs| && forall i :: 0 <= i < |xs| ==> a[i] == f(xs[i])
    requires |b| == |ys| && forall i :: 0 <= i < |ys| ==> b[i] == f(ys[i])
    ensures |a + b| == |xs| + |ys|
    ensures forall i :: 0 <= i < |xs| ==> (a + b)[i] == f(xs[i])
    ensures forall i :: 0 <= i < |ys| ==> (a + b)[|xs| + i] == f(ys[i])
  {
  }

  /** A loop that writes `f(row)` for the rows passing `keep`, in order. */
  method FilterMapRows(rows: seq<Row>, keep: Row -> bool, f: Row -> Row) returns (out: seq<Row>)
    ensures out == FilterMap(rows, keep, f)
  {
    out := [];
    var i := 0;
    while i < |rows|
      invariant 0 <= i <= |rows|
      invariant out == FilterMap(rows[..i], keep, f)
    {
      assert rows[..i + 1][..i] == rows[..i];
      if keep(rows[i]) {
        out := out + [f(rows[i])];
      }
      i := i + 1;
    }
    assert rows[..|rows|] == rows;
  }

  /**
    What a loop over rows collects when each row yields nothing, one line,
    or a failure that stops the loop.
  */
  function Collected(step: Row -> Result<Option<Row>>, rows: seq<Row>): Result<seq<Row>>
  {
    if rows == [] then Ok([])
    else
      match Collected(step, rows[..|rows| - 1])
      case Err(e) => Err(e)
      case Ok(lines) =>
        match step(rows[|rows| - 1])
        case Err(e) => Err(e)
        case Ok(None) => Ok(lines)
        case Ok(Some(line)) => Ok(lines + [line])
  }

  /** Once a row fails, every longer prefix fails with the same failure. */
  lemma {:induction false} CollectedStops(step: Row -> Result<Option<Row>>, rows: seq<Row>, n: nat)
    requires n <= |rows| && Collected(step, rows[..n]).Err?
    ensures Collected(step, rows) == Collected(step, rows[..n])
    decreases |rows| - n
  {
    if n < |rows| {
      assert rows[..n + 1][..n] == rows[..n];
      CollectedStops(step, rows, n + 1);
    } else {
      assert rows[..n] == rows;
    }
  }

  /** The loop that computes `Collected`. */
  method CollectRows(step: Row -> Result<Option<Row>>, rows: seq<Row>) returns (out: Result<seq<Row>>)
    ensures out == Collected(step, rows)
  {
    var lines: seq<Row> := [];
    var i := 0;
    while i < |rows|
      invariant 0 <= i <= |rows|
      invariant Collected(step, rows[..i]) == Ok(lines)
    {
      assert rows[..i + 1][..i] == rows[..i];
      var res := step(rows[i]);
      if res.Err? {
        CollectedStops(step, rows, i + 1);
        return Err(res.reason);
      }
      if res.value.Some? {
        lines := lines + [res.value.value];
      }
      i := i + 1;
    }
    assert rows[..|rows|] == rows;
    out := Ok(lines);
  }
}
