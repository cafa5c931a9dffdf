/**
 The specialty lookup: the rows of the specialties CSV are folded, in file
 order, into a map from department code to specialty text. A row whose
 `code` or `specialite` is empty is skipped; a later row overwrites an
 earlier one with the same code.

 A CSV field that is missing from a row is modelled as the empty string:
 both are falsy in the row filter, so they are skipped alike.
 */
module Specialties {

  /** One parsed CSV row (`code`, `nom`, `specialite`). */
  datatype Row = Row(code: string, nom: string, specialite: string)

  /** The row filter: both the code and the specialty are non-empty. */
  predicate Qualifies(r: Row) {
    r.code != "" && r.specialite != ""
  }

  /** Row `i` is a qualifying row for `code`. */
  predicate WritesCode(rows: seq<Row>, code: string, i: int) {
    0 <= i < |rows| && Qualifies(rows[i]) && rows[i].code == code
  }

  /** Row `i` is the last qualifying row for `code`. */
  predicate LastWrite(rows: seq<Row>, code: string, i: int) {
    WritesCode(rows, code, i) &&
    forall j :: i < j < |rows| ==> !WritesCode(rows, code, j)
  }

  /** The fold, processing rows in order: the map after the last row is the
      map after all earlier rows, updated by the last row if it qualifies. */
  function Fold(rows: seq<Row>): map<string, string>
    decreases |rows|
  {
    if |rows| == 0 then map[]
    else
      var m := Fold(rows[..|rows| - 1]);
      var r := rows[|rows| - 1];
      if Qualifies(r) then m[r.code := r.specialite] else m
  }

  /** The map is built by a loop over the rows, as the CSV `complete`
      callback does with `forEach`. */
  method BuildSpecialtyMap(rows: seq<Row>) returns (m: map<string, string>)
    ensures m == Fold(rows)
  {
    m := map[];
    var i := 0;
    while i < |rows|
      invariant 0 <= i <= |rows|
      invariant m == Fold(rows[..i])
    {
      var item := rows[i];
      if item.code != "" && item.specialite != "" {
        m := m[item.code := item.specialite];
      }
      assert rows[..i + 1][..i] == rows[..i];
      i := i + 1;
    }
    assert rows[..i] == rows;
  }

  /** A code has an entry exactly when some row writes it. */
  lemma {:induction false} FoldKeys(rows: seq<Row>, code: string)
    ensures code in Fold(rows) <==> exists i :: WritesCode(rows, code, i)
    decreases |rows|
  {
    if |rows| > 0 {
      var init := rows[..|rows| - 1];
      FoldKeys(init, code);
      if code in Fold(init) {
        var i :| WritesCode(init, code, i);
        assert WritesCode(rows, code, i);
      } else if code in Fold(rows) {
        assert WritesCode(rows, code, |rows| - 1);
      }
      if exists i :: WritesCode(rows, code, i) {
        var i :| WritesCode(rows, code, i);
        if i < |rows| - 1 {
          assert WritesCode(init, code, i);
        }
      }
    }
  }

  /** Every stored specialty is non-empty. */
  lemma {:induction false} FoldValuesNonEmpty(rows: seq<Row>)
    ensures forall c :: c in Fold(rows) ==> Fold(rows)[c] != ""
    decreases |rows|
  {
    if |rows| > 0 {
      FoldValuesNonEmpty(rows[..|rows| - 1]);
    }
  }

  /** Last write wins: the entry for a code is the specialty of the last
      qualifying row with that code. */
  lemma {:induction false} FoldLastWriteWins(rows: seq<Row>, code: string, i: int)
    requires LastWrite(rows, code, i)
    ensures code in Fold(rows) && Fold(rows)[code] == rows[i].specialite
    decreases |rows|
  {
    var n := |rows|;
    var init := rows[..n - 1];
    if i < n - 1 {
      assert !WritesCode(rows, code, n - 1);
      assert LastWrite(init, code, i) by {
        forall j | i < j < |init| ensures !WritesCode(init, code, j) {
          assert !WritesCode(rows, code, j);
        }
      }
      FoldLastWriteWins(init, code, i);
    }
  }

  /** Every code with an entry has a last qualifying row. */
  lemma {:induction false} LastWriteExists(rows: seq<Row>, code: string)
    requires code in Fold(rows)
    ensures exists k :: LastWrite(rows, code, k)
    decreases |rows|
  {
    var n := |rows|;
    if WritesCode(rows, code, n - 1) {
      assert LastWrite(rows, code, n - 1);
    } else {
      var init := rows[..n - 1];
      assert code in Fold(init);
      LastWriteExists(init, code);
      var k :| LastWrite(init, code, k);
      forall j | k < j < n ensures !WritesCode(rows, code, j) {
        if j < n - 1 {
          assert !WritesCode(init, code, j);
        }
      }
      assert LastWrite(rows, code, k);
    }
  }

  /** Folding a concatenation is folding the first part and then letting the
      second part's map override it. */
  lemma {:induction false} FoldAppend(a: seq<Row>, b: seq<Row>)
    ensures Fold(a + b) == Fold(a) + Fold(b)
    decreases |b|
  {
    if |b| == 0 {
      assert a + b == a;
    } else {
      var b' := b[..|b| - 1];
      FoldAppend(a, b');
      assert (a + b)[..|a + b| - 1] == a + b';
      var r := b[|b| - 1];
      assert (a + b)[|a + b| - 1] == r;
      if Qualifies(r) {
        assert Fold(a) + Fold(b')[r.code := r.specialite] == (Fold(a) + Fold(b'))[r.code := r.specialite];
      }
    }
  }
}
