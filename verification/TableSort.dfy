/**
  sortTable: an in-place adjacent-swap sort of a table's data rows that starts over after every
  swap, and turns to descending order when the first pass finds nothing to swap.
*/
module TableSort {
  // ---------------------------------------------------------------- texts and their order

  newtype CodeUnit = n: int | 0 <= n < 0x1_0000

  /** A script string: UTF-16 code units. */
  type Text = seq<CodeUnit>

  /** `s < t` on strings. */
  predicate Less(s: Text, t: Text) {
    t != [] && (s == [] || s[0] < t[0] || (s[0] == t[0] && Less(s[1..], t[1..])))
  }

  /** s comes first: after a common beginning it ends, or has the smaller code unit. */
  ghost predicate Precedes(s: Text, t: Text) { exists k: nat :: DiffersAt(s, t, k) }

  ghost predicate DiffersAt(s: Text, t: Text, k: nat) {
    && k <= |s| && k < |t| && (forall i :: 0 <= i < k ==> s[i] == t[i])
    && (k == |s| || s[k] < t[k])
  }

  lemma {:induction false} LessIff(s: Text, t: Text)
    ensures Less(s, t) <==> Precedes(s, t)
  {
    if s == [] {
      assert t != [] ==> DiffersAt(s, t, 0);
    } else if t != [] {
      LessIff(s[1..], t[1..]);
      if s[0] < t[0] { assert DiffersAt(s, t, 0); }
      if s[0] == t[0] {
        if k: nat :| DiffersAt(s[1..], t[1..], k) {
          assert DiffersAt(s, t, k + 1) by {
            forall i | 0 <= i < k + 1 ensures s[i] == t[i] { if i > 0 { assert s[1..][i - 1] == t[1..][i - 1]; } }
          }
        }
        if k: nat :| DiffersAt(s, t, k) && k > 0 { assert DiffersAt(s[1..], t[1..], k - 1); }
      }
    }
  }

  lemma {:induction false} LessTotal(s: Text, t: Text)
    ensures Less(s, t) || Less(t, s) <==> s != t
    ensures !(Less(s, t) && Less(t, s))
  {
    if s != [] && t != [] {
      LessTotal(s[1..], t[1..]);
      assert s == [s[0]] + s[1..] && t == [t[0]] + t[1..];
    }
  }

  lemma {:induction false} LessTrans(s: Text, t: Text, u: Text)
    requires Less(s, t) && Less(t, u)
    ensures Less(s, u)
  {
    if s != [] && s[0] == t[0] && t[0] == u[0] {
      LessTrans(s[1..], t[1..], u[1..]);
    }
  }

  datatype Direction = Ascending | Descending

  /** The comparison that makes two neighbours change places. */
  predicate OutOfOrder(d: Direction, x: Text, y: Text) {
    match d
    case Ascending => Less(y, x)
    case Descending => Less(x, y)
  }

  lemma OutTotal(d: Direction, x: Text, y: Text)
    ensures OutOfOrder(d, x, y) || OutOfOrder(d, y, x) <==> x != y
    ensures !(OutOfOrder(d, x, y) && OutOfOrder(d, y, x))
  {
    LessTotal(x, y);
  }

  lemma InOrderTrans(d: Direction, x: Text, y: Text, z: Text)
    requires !OutOfOrder(d, x, y) && !OutOfOrder(d, y, z)
    ensures !OutOfOrder(d, x, z)
  {
    LessTotal(x, y);
    LessTotal(y, z);
    LessTotal(x, z);
    if OutOfOrder(d, x, z) && x != y && y != z {
      if d == Ascending { LessTrans(x, y, z); } else { LessTrans(z, y, x); }
    }
  }

  // ---------------------------------------------------------------- stable sorting

  /** A row node; the id tells apart rows that look the same. */
  datatype Row = Row(id: nat, cells: seq<Text>)

  /** What the rows are sorted by: a column's text in lower case. */
  type Key = Row -> Text

  ghost predicate Sorted(d: Direction, key: Key, s: seq<Row>) {
    forall i, j :: 0 <= i < j < |s| ==> !OutOfOrder(d, key(s[i]), key(s[j]))
  }

  /** The rows with key k, in their order. */
  function WithKey(key: Key, k: Text, s: seq<Row>): seq<Row> {
    if s == [] then []
    else (if key(s[0]) == k then [s[0]] else []) + WithKey(key, k, s[1..])
  }

  /** t has the rows of s, and rows with the same key stand in the same order. */
  ghost predicate StablyPermutes(key: Key, s: seq<Row>, t: seq<Row>) {
    forall k :: WithKey(key, k, t) == WithKey(key, k, s)
  }

  /** The reference: insert every row in front of those it is not out of order with. */
  function StableSort(d: Direction, key: Key, s: seq<Row>): seq<Row> {
    if s == [] then [] else Insert(d, key, s[0], StableSort(d, key, s[1..]))
  }

  function Insert(d: Direction, key: Key, r: Row, s: seq<Row>): seq<Row> {
    if s == [] || !OutOfOrder(d, key(r), key(s[0])) then [r] + s
    else [s[0]] + Insert(d, key, r, s[1..])
  }

  lemma {:induction false} InsertWithKey(d: Direction, key: Key, r: Row, s: seq<Row>, k: Text)
    ensures WithKey(key, k, Insert(d, key, r, s)) == WithKey(key, k, [r] + s)
  {
    if s != [] && OutOfOrder(d, key(r), key(s[0])) {
      InsertWithKey(d, key, r, s[1..], k);
      OutTotal(d, key(r), key(s[0]));
      assert ([r] + s)[1..] == s && ([r] + s[1..])[1..] == s[1..];
      assert ([s[0]] + Insert(d, key, r, s[1..]))[1..] == Insert(d, key, r, s[1..]);
    }
  }

  lemma {:induction false} InsertSorted(d: Direction, key: Key, r: Row, s: seq<Row>)
    requires Sorted(d, key, s)
    ensures Sorted(d, key, Insert(d, key, r, s))
    ensures forall x <- Insert(d, key, r, s) :: x == r || x in s
  {
    if s == [] {
    } else if !OutOfOrder(d, key(r), key(s[0])) {
      forall j | 0 <= j < |s| ensures !OutOfOrder(d, key(r), key(s[j])) {
        if j > 0 { InOrderTrans(d, key(r), key(s[0]), key(s[j])); }
      }
    } else {
      InsertSorted(d, key, r, s[1..]);
      OutTotal(d, key(r), key(s[0]));
      assert forall x <- s[1..] :: x in s;
      forall x | x in s[1..] ensures !OutOfOrder(d, key(s[0]), key(x)) {
        var j :| 0 <= j < |s[1..]| && s[1..][j] == x;
        assert s[j + 1] == x;
      }
    }
  }

  /** StableSort is a stable sort. */
  lemma {:induction false} SortSorts(d: Direction, key: Key, s: seq<Row>)
    ensures Sorted(d, key, StableSort(d, key, s)) && StablyPermutes(key, s, StableSort(d, key, s))
  {
    if s != [] {
      SortSorts(d, key, s[1..]);
      InsertSorted(d, key, s[0], StableSort(d, key, s[1..]));
      forall k ensures WithKey(key, k, StableSort(d, key, s)) == WithKey(key, k, s) {
        var rest := StableSort(d, key, s[1..]);
        InsertWithKey(d, key, s[0], rest, k);
        assert ([s[0]] + rest)[1..] == rest;
        assert WithKey(key, k, rest) == WithKey(key, k, s[1..]);
      }
    }
  }

  lemma {:induction false} WithKeyMember(key: Key, k: Text, s: seq<Row>)
    ensures WithKey(key, k, s) != [] <==> exists i :: 0 <= i < |s| && key(s[i]) == k
  {
    if s != [] {
      WithKeyMember(key, k, s[1..]);
      if WithKey(key, k, s) != [] {
        if key(s[0]) != k {
          var i :| 0 <= i < |s[1..]| && key(s[1..][i]) == k;
          assert key(s[i + 1]) == k;
        }
      } else {
        assert forall i :: 0 < i < |s| ==> s[i] == s[1..][i - 1];
      }
    }
  }

  /** A row's key occurs on the other side too, so neither head can come before the other. */
  lemma SameHead(d: Direction, key: Key, s: seq<Row>, t: seq<Row>)
    requires s != [] && t != [] && Sorted(d, key, s) && Sorted(d, key, t) && StablyPermutes(key, s, t)
    ensures s[0] == t[0]
  {
    var ks, kt := key(s[0]), key(t[0]);
    WithKeyMember(key, ks, s);
    WithKeyMember(key, ks, t);
    WithKeyMember(key, kt, s);
    WithKeyMember(key, kt, t);
    assert WithKey(key, ks, t) == WithKey(key, ks, s) && WithKey(key, kt, t) == WithKey(key, kt, s);
    var i :| 0 <= i < |t| && key(t[i]) == ks;
    var j :| 0 <= j < |s| && key(s[j]) == kt;
    OutTotal(d, ks, kt);
    assert !OutOfOrder(d, key(s[0]), key(s[j])) || j == 0;
    assert !OutOfOrder(d, key(t[0]), key(t[i])) || i == 0;
    assert WithKey(key, ks, s)[0] == s[0] && WithKey(key, ks, t)[0] == t[0];
  }

  lemma SameEmptiness(key: Key, s: seq<Row>, t: seq<Row>)
    requires StablyPermutes(key, s, t)
    ensures s == [] <==> t == []
  {
    if s != [] { assert WithKey(key, key(s[0]), t) == WithKey(key, key(s[0]), s); }
    if t != [] { assert WithKey(key, key(t[0]), t) == WithKey(key, key(t[0]), s); }
  }

  /** There is only one stable sort of a sequence. */
  lemma {:induction false} StableSortUnique(d: Direction, key: Key, s: seq<Row>, t: seq<Row>)
    requires Sorted(d, key, s) && Sorted(d, key, t) && StablyPermutes(key, s, t)
    ensures s == t
  {
    SameEmptiness(key, s, t);
    if s != [] {
      SameHead(d, key, s, t);
      forall k ensures WithKey(key, k, t[1..]) == WithKey(key, k, s[1..]) {
        assert WithKey(key, k, t) == WithKey(key, k, s);
        var head := if key(s[0]) == k then [s[0]] else [];
        assert (head + WithKey(key, k, t[1..]))[|head|..] == WithKey(key, k, t[1..]);
        assert (head + WithKey(key, k, s[1..]))[|head|..] == WithKey(key, k, s[1..]);
      }
      StableSortUnique(d, key, s[1..], t[1..]);
      assert s == [s[0]] + s[1..] && t == [t[0]] + t[1..];
    }
  }

  /** A sequence is the stable sort of another exactly when it is sorted and a stable permutation of it. */
  lemma StableSortIff(d: Direction, key: Key, s: seq<Row>, t: seq<Row>)
    ensures t == StableSort(d, key, s) <==> Sorted(d, key, t) && StablyPermutes(key, s, t)
  {
    SortSorts(d, key, s);
    if Sorted(d, key, t) && StablyPermutes(key, s, t) {
      forall k ensures WithKey(key, k, StableSort(d, key, s)) == WithKey(key, k, t) {
        assert WithKey(key, k, StableSort(d, key, s)) == WithKey(key, k, s) == WithKey(key, k, t);
      }
      StableSortUnique(d, key, t, StableSort(d, key, s));
    }
  }

  /** Sorting forgets an earlier sort by the same key. */
  lemma SortAbsorbs(d: Direction, e: Direction, key: Key, s: seq<Row>)
    ensures StableSort(d, key, StableSort(e, key, s)) == StableSort(d, key, s)
  {
    var t := StableSort(e, key, s);
    SortSorts(e, key, s);
    SortSorts(d, key, t);
    forall k ensures WithKey(key, k, StableSort(d, key, t)) == WithKey(key, k, s) {
      assert WithKey(key, k, t) == WithKey(key, k, s);
      assert WithKey(key, k, StableSort(d, key, t)) == WithKey(key, k, t);
    }
    StableSortIff(d, key, s, StableSort(d, key, t));
  }

  // ---------------------------------------------------------------- inversions

  /** How many of the rows in s stand on the wrong side of r. */
  function Overtakes(d: Direction, key: Key, r: Row, s: seq<Row>): (n: nat)
    ensures n <= |s|
  {
    if s == [] then 0 else (if OutOfOrder(d, key(r), key(s[0])) then 1 else 0) + Overtakes(d, key, r, s[1..])
  }

  /** The number of pairs that stand in the wrong order. */
  function Inversions(d: Direction, key: Key, s: seq<Row>): nat {
    if s == [] then 0 else Overtakes(d, key, s[0], s[1..]) + Inversions(d, key, s[1..])
  }

  lemma {:induction false} InversionsBound(d: Direction, key: Key, s: seq<Row>)
    ensures 2 * Inversions(d, key, s) <= |s| * (|s| - 1)
  {
    if s != [] {
      InversionsBound(d, key, s[1..]);
      assert (|s| - 1) * (|s| - 2) + 2 * (|s| - 1) == |s| * (|s| - 1);
    }
  }

  lemma {:induction false} NoneOvertaken(d: Direction, key: Key, r: Row, s: seq<Row>)
    ensures Overtakes(d, key, r, s) == 0 <==> forall j :: 0 <= j < |s| ==> !OutOfOrder(d, key(r), key(s[j]))
  {
    if s != [] {
      NoneOvertaken(d, key, r, s[1..]);
      assert forall j :: 0 < j < |s| ==> s[j] == s[1..][j - 1];
      if Overtakes(d, key, r, s) != 0 && !OutOfOrder(d, key(r), key(s[0])) {
        var j :| 0 <= j < |s[1..]| && OutOfOrder(d, key(r), key(s[1..][j]));
        assert OutOfOrder(d, key(r), key(s[j + 1]));
      }
    }
  }

  /** A sequence is sorted exactly when it has no inversion. */
  lemma {:induction false} SortedIffNoInversion(d: Direction, key: Key, s: seq<Row>)
    ensures Sorted(d, key, s) <==> Inversions(d, key, s) == 0
  {
    if s != [] {
      SortedIffNoInversion(d, key, s[1..]);
      NoneOvertaken(d, key, s[0], s[1..]);
      assert forall j :: 0 <= j < |s[1..]| ==> s[1..][j] == s[j + 1];
      if Inversions(d, key, s) == 0 {
        forall i, j | 0 <= i < j < |s| ensures !OutOfOrder(d, key(s[i]), key(s[j])) {
          assert s[j] == s[1..][j - 1];
          if i > 0 { assert s[i] == s[1..][i - 1]; }
        }
      }
    }
  }

  /** s with the neighbours at i and i + 1 exchanged. */
  function Swapped(s: seq<Row>, i: nat): seq<Row>
    requires i + 1 < |s|
  {
    s[i := s[i + 1]][i + 1 := s[i]]
  }

  lemma SwappedTail(s: seq<Row>, i: nat)
    requires i + 1 < |s|
    ensures i > 0 ==> Swapped(s, i)[0] == s[0] && Swapped(s, i)[1..] == Swapped(s[1..], i - 1)
    ensures i == 0 ==> Swapped(s, 0) == [s[1], s[0]] + s[2..]
  {
  }

  lemma {:induction false} OvertakesSwapped(d: Direction, key: Key, r: Row, s: seq<Row>, i: nat)
    requires i + 1 < |s|
    ensures Overtakes(d, key, r, Swapped(s, i)) == Overtakes(d, key, r, s)
  {
    SwappedTail(s, i);
    if i > 0 {
      OvertakesSwapped(d, key, r, s[1..], i - 1);
    } else {
      assert s == [s[0], s[1]] + s[2..];
      OvertakesTwo(d, key, r, s[0], s[1], s[2..]);
      OvertakesTwo(d, key, r, s[1], s[0], s[2..]);
    }
  }

  lemma OvertakesTwo(d: Direction, key: Key, r: Row, x: Row, y: Row, s: seq<Row>)
    ensures Overtakes(d, key, r, [x, y] + s) ==
      Overtakes(d, key, r, [x]) + Overtakes(d, key, r, [y]) + Overtakes(d, key, r, s)
  {
    var xs, ys := [x, y] + s, [y] + s;
    assert xs[1..] == ys && ys[1..] == s;
  }

  /** Exchanging two neighbours that are out of order removes exactly one inversion. */
  lemma {:induction false} SwapRemovesOne(d: Direction, key: Key, s: seq<Row>, i: nat)
    requires i + 1 < |s| && OutOfOrder(d, key(s[i]), key(s[i + 1]))
    ensures Inversions(d, key, Swapped(s, i)) == Inversions(d, key, s) - 1
  {
    SwappedTail(s, i);
    if i > 0 {
      SwapRemovesOne(d, key, s[1..], i - 1);
      OvertakesSwapped(d, key, s[0], s[1..], i - 1);
    } else {
      var x, y, rest := s[0], s[1], s[2..];
      OutTotal(d, key(x), key(y));
      assert s == [x, y] + rest && s[1..] == [y] + rest && s[1..][1..] == rest;
      var t := Swapped(s, 0);
      assert t == [y, x] + rest && t[1..] == [x] + rest && t[1..][1..] == rest;
    }
  }

  /** ... and keeps rows with the same key in their order. */
  lemma {:induction false} SwapIsStable(key: Key, s: seq<Row>, i: nat, k: Text)
    requires i + 1 < |s| && key(s[i]) != key(s[i + 1])
    ensures WithKey(key, k, Swapped(s, i)) == WithKey(key, k, s)
  {
    SwappedTail(s, i);
    if i > 0 {
      SwapIsStable(key, s[1..], i - 1, k);
    } else {
      var x, y, rest := s[0], s[1], s[2..];
      assert s[1..] == [y] + rest && s[1..][1..] == rest;
      var t := Swapped(s, 0);
      assert t[1..] == [x] + rest && t[1..][1..] == rest;
    }
  }

  lemma {:induction false} NeighboursSorted(d: Direction, key: Key, s: seq<Row>, i: nat, j: nat)
    requires forall k :: 0 <= k < |s| - 1 ==> !OutOfOrder(d, key(s[k]), key(s[k + 1]))
    requires i < j < |s|
    ensures !OutOfOrder(d, key(s[i]), key(s[j]))
    decreases j
  {
    assert !OutOfOrder(d, key(s[j - 1]), key(s[j - 1 + 1]));
    if i < j - 1 {
      NeighboursSorted(d, key, s, i, j - 1);
      InOrderTrans(d, key(s[i]), key(s[j - 1]), key(s[j]));
    }
  }

  // ---------------------------------------------------------------- what a click does

  /** The direction a click ends in. */
  ghost function ClickDirection(key: Key, s: seq<Row>): Direction {
    if Sorted(Ascending, key, s) then Descending else Ascending
  }

  ghost function Clicked(key: Key, s: seq<Row>): seq<Row> { StableSort(ClickDirection(key, s), key, s) }

  /** All rows look the same in the sort column. */
  ghost predicate OneKey(key: Key, s: seq<Row>) { Sorted(Ascending, key, s) && Sorted(Descending, key, s) }

  /** Clicking the same column again turns the order round, unless there is nothing to tell the rows apart by. */
  lemma ClickToggles(key: Key, s: seq<Row>)
    ensures OneKey(key, s) ==> Clicked(key, s) == s
    ensures !OneKey(key, s) ==> ClickDirection(key, Clicked(key, s)) != ClickDirection(key, s)
    ensures !OneKey(key, s) ==> !OneKey(key, Clicked(key, s))
  {
    var d := ClickDirection(key, s);
    SortSorts(d, key, s);
    StableSortIff(d, key, s, s);
    var t := Clicked(key, s);
    if OneKey(key, t) {
      SortAbsorbs(Ascending, d, key, s);
      SortAbsorbs(Descending, d, key, s);
      StableSortIff(Ascending, key, t, t);
      StableSortIff(Descending, key, t, t);
      OneKeySpreads(key, s, t);
    }
  }

  lemma OneKeySpreads(key: Key, s: seq<Row>, t: seq<Row>)
    requires StablyPermutes(key, s, t) && OneKey(key, t)
    ensures OneKey(key, s)
  {
    forall i, j | 0 <= i < j < |s| ensures key(s[i]) == key(s[j]) {
      WithKeyMember(key, key(s[i]), s);
      WithKeyMember(key, key(s[i]), t);
      WithKeyMember(key, key(s[j]), s);
      WithKeyMember(key, key(s[j]), t);
      assert WithKey(key, key(s[i]), t) == WithKey(key, key(s[i]), s);
      assert WithKey(key, key(s[j]), t) == WithKey(key, key(s[j]), s);
      var a :| 0 <= a < |t| && key(t[a]) == key(s[i]);
      var b :| 0 <= b < |t| && key(t[b]) == key(s[j]);
      OutTotal(Ascending, key(t[a]), key(t[b]));
      if a < b { assert !OutOfOrder(Ascending, key(t[a]), key(t[b])) && !OutOfOrder(Descending, key(t[a]), key(t[b])); }
      if b < a { assert !OutOfOrder(Ascending, key(t[b]), key(t[a])) && !OutOfOrder(Descending, key(t[b]), key(t[a])); }
    }
    forall i, j | 0 <= i < j < |s|
      ensures !OutOfOrder(Ascending, key(s[i]), key(s[j])) && !OutOfOrder(Descending, key(s[i]), key(s[j]))
    {
      OutTotal(Ascending, key(s[i]), key(s[j]));
    }
  }

  /** Three clicks on one column leave what one click leaves. */
  lemma ThreeClicks(key: Key, s: seq<Row>)
    ensures Clicked(key, Clicked(key, Clicked(key, s))) == Clicked(key, s)
  {
    var t := Clicked(key, s);
    ClickToggles(key, s);
    ClickToggles(key, t);
    if !OneKey(key, s) {
      var d, e := ClickDirection(key, s), ClickDirection(key, t);
      SortAbsorbs(e, d, key, s);
      SortAbsorbs(d, e, key, s);
    }
  }

  // ---------------------------------------------------------------- the table

  datatype Indicator = Blank | Up | Down

  function Shown(d: Direction): Indicator { if d == Ascending then Up else Down }

  /** The key of a row: its cell in the sort column, in lower case. */
  function CellKey(lower: Text -> Text, col: nat): Key {
    (r: Row) => if col < |r.cells| then lower(r.cells[col]) else []
  }

  predicate HaveCell(s: seq<Row>, col: nat) { forall r <- s :: col < |r.cells| }

  /** The texts the rows below the header have in this column never go down, compared in lower case. */
  ghost predicate Rising(lower: Text -> Text, rows: seq<Row>, col: nat) {
    forall i, j :: 1 <= i < j < |rows| && HasCells(rows[i], rows[j], col) ==>
      !Precedes(lower(rows[j].cells[col]), lower(rows[i].cells[col]))
  }

  /** ... or never go up. */
  ghost predicate Falling(lower: Text -> Text, rows: seq<Row>, col: nat) {
    forall i, j :: 1 <= i < j < |rows| && HasCells(rows[i], rows[j], col) ==>
      !Precedes(lower(rows[i].cells[col]), lower(rows[j].cells[col]))
  }

  predicate HasCells(r: Row, q: Row, col: nat) { col < |r.cells| && col < |q.cells| }

  /** What the two directions mean for the rows of a table. */
  lemma DirectionsMean(lower: Text -> Text, rows: seq<Row>, col: nat)
    requires rows != [] && (|rows| >= 3 ==> HaveCell(rows[1..], col))
    ensures Sorted(Ascending, CellKey(lower, col), rows[1..]) <==> Rising(lower, rows, col)
    ensures Sorted(Descending, CellKey(lower, col), rows[1..]) <==> Falling(lower, rows, col)
  {
    hide Less, Precedes;
    var s, key := rows[1..], CellKey(lower, col);
    forall i, j | 1 <= i < j < |rows|
      ensures HasCells(rows[i], rows[j], col)
      ensures key(s[i - 1]) == lower(rows[i].cells[col]) && key(s[j - 1]) == lower(rows[j].cells[col])
      ensures Less(key(s[i - 1]), key(s[j - 1])) <==> Precedes(key(s[i - 1]), key(s[j - 1]))
      ensures Less(key(s[j - 1]), key(s[i - 1])) <==> Precedes(key(s[j - 1]), key(s[i - 1]))
    {
      assert s[i - 1] in s && s[j - 1] in s;
      LessIff(key(s[i - 1]), key(s[j - 1]));
      LessIff(key(s[j - 1]), key(s[i - 1]));
    }
  }

  class Table {
    const rows: array<Row>   // the header first
    var prevSortCol: nat
    var indicators: seq<Indicator>

    constructor (rows: array<Row>, columns: nat)
      ensures this.rows == rows && prevSortCol == 0 && indicators == seq(columns, _ => Blank)
      ensures ShowsOne()
    {
      this.rows := rows;
      prevSortCol, indicators := 0, seq(columns, _ => Blank);
    }

    /** Only the column sorted last can show an arrow. */
    ghost predicate ShowsOne()
      reads this
    {
      forall c :: 0 <= c < |indicators| && c != prevSortCol ==> indicators[c] == Blank
    }

    ghost function Data(): seq<Row>
      reads rows
    {
      if rows.Length == 0 then [] else rows[1..]
    }

    /** The scan for the first pair of neighbours out of order; rows.Length - 1 or more if there is none. */
    method FindSwitch(order: Direction, lower: Text -> Text, sortCol: nat) returns (i: nat, shouldSwitch: bool)
      requires rows.Length >= 3 ==> HaveCell(Data(), sortCol)
      ensures shouldSwitch ==> 1 <= i && i + 1 < rows.Length
      ensures shouldSwitch ==> OutOfOrder(order, CellKey(lower, sortCol)(rows[i]), CellKey(lower, sortCol)(rows[i + 1]))
      ensures !shouldSwitch ==> Sorted(order, CellKey(lower, sortCol), Data())
    {
      ghost var key := CellKey(lower, sortCol);
      i, shouldSwitch := 1, false;
      while i < rows.Length - 1
        invariant 1 <= i
        invariant forall k :: 1 <= k < i && k < rows.Length - 1 ==> !OutOfOrder(order, key(rows[k]), key(rows[k + 1]))
      {
        assert rows[i] == Data()[i - 1] && rows[i + 1] == Data()[i];
        var x, y := lower(rows[i].cells[sortCol]), lower(rows[i + 1].cells[sortCol]);
        if OutOfOrder(order, x, y) {
          shouldSwitch := true;
          return;
        }
        i := i + 1;
      }
      forall k | 0 <= k < |Data()| - 1 ensures !OutOfOrder(order, key(Data()[k]), key(Data()[k + 1])) {
        assert Data()[k] == rows[k + 1] && Data()[k + 1] == rows[k + 1 + 1];
      }
      forall a, b | 0 <= a < b < |Data()| ensures !OutOfOrder(order, key(Data()[a]), key(Data()[b])) {
        NeighboursSorted(order, key, Data(), a, b);
      }
    }

    /** insertBefore(rows[i + 1], rows[i]) */
    method Switch(i: nat)
      requires 1 <= i && i + 1 < rows.Length
      modifies rows
      ensures Data() == Swapped(old(Data()), i - 1) && rows[0] == old(rows[0])
    {
      rows[i], rows[i + 1] := rows[i + 1], rows[i];
    }

    /** sortTable; count is the source's local of that name. */
    method SortTable(lower: Text -> Text, sortCol: nat) returns (count: nat)
      requires sortCol < |indicators| && prevSortCol < |indicators| && ShowsOne()
      requires rows.Length >= 3 ==> HaveCell(Data(), sortCol)
      modifies this, rows
      ensures rows.Length > 0 ==> rows[0] == old(rows[0])
      ensures Data() == Clicked(CellKey(lower, sortCol), old(Data()))
      ensures var key := CellKey(lower, sortCol);
        count == Inversions(ClickDirection(key, old(Data())), key, old(Data()))
      ensures prevSortCol == sortCol && |indicators| == |old(indicators)| && ShowsOne()
      ensures indicators[sortCol] == Shown(ClickDirection(CellKey(lower, sortCol), old(Data())))
      ensures indicators[sortCol] == Up || indicators[sortCol] == Down
      ensures indicators[sortCol] == Up ==> Rising(lower, rows[..], sortCol)
      ensures indicators[sortCol] == Down ==> Falling(lower, rows[..], sortCol)
      ensures indicators[sortCol] == Up <==> !Rising(lower, old(rows[..]), sortCol)
    {
      hide Sorted, Inversions, StableSort, OutOfOrder, Overtakes, Swapped, WithKey, HaveCell, Clicked, ClickDirection;
      ghost var key, data := CellKey(lower, sortCol), Data();
      var order, switching := Ascending, true;
      count := 0;
      while switching
        invariant unchanged(this) && (rows.Length > 0 ==> rows[0] == old(rows[0]))
        invariant rows.Length >= 3 ==> HaveCell(Data(), sortCol)
        invariant StablyPermutes(key, data, Data())
        invariant count + Inversions(order, key, Data()) == Inversions(order, key, data)
        invariant order == Descending ==> Sorted(Ascending, key, data)
        invariant !switching ==> Sorted(order, key, Data()) && (order == Ascending ==> count > 0)
        decreases order == Ascending, Inversions(order, key, Data()), switching
      {
        switching := false;
        var i, shouldSwitch := FindSwitch(order, lower, sortCol);
        if shouldSwitch {
          assert rows[i] == Data()[i - 1] && rows[i + 1] == Data()[i];
          SwitchKeeps(order, key, data, Data(), i - 1, sortCol);
          Switch(i);
          switching := true;
          count := count + 1;
        } else {
          SortedIffNoInversion(order, key, Data());
          if count == 0 && order == Ascending {
            StillAsBefore(key, data, Data());
            order := Descending;
            switching := true;
          }
        }
      }
      Finished(order, key, data, Data(), count);
      Directed(lower, old(rows[..]), rows[..], sortCol, order);
      indicators := indicators[prevSortCol := Blank];
      indicators := indicators[sortCol := Shown(order)];
      prevSortCol := sortCol;
    }
  }

  /** What the direction a click ended in says about the rows before and after. */
  lemma Directed(lower: Text -> Text, before: seq<Row>, after: seq<Row>, col: nat, d: Direction)
    requires |before| == |after| && (|before| >= 3 ==> HaveCell(before[1..], col) && HaveCell(after[1..], col))
    requires before != [] ==> Sorted(d, CellKey(lower, col), after[1..])
    requires before != [] ==> d == ClickDirection(CellKey(lower, col), before[1..])
    requires before == [] ==> d == Descending
    ensures d == Ascending ==> Rising(lower, after, col)
    ensures d == Descending ==> Falling(lower, after, col)
    ensures d == Ascending <==> !Rising(lower, before, col)
  {
    if before != [] {
      DirectionsMean(lower, before, col);
      DirectionsMean(lower, after, col);
    }
  }

  lemma SwitchKeeps(d: Direction, key: Key, data: seq<Row>, s: seq<Row>, i: nat, col: nat)
    requires i + 1 < |s| && OutOfOrder(d, key(s[i]), key(s[i + 1])) && StablyPermutes(key, data, s)
    ensures StablyPermutes(key, data, Swapped(s, i)) && (HaveCell(s, col) ==> HaveCell(Swapped(s, i), col))
    ensures Inversions(d, key, Swapped(s, i)) == Inversions(d, key, s) - 1
  {
    OutTotal(d, key(s[i]), key(s[i + 1]));
    SwapRemovesOne(d, key, s, i);
    forall k ensures WithKey(key, k, Swapped(s, i)) == WithKey(key, k, data) {
      SwapIsStable(key, s, i, k);
      assert WithKey(key, k, s) == WithKey(key, k, data);
    }
  }

  /** A first pass that found nothing to switch: the rows were ascending and are where they were. */
  lemma StillAsBefore(key: Key, data: seq<Row>, s: seq<Row>)
    requires StablyPermutes(key, data, s) && Sorted(Ascending, key, s)
    requires Inversions(Ascending, key, s) == Inversions(Ascending, key, data)
    ensures s == data && Sorted(Ascending, key, data)
  {
    SortedIffNoInversion(Ascending, key, s);
    SortedIffNoInversion(Ascending, key, data);
    StableSortUnique(Ascending, key, data, s);
  }

  lemma Finished(d: Direction, key: Key, data: seq<Row>, s: seq<Row>, count: nat)
    requires StablyPermutes(key, data, s) && Sorted(d, key, s)
    requires count + Inversions(d, key, s) == Inversions(d, key, data)
    requires if d == Ascending then count > 0 else Sorted(Ascending, key, data)
    ensures d == ClickDirection(key, data) && s == Clicked(key, data) && count == Inversions(d, key, data)
  {
    SortedIffNoInversion(d, key, s);
    SortedIffNoInversion(Ascending, key, data);
    StableSortIff(d, key, data, s);
  }
}
