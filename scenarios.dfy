/** The repository's own usage, replayed against the model: the list-model
    and dict-model tests and the demo window's dictionary. */
module Scenarios {
  import opened PyValues
  import opened TrivialUI
  import TrivialUILegacy

  function Pair(k: string, v: int): Val {
    TupleVal([StrVal(k), IntVal(v)])
  }

  /** `[('first', None, [('one', 1), ('two', 2)]), ('second', None, [('une', 1), ('deux', 2)])]` */
  function TwoGroups(): (d: Val)
    ensures ListData(d)
  {
    ListVal([
      TupleVal([StrVal("first"), NoneVal, ListVal([Pair("one", 1), Pair("two", 2)])]),
      TupleVal([StrVal("second"), NoneVal, ListVal([Pair("une", 1), Pair("deux", 2)])])])
  }

  /** The list-model test: two top-level rows; the first shows the label
      "first" and has two rows; the first of those has none and shows the
      first item of its pair, "one". The tree is two columns wide, the width
      of its pairs, and the construction has already built and cached the
      group's rows. */
  method ListModelTest() returns (topRows: int, columns: int, groupLabel: Outcome<Val>, groupRows: int,
                                  groupBuilt: bool, pairRows: int, pairLabel: Outcome<Val>)
    ensures topRows == 2 && columns == 2 && groupLabel == Ok(StrVal("first")) && groupRows == 2
    ensures groupBuilt && pairRows == 0 && pairLabel == Ok(StrVal("one"))
  {
    var data := TwoGroups();
    assert NodeColumns(data.items[0].items[2]) == 2;
    assert NodeColumns(data.items[1].items[2]) == 2;
    assert NodeColumns(data) == 2;
    var m := new Model.FromList(data);
    topRows := m.RowCount(Invalid);
    columns := m.ColumnCount(Invalid);
    assert m.HasIndex(0, 0, Invalid);
    var group := m.Index(0, 0, Invalid);
    var g := group.value;
    groupRows := m.RowCount(g);
    groupLabel := m.Data(g, DisplayRole);
    groupBuilt := 0 in g.node.childCache && 1 in g.node.childCache;
    assert m.HasIndex(0, 0, g);
    var pair := m.Index(0, 0, g);
    pairRows := m.RowCount(pair.value);
    pairLabel := m.Data(pair.value, DisplayRole);
  }

  /** The dict-model test: a dictionary of two dictionaries has two
      top-level rows, but its first row is a nested dictionary, whose proxy
      cannot be built correctly. */
  method DictModelTest() returns (topRows: int, first: Outcome<ModelIndex>)
    ensures topRows == 2 && first == Raised(Unsupported)
  {
    var data := DictVal([
      ("first", DictVal([("one", IntVal(1)), ("two", IntVal(2)), ("three", IntVal(3))])),
      ("second", DictVal([("une", IntVal(1)), ("deux", IntVal(2)), ("trois", IntVal(3))]))]);
    var m := new Model.FromDict(data);
    topRows := m.RowCount(Invalid);
    first := m.Index(0, 0, Invalid);
  }

  /** A flat dictionary: asking twice for the same cell yields the very
      proxy built the first time, and the other column of the row names it
      too. */
  method DictModelSameProxy() returns (first: Outcome<ModelIndex>, again: Outcome<ModelIndex>,
                                        other: Outcome<ModelIndex>)
    ensures first.Ok? && first.value.Idx? && again.Ok? && again.value.Idx? && other.Ok? && other.value.Idx?
    ensures again.value.node == first.value.node && other.value.node == first.value.node
    ensures first.value.node.data == IntVal(1)
  {
    var m := new Model.FromDict(DictVal([("a", IntVal(1)), ("b", IntVal(2))]));
    first := m.Index(0, 1, Invalid);
    again := m.Index(0, 1, Invalid);
    other := m.Index(0, 0, Invalid);
  }

  /** The demo window's dictionary `{'a': 1, 'b': 2, 'c': 3}` in the older
      adapter: three rows, the value in both columns of a row, both columns
      naming the same cached leaf, whose parent is the valid index (0, 0). */
  method LegacyDemo() returns (rows: int, left: Val, right: Val, same: bool, up: TrivialUILegacy.ModelIndex)
    ensures rows == 3 && left == IntVal(2) && right == IntVal(2) && same
    ensures up.Idx? && up.row == 0 && up.column == 0
  {
    var m := new TrivialUILegacy.DictModel(DictVal([("a", IntVal(1)), ("b", IntVal(2)), ("c", IntVal(3))]));
    rows := m.RowCount(TrivialUILegacy.Invalid);
    var i := m.Index(1, 0, TrivialUILegacy.Invalid);
    var j := m.Index(1, 1, TrivialUILegacy.Invalid);
    left := m.Data(i.value, DisplayRole);
    right := m.Data(j.value, DisplayRole);
    same := i.value.item == j.value.item;
    TrivialUILegacy.ParentOfLeaf(m, i.value);
    up := m.Parent(i.value);
  }
}
