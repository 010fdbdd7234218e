/** The older single-file adapter: a dictionary shown as a two-level tree.
    The root proxy wraps the dictionary; each of its rows is a leaf proxy
    holding one value, built on first use and cached by row. */
module TrivialUILegacy {
  import opened PyValues
  import TrivialUI

  /** The proxy of one dictionary value. It has no children. */
  class LeafProxy {
    const data: Val
    const parent: DictProxy?

    constructor (data: Val, parent: DictProxy?)
      ensures this.data == data && this.parent == parent
    {
      this.data := data;
      this.parent := parent;
    }

    /** `childAt` of a leaf always raises `Exception("No child")`. */
    method ChildAt(row: int) returns (res: Outcome<LeafProxy>)
      ensures res == Raised(NoChild)
    {
      res := Raised(NoChild);
    }
  }

  /** The proxy of the dictionary: its entries in enumeration order, its
      parent and row (never given by the model, so `None` and 0), and the
      cache of leaves it has built. */
  class DictProxy {
    const entries: seq<(string, Val)>
    const parent: DictProxy?
    const row: int
    var childCache: map<int, LeafProxy>

    constructor (entries: seq<(string, Val)>, parent: DictProxy?, row: int)
      ensures this.entries == entries && this.parent == parent && this.row == row
      ensures childCache == map[] && Valid()
    {
      this.entries := entries;
      this.parent := parent;
      this.row := row;
      childCache := map[];
    }

    /** `childCount`: `len(data)`. */
    function ChildCount(): (n: nat)
      ensures n == |entries|
    {
      |entries|
    }

    /** `hasChild`: only the upper bound is checked, so a negative row
        passes; it is then served by Python's negative indexing. */
    function HasChild(r: int): (b: bool)
      ensures b <==> r < ChildCount()
      ensures b && -(ChildCount() as int) <= r ==> PyIndex(entries, r).Ok?
    {
      r < |entries|
    }

    /** Every cached leaf holds the value of the entry at its row and has
        this proxy as its parent. */
    ghost predicate Valid()
      reads this
    {
      forall k | k in childCache ::
        PyIndex(entries, k).Ok? &&
        childCache[k].data == PyIndex(entries, k).value.1 &&
        childCache[k].parent == this
    }

    /** `childAt`: the cached leaf, or a new leaf for `items[row][1]`,
        which raises `IndexError` outside the entries. */
    method ChildAt(r: int) returns (res: Outcome<LeafProxy>)
      requires Valid()
      modifies this
      ensures Valid()
      ensures r in old(childCache) ==> res == Ok(old(childCache)[r]) && childCache == old(childCache)
      ensures r !in old(childCache) ==>
                match PyIndex(entries, r)
                case Raised(e) => res == Raised(e) && childCache == old(childCache)
                case Ok(entry) =>
                  res.Ok? && fresh(res.value) && res.value.data == entry.1 && res.value.parent == this &&
                  childCache == old(childCache)[r := res.value]
      ensures res.Ok? ==> res.value.parent == this && r in childCache && childCache[r] == res.value
    {
      if r in childCache {
        return Ok(childCache[r]);
      }
      match PyIndex(entries, r)
      case Raised(e) =>
        res := Raised(e);
      case Ok(entry) =>
        var child := new LeafProxy(entry.1, this);
        childCache := childCache[r := child];
        res := Ok(child);
    }
  }

  /** What an index points at: the dictionary proxy or a leaf proxy. */
  datatype Item = DictItem(dict: DictProxy) | LeafItem(leaf: LeafProxy) {
    function Parent(): DictProxy? {
      if DictItem? then dict.parent else leaf.parent
    }
  }

  /** A Qt model index over this adapter's proxies. */
  datatype ModelIndex = Invalid | Idx(row: int, column: int, item: Item) {
    /** An invalid index reports column -1. */
    function Column(): int {
      if Invalid? then -1 else column
    }
  }

  /** `DictModel`: two columns over one dictionary. */
  class DictModel {
    const root: DictProxy

    ghost predicate Valid()
      reads root
    {
      root.Valid() && root.parent == null && root.row == 0
    }

    /** An index this model can have handed out: invalid, the root, or a
        leaf the root has cached. */
    ghost predicate Handle(i: ModelIndex)
      reads root
    {
      i.Invalid? ||
      (i.item.DictItem? && i.item.dict == root) ||
      (i.item.LeafItem? && exists k :: k in root.childCache && root.childCache[k] == i.item.leaf)
    }

    constructor (data: Val)
      requires data.DictVal?
      ensures Valid() && fresh(root) && root.entries == data.entries && root.childCache == map[]
    {
      root := new DictProxy(data.entries, null, 0);
    }

    /** The proxy an index resolves to: the root for an invalid index. */
    function Resolve(i: ModelIndex): (r: Item)
      ensures i.Invalid? ==> r == DictItem(root)
      ensures i.Idx? ==> r == i.item
    {
      if i.Invalid? then DictItem(root) else i.item
    }

    /** `columnCount`: always 2. */
    function ColumnCount(parent: ModelIndex): (n: int)
      ensures n == 2
    {
      2
    }

    /** `rowCount`: nothing below a non-first column; otherwise the child
        count of the resolved proxy (0 for a leaf). */
    function RowCount(parent: ModelIndex): (n: int)
      reads if Resolve(parent).DictItem? then {Resolve(parent).dict} else {}
      ensures parent.Column() > 0 || Resolve(parent).LeafItem? ==> n == 0
      ensures parent.Column() <= 0 && Resolve(parent).DictItem? ==> n == |Resolve(parent).dict.entries|
    {
      if parent.Column() > 0 then 0
      else match Resolve(parent)
        case DictItem(d) => d.ChildCount()
        case LeafItem(_) => 0
    }

    /** Qt's `hasIndex`: both coordinates inside the counts of `parent`.
        Only rows of the dictionary proxy pass it. */
    predicate HasIndex(row: int, column: int, parent: ModelIndex)
      reads if Resolve(parent).DictItem? then {Resolve(parent).dict} else {}
      ensures HasIndex(row, column, parent) <==>
                parent.Column() <= 0 && Resolve(parent).DictItem? &&
                0 <= row < |Resolve(parent).dict.entries| && 0 <= column < 2
    {
      0 <= row && 0 <= column && row < RowCount(parent) && column < ColumnCount(parent)
    }

    /** `parent`: the proxy's own parent at that parent's row, invalid for
        an invalid index or a proxy without parent. */
    function Parent(child: ModelIndex): (q: ModelIndex)
      ensures q.Invalid? <==> child.Invalid? || child.item.Parent() == null
      ensures q.Idx? ==> q == Idx(child.item.Parent().row, 0, DictItem(child.item.Parent()))
    {
      if child.Invalid? || child.item.Parent() == null then Invalid
      else Idx(child.item.Parent().row, 0, DictItem(child.item.Parent()))
    }

    /** `data`: `None` for an invalid index or another role, else the
        proxy's whole data, the same in every column. */
    function Data(index: ModelIndex, role: int): (r: Val)
      ensures index.Invalid? || role != TrivialUI.DisplayRole ==> r == NoneVal
      ensures index.Idx? && role == TrivialUI.DisplayRole && index.item.LeafItem? ==> r == index.item.leaf.data
      ensures index.Idx? && role == TrivialUI.DisplayRole && index.item.DictItem? ==> r == DictVal(index.item.dict.entries)
    {
      if index.Invalid? || role != TrivialUI.DisplayRole then NoneVal
      else match index.item
        case DictItem(d) => DictVal(d.entries)
        case LeafItem(l) => l.data
    }

    /** `index`: invalid outside `hasIndex`; otherwise the leaf for the
        row, cached or newly built. It never raises, and both columns of a
        row name the same leaf, which shows the row's value. */
    method Index(row: int, column: int, parent: ModelIndex) returns (res: Outcome<ModelIndex>)
      requires Valid() && Handle(parent)
      modifies root
      ensures Valid() && res.Ok? && Handle(res.value)
      ensures !HasIndex(row, column, parent) ==> res.value == Invalid && root.childCache == old(root.childCache)
      ensures HasIndex(row, column, parent) ==>
                res.value.Idx? && res.value.row == row && res.value.column == column &&
                res.value.item.LeafItem? && row in root.childCache &&
                res.value.item.leaf == root.childCache[row] &&
                Data(res.value, TrivialUI.DisplayRole) == root.entries[row].1
      ensures HasIndex(row, column, parent) && row in old(root.childCache) ==>
                res.value.item == LeafItem(old(root.childCache)[row]) && root.childCache == old(root.childCache)
      ensures HasIndex(row, column, parent) && row !in old(root.childCache) ==>
                fresh(res.value.item.leaf) && root.childCache == old(root.childCache)[row := res.value.item.leaf]
    {
      if !HasIndex(row, column, parent) {
        return Ok(Invalid);
      }
      var q := Resolve(parent);
      var c := q.dict.ChildAt(row);
      res := Ok(Idx(row, column, LeafItem(c.value)));
    }
  }

  /** Every leaf reports the root, at row 0, as its parent: a valid index,
      although the rows were handed out under the invalid one. The root's
      own parent is invalid. */
  lemma ParentOfLeaf(m: DictModel, i: ModelIndex)
    requires m.Valid() && m.Handle(i) && i.Idx?
    ensures i.item.LeafItem? ==> m.Parent(i) == Idx(0, 0, DictItem(m.root))
    ensures i.item.DictItem? ==> m.Parent(i) == Invalid
  {
  }

  /** The tree is two levels deep: no index the model hands out below the
      root has rows. */
  lemma LeavesHaveNoRows(m: DictModel, i: ModelIndex)
    requires m.Valid() && m.Handle(i) && i.Idx? && i.item.LeafItem?
    ensures m.RowCount(i) == 0
    ensures forall r, c :: !m.HasIndex(r, c, i)
  {
  }
}
