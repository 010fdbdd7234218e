/** The lazy, memoising proxy tree of the package `TrivialUI` and the
    hierarchical model on top of it (`GenericModel`, `DictModel`,
    `ListModel`). Proxies are heap objects, because the host framework uses
    the identity of a proxy as the handle of a tree position, and each
    internal proxy fills its child cache in place. */
module TrivialUI {
  import opened PyValues

  /** The three proxy classes: `DictProxy`, `ListProxy` and `LeafProxy`. */
  datatype Kind = DictNode | ListNode | LeafNode

  /** Everything a proxy is built from, apart from its parent. A leaf has
      no row of its own; its `row` is 0 and unused. */
  datatype Shape = Shape(kind: Kind, key: Val, clickTarget: Val, data: Val, row: int)

  /** An internal proxy wraps data its own class can count and index. */
  predicate ShapeOk(s: Shape) {
    (s.kind == DictNode ==> s.data.DictVal?) &&
    (s.kind == ListNode ==> s.data.IsSeq())
  }

  /** A list entry that `ListProxy.makeChild` expands into a subtree:
      three items, the third of them a list. */
  predicate IsSubtree(e: Val) {
    e.IsSeq() && |e.items| == 3 && e.items[2].ListVal?
  }

  /** `DictProxy.makeChild`: the row-th entry in enumeration order. A
      nested dict is passed to the `DictProxy` constructor with its
      arguments shifted by one place, so the child is not a working node;
      the model reports that branch as `Unsupported`. */
  function DictChildShape(data: Val, row: int): (r: Outcome<Shape>)
    requires data.DictVal?
    ensures 0 <= row < |data.entries| && !data.entries[row].1.DictVal? ==>
              r == Ok(Shape(LeafNode, StrVal(data.entries[row].0), NoneVal, data.entries[row].1, 0))
    ensures 0 <= row < |data.entries| && data.entries[row].1.DictVal? ==> r == Raised(Unsupported)
    ensures !(-|data.entries| <= row < |data.entries|) ==> r == Raised(IndexError)
  {
    match PyIndex(data.entries, row)
    case Raised(e) => Raised(e)
    case Ok(entry) =>
      if entry.1.DictVal? then Raised(Unsupported)
      else Ok(Shape(LeafNode, StrVal(entry.0), NoneVal, entry.1, 0))
  }

  /** `ListProxy.makeChild`: a subtree entry becomes a `ListProxy` built
      without a row (so its row is the default 0); any other entry becomes
      a leaf whose key, click target and data are the entry itself. */
  function ListChildShape(data: Val, row: int): (r: Outcome<Shape>)
    requires data.IsSeq()
    ensures 0 <= row < |data.items| && IsSubtree(data.items[row]) ==>
              var e := data.items[row];
              r == Ok(Shape(ListNode, e.items[0], e.items[1], e.items[2], 0))
    ensures 0 <= row < |data.items| && data.items[row].HasLen() && !data.items[row].DictVal? &&
            !IsSubtree(data.items[row]) ==>
              var e := data.items[row];
              r == Ok(Shape(LeafNode, e, e, e, 0))
    ensures 0 <= row < |data.items| && !data.items[row].HasLen() ==> r == Raised(TypeError)
    ensures 0 <= row < |data.items| && data.items[row].DictVal? ==>
              var e := data.items[row];
              r == if |e.entries| == 3 then Raised(KeyError) else Ok(Shape(LeafNode, e, e, e, 0))
    ensures !(-|data.items| <= row < |data.items|) ==> r == Raised(IndexError)
  {
    match PyIndex(data.items, row)
    case Raised(err) => Raised(err)
    case Ok(e) =>
      if !e.HasLen() then Raised(TypeError)               // len() of a scalar
      else if e.DictVal? && e.Len() == 3 then Raised(KeyError)  // e[2] on a dict
      else if IsSubtree(e) then Ok(Shape(ListNode, e.items[0], e.items[1], e.items[2], 0))
      else Ok(Shape(LeafNode, e, e, e, 0))
  }

  /** What `childAt` builds for a row that is not cached yet: the
      class-specific `makeChild`, and on a leaf the exception of
      `LeafProxy.childAt`. */
  function ChildShape(s: Shape, row: int): (r: Outcome<Shape>)
    requires ShapeOk(s)
    ensures s.kind == LeafNode ==> r == Raised(NoChild)
    ensures r.Ok? ==> ShapeOk(r.value) && r.value.kind != DictNode && r.value.row == 0
    ensures r.Ok? ==> -(s.data.Len() as int) <= row < s.data.Len()
    ensures s.kind != LeafNode && !(-(s.data.Len() as int) <= row < s.data.Len()) ==> r == Raised(IndexError)
  {
    match s.kind
    case LeafNode => Raised(NoChild)
    case DictNode => DictChildShape(s.data, row)
    case ListNode => ListChildShape(s.data, row)
  }

  /** Python's negative subscripts reach the same entry as `row + n`, yet
      the cache keys differ, so `childAt(-1)` and `childAt(n - 1)` build
      two distinct proxies of one entry. */
  lemma NegativeRowAliases(s: Shape, row: int)
    requires ShapeOk(s) && s.kind != LeafNode && 0 <= row < s.data.Len()
    ensures ChildShape(s, row - s.data.Len()) == ChildShape(s, row)
  {
  }

  // ---------------------------------------------------------------- proxies

  /** A `DictProxy`, `ListProxy` or `LeafProxy`, told apart by `kind`.
      Only the child cache changes after construction. */
  class Proxy {
    const kind: Kind
    const key: Val
    const clickTarget: Val
    const data: Val
    const parent: Proxy?
    const row: int
    var childCache: map<int, Proxy>

    constructor (kind: Kind, key: Val, clickTarget: Val, data: Val, parent: Proxy?, row: int)
      requires ShapeOk(Shape(kind, key, clickTarget, data, row))
      ensures ShapeOf() == Shape(kind, key, clickTarget, data, row)
      ensures this.parent == parent && childCache == map[]
    {
      this.kind := kind;
      this.key := key;
      this.clickTarget := clickTarget;
      this.data := data;
      this.parent := parent;
      this.row := row;
      this.childCache := map[];
    }

    function ShapeOf(): Shape {
      Shape(kind, key, clickTarget, data, row)
    }

    predicate Shaped() {
      ShapeOk(ShapeOf())
    }

    /** `childCount`: the number of entries of an internal proxy, 0 for a leaf. */
    function ChildCount(): (n: nat)
      requires Shaped()
      ensures kind == LeafNode ==> n == 0
      ensures kind == DictNode ==> n == |data.entries|
      ensures kind == ListNode ==> n == |data.items|
    {
      if kind == LeafNode then 0 else data.Len()
    }

    /** `hasChild`: a length check that never looks at the cache. */
    function HasChild(r: int): (b: bool)
      requires Shaped()
      ensures kind == LeafNode ==> !b
      ensures kind != LeafNode ==> (b <==> r < ChildCount())
    {
      kind != LeafNode && r < data.Len()
    }

    /** Every cached child is what `ChildShape` builds for its row, with
        this proxy as parent, and distinct rows hold distinct proxies. A
        leaf caches nothing, since `ChildShape` raises for it. */
    ghost predicate Valid()
      reads this
    {
      Shaped() &&
      (forall k | k in childCache ::
         ChildShape(ShapeOf(), k) == Ok(childCache[k].ShapeOf()) && childCache[k].parent == this) &&
      (forall j, k | j in childCache && k in childCache && j != k :: childCache[j] != childCache[k])
    }

    /** `makeChild`: allocate the proxy `ChildShape` describes. */
    method MakeChild(r: int) returns (res: Outcome<Proxy>)
      requires Shaped() && kind != LeafNode
      ensures match ChildShape(ShapeOf(), r)
              case Raised(e) => res == Raised(e)
              case Ok(s) =>
                res.Ok? && fresh(res.value) && res.value.ShapeOf() == s &&
                res.value.parent == this && res.value.childCache == map[]
    {
      var shape := ChildShape(ShapeOf(), r);
      match shape
      case Raised(e) =>
        res := Raised(e);
      case Ok(s) =>
        var c := new Proxy(s.kind, s.key, s.clickTarget, s.data, this, s.row);
        res := Ok(c);
    }

    /** `childAt`: answer from the cache, or build the child, store it
        under `r` and return it. Only key `r` is ever added. */
    method ChildAt(r: int) returns (res: Outcome<Proxy>)
      requires Valid()
      modifies this
      ensures Valid()
      ensures kind == LeafNode ==> res == Raised(NoChild)
      ensures r in old(childCache) ==> res == Ok(old(childCache)[r])
      ensures kind != LeafNode && r !in old(childCache) ==>
                match ChildShape(ShapeOf(), r)
                case Raised(e) => res == Raised(e)
                case Ok(s) =>
                  res.Ok? && fresh(res.value) && res.value.ShapeOf() == s &&
                  res.value.parent == this && res.value.childCache == map[]
      ensures childCache == if res.Ok? then old(childCache)[r := res.value] else old(childCache)
    {
      if kind == LeafNode {
        res := Raised(NoChild);
      } else if r in childCache {
        res := Ok(childCache[r]);
        assert childCache[r := res.value] == childCache;
      } else {
        res := MakeChild(r);
        if res.Ok? {
          childCache := childCache[r := res.value];
        }
      }
    }
  }

  /** `nodes` holds every proxy materialised below `top`: each is valid,
      its cached children are in `nodes`, and each one but `top` sits in
      its parent's cache. */
  ghost predicate Closed(nodes: set<Proxy>, top: Proxy)
    reads nodes
  {
    top in nodes &&
    forall n | n in nodes ::
      n.Valid() && CachedIn(n.childCache, nodes) &&
      (n != top ==> n.parent != null && n.parent in nodes && BuiltBy(n, n.parent))
  }

  /** Every proxy of the cache `m` is in `nodes`. */
  ghost predicate CachedIn(m: map<int, Proxy>, nodes: set<Proxy>) {
    forall k | k in m :: m[k] in nodes
  }

  /** `c` is what `makeChild` of `p` builds for some row. */
  ghost predicate BuiltBy(c: Proxy, p: Proxy) {
    p.Shaped() && exists k :: ChildShape(p.ShapeOf(), k) == Ok(c.ShapeOf())
  }

  /** `Closed` while the new child `extra` is not yet accounted for. */
  ghost predicate ClosedBut(nodes: set<Proxy>, top: Proxy, extra: Proxy)
    reads nodes
  {
    top in nodes &&
    forall n | n in nodes ::
      n.Valid() && CachedIn(n.childCache, nodes + {extra}) &&
      (n != top ==> n.parent != null && n.parent in nodes && BuiltBy(n, n.parent))
  }

  /** `Closed` with the proxy `q` set aside: what `childAt` on `q` cannot
      disturb, since it reads nothing of `q`. */
  ghost predicate ClosedAround(nodes: set<Proxy>, top: Proxy, q: Proxy)
    reads nodes - {q}
  {
    forall n | n in nodes ::
      (n != q ==> n.Valid() && CachedIn(n.childCache, nodes)) &&
      (n != top ==> n.parent != null && n.parent in nodes && BuiltBy(n, n.parent))
  }

  lemma SetAside(nodes: set<Proxy>, top: Proxy, q: Proxy)
    requires Closed(nodes, top) && q in nodes
    ensures ClosedAround(nodes, top, q) && CachedIn(q.childCache, nodes)
  {
  }

  /** After `childAt` on `q` returned `c`, the tree is closed up to `c`. */
  lemma PutBack(nodes: set<Proxy>, top: Proxy, q: Proxy, c: Proxy)
    requires top in nodes && q in nodes && ClosedAround(nodes, top, q)
    requires q.Valid() && CachedIn(q.childCache, nodes + {c})
    ensures ClosedBut(nodes, top, c)
  {
  }

  /** After `childAt(row)` on `q` returned `c` (cached, or freshly built
      with an empty cache), the tree with `c` is closed again. */
  lemma Absorb(nodes: set<Proxy>, top: Proxy, q: Proxy, c: Proxy, row: int, cache: map<int, Proxy>)
    requires top in nodes && q in nodes && ClosedAround(nodes, top, q) && CachedIn(cache, nodes)
    requires q.Valid() && q.childCache == cache[row := c]
    requires row in cache ==> c == cache[row]
    requires row !in cache ==>
               c.Shaped() && c.childCache == map[] && c.parent == q &&
               ChildShape(q.ShapeOf(), row) == Ok(c.ShapeOf())
    ensures Closed(nodes + {c}, top)
  {
  }

  /** Every list proxy of `ms` other than `except` has every row cached:
      the state the column walk leaves behind. */
  ghost predicate FullyCached(ms: set<Proxy>, except: Proxy)
    reads ms - {except}
  {
    forall m | m in ms && m != except && m.kind == ListNode && m.data.IsSeq() ::
      forall k :: k in m.childCache <==> 0 <= k < |m.data.items|
  }

  /** The closed, fully cached subtree the walk built below the new child
      `c` of `top` joins the tree built so far. */
  lemma JoinWalked(ms: set<Proxy>, top: Proxy, sub: set<Proxy>, c: Proxy)
    requires ClosedBut(ms, top, c) && Closed(sub, c) && top !in sub
    requires c.parent == top && BuiltBy(c, top)
    requires FullyCached(ms, top) && FullyCached(sub, c)
    requires c.kind == ListNode && c.data.IsSeq() ==> forall k :: k in c.childCache <==> 0 <= k < |c.data.items|
    ensures Closed(ms + sub, top) && FullyCached(ms + sub, top)
  {
  }

  // ------------------------------------------------------- nested-list data

  /** Data a `ListModel` can be built from without an exception: every
      entry, at every depth, has a `len()`, no entry is a dict of three
      entries (its `e[2]` raises `KeyError`), and subtrees nest such lists. */
  predicate ListData(d: Val)
    decreases d
  {
    d.IsSeq() && forall i | 0 <= i < |d.items| :: ListEntry(d.items[i])
  }

  predicate ListEntry(e: Val)
    decreases e
  {
    e.HasLen() && !(e.DictVal? && |e.entries| == 3) &&
    (IsSubtree(e) ==> ListData(e.items[2]))
  }

  /** List data is exactly data on which `makeChild` succeeds for every
      row, at every depth of the subtrees it builds. */
  lemma ListDataBuildable(d: Val)
    ensures ListData(d) <==>
              d.IsSeq() &&
              forall i | 0 <= i < |d.items| ::
                ListChildShape(d, i).Ok? &&
                (ListChildShape(d, i).value.kind == ListNode ==> ListData(ListChildShape(d, i).value.data))
  {
    if d.IsSeq() {
      forall i | 0 <= i < |d.items|
        ensures ListEntry(d.items[i]) <==>
                  ListChildShape(d, i).Ok? &&
                  (ListChildShape(d, i).value.kind == ListNode ==> ListData(ListChildShape(d, i).value.data))
      {
        var e := d.items[i];
        if IsSubtree(e) {
          assert ListChildShape(d, i) == Ok(Shape(ListNode, e.items[0], e.items[1], e.items[2], 0));
        }
      }
    }
  }

  /** A proxy of a list model: a list node over list data, or a leaf over an entry. */
  predicate ListShape(s: Shape) {
    (s.kind == ListNode && ListData(s.data)) || (s.kind == LeafNode && ListEntry(s.data))
  }

  /** Every row of a list node over well-formed data builds a list-model proxy. */
  lemma ListChildOk(s: Shape, row: int)
    requires ListShape(s) && s.kind == ListNode && 0 <= row < |s.data.items|
    ensures ChildShape(s, row).Ok? && ListShape(ChildShape(s, row).value)
    ensures ShapeColumns(ChildShape(s, row).value) == EntryColumns(s.data.items[row])
    ensures ChildShape(s, row).value.data < s.data
  {
    var e := s.data.items[row];
    assert ListEntry(e);
    if IsSubtree(e) {
      assert e.items[2] < e;
    }
  }

  // ---------------------------------------------------------------- columns

  /** The width `_find_num_columns` gives an entry: a leaf is as wide as
      its `len()`, a subtree as wide as its widest child. */
  function EntryColumns(e: Val): (n: int)
    requires ListEntry(e)
    ensures n >= 0
    decreases e, 2, 0
  {
    if IsSubtree(e) then NodeColumns(e.items[2]) else e.Len()
  }

  /** The width of a list node: the widest of its entries, or 1 when empty. */
  function NodeColumns(d: Val): (n: int)
    requires ListData(d)
    ensures n >= 0
    decreases d, 1, 0
  {
    if |d.items| == 0 then 1 else MaxColumns(d, |d.items|)
  }

  /** `max` over the widths of the first `k` entries. */
  function MaxColumns(d: Val, k: nat): (n: int)
    requires ListData(d) && 1 <= k <= |d.items|
    ensures n >= 0
    decreases d, 0, k
  {
    if k == 1 then EntryColumns(d.items[0])
    else Max(MaxColumns(d, k - 1), EntryColumns(d.items[k - 1]))
  }

  /** The width of a list-model proxy. */
  function ShapeColumns(s: Shape): (n: int)
    requires ListShape(s)
    ensures n >= 0
  {
    if s.kind == LeafNode then s.data.Len() else NodeColumns(s.data)
  }

  lemma {:induction false} MaxColumnsBound(d: Val, k: nat, j: nat)
    requires ListData(d) && 1 <= k <= |d.items| && j < k
    ensures EntryColumns(d.items[j]) <= MaxColumns(d, k)
  {
    if k > 1 && j < k - 1 {
      MaxColumnsBound(d, k - 1, j);
    }
  }

  lemma {:induction false} MaxColumnsAttained(d: Val, k: nat) returns (j: nat)
    requires ListData(d) && 1 <= k <= |d.items|
    ensures j < k && EntryColumns(d.items[j]) == MaxColumns(d, k)
  {
    if k == 1 {
      j := 0;
    } else {
      var i := MaxColumnsAttained(d, k - 1);
      j := if MaxColumns(d, k) == MaxColumns(d, k - 1) then i else k - 1;
    }
  }

  /** A list node is exactly as wide as its widest entry, and 1 wide when empty. */
  lemma NodeColumnsIsMax(d: Val)
    requires ListData(d)
    ensures |d.items| == 0 ==> NodeColumns(d) == 1
    ensures forall j | 0 <= j < |d.items| :: EntryColumns(d.items[j]) <= NodeColumns(d)
    ensures |d.items| > 0 ==> exists j | 0 <= j < |d.items| :: EntryColumns(d.items[j]) == NodeColumns(d)
  {
    if |d.items| > 0 {
      forall j | 0 <= j < |d.items| ensures EntryColumns(d.items[j]) <= NodeColumns(d) {
        MaxColumnsBound(d, |d.items|, j);
      }
      var w := MaxColumnsAttained(d, |d.items|);
    }
  }

  /** Every leaf entry, at any depth below `d`, is at most `n` wide. */
  ghost predicate LeavesFit(d: Val, n: int)
    decreases d
  {
    d.IsSeq() &&
    forall i | 0 <= i < |d.items| ::
      (IsSubtree(d.items[i]) ==> LeavesFit(d.items[i].items[2], n)) &&
      (!IsSubtree(d.items[i]) && d.items[i].HasLen() ==> d.items[i].Len() <= n)
  }

  lemma {:induction false} LeavesFitMonotone(d: Val, a: int, b: int)
    requires ListData(d) && LeavesFit(d, a) && a <= b
    ensures LeavesFit(d, b)
    decreases d
  {
    forall i | 0 <= i < |d.items|
      ensures IsSubtree(d.items[i]) ==> LeavesFit(d.items[i].items[2], b)
      ensures !IsSubtree(d.items[i]) && d.items[i].HasLen() ==> d.items[i].Len() <= b
    {
      var e := d.items[i];
      assert ListEntry(e);
      if IsSubtree(e) {
        assert e.items[2] < e;
        LeavesFitMonotone(e.items[2], a, b);
      }
    }
  }

  /** The column count of a list model leaves no item of any leaf, at any
      depth, outside the displayed columns. */
  lemma {:induction false} AllLeavesFit(d: Val)
    requires ListData(d)
    ensures LeavesFit(d, NodeColumns(d))
    decreases d
  {
    NodeColumnsIsMax(d);
    forall i | 0 <= i < |d.items|
      ensures IsSubtree(d.items[i]) ==> LeavesFit(d.items[i].items[2], NodeColumns(d))
      ensures !IsSubtree(d.items[i]) && d.items[i].HasLen() ==> d.items[i].Len() <= NodeColumns(d)
    {
      var e := d.items[i];
      assert ListEntry(e);
      assert EntryColumns(e) <= NodeColumns(d);
      if IsSubtree(e) {
        assert e.items[2] < e;
        AllLeavesFit(e.items[2]);
        LeavesFitMonotone(e.items[2], NodeColumns(e.items[2]), NodeColumns(d));
      }
    }
  }

  // ------------------------------------------------------------ cell values

  /** Qt's `DisplayRole`. */
  const DisplayRole := 0

  /** The display value of a proxy in a column (`GenericModel.data` past
      its validity and role checks). A leaf shows `data[column]`; only
      `IndexError` is caught, and becomes `""`. An internal proxy shows
      its key in column 0 and its raw data elsewhere. */
  function Display(s: Shape, column: int): (r: Outcome<Val>)
    ensures s.kind == LeafNode && s.data.IsSeq() && 0 <= column ==>
              r == Ok(if column < |s.data.items| then s.data.items[column] else StrVal(""))
    ensures s.kind == LeafNode && s.data.StrVal? && 0 <= column ==>
              r == Ok(if column < |s.data.s| then StrVal([s.data.s[column]]) else StrVal(""))
    ensures s.kind == LeafNode && !s.data.HasLen() ==> r == Raised(TypeError)
    ensures s.kind == LeafNode && s.data.DictVal? ==> r == Raised(KeyError)
    ensures s.kind != LeafNode ==> r == Ok(if column == 0 then s.key else s.data)
  {
    if s.kind == LeafNode then
      match Subscript(s.data, column)
      case Raised(IndexError) => Ok(StrVal(""))
      case other => other
    else if column == 0 then Ok(s.key)
    else Ok(s.data)
  }

  /** Column 0 of the row-th row under a list node shows the first item of
      the row-th entry, whether the entry became a subtree (its label) or
      a leaf (`data[0]`). */
  lemma ListColumnZeroIsFirstItem(s: Shape, row: int)
    requires ListShape(s) && s.kind == ListNode && 0 <= row < |s.data.items|
    requires s.data.items[row].IsSeq() && |s.data.items[row].items| > 0
    ensures ChildShape(s, row).Ok?
    ensures Display(ChildShape(s, row).value, 0) == Ok(s.data.items[row].items[0])
  {
  }

  /** A leaf entry of a list node shows each of its items, in a column that
      lies inside the node's column count, and `""` past its own width. */
  lemma ListLeafShownInFull(s: Shape, row: int, column: int)
    requires ListShape(s) && s.kind == ListNode && 0 <= row < |s.data.items| && 0 <= column
    requires s.data.items[row].IsSeq() && !IsSubtree(s.data.items[row])
    ensures ChildShape(s, row).Ok?
    ensures column < |s.data.items[row].items| ==>
              column < NodeColumns(s.data) &&
              Display(ChildShape(s, row).value, column) == Ok(s.data.items[row].items[column])
    ensures column >= |s.data.items[row].items| ==>
              Display(ChildShape(s, row).value, column) == Ok(StrVal(""))
  {
    ListChildOk(s, row);
    NodeColumnsIsMax(s.data);
    assert EntryColumns(s.data.items[row]) == |s.data.items[row].items|;
  }

  /** A leaf of a dict model wraps the entry's value, and a scalar value
      cannot be subscripted: `data` raises `TypeError` for it in every
      column, the key column included. */
  lemma DictScalarLeafRaises(s: Shape, row: int, column: int)
    requires ShapeOk(s) && s.kind == DictNode && 0 <= row < |s.data.entries|
    requires !s.data.entries[row].1.HasLen()
    ensures ChildShape(s, row).Ok?
    ensures Display(ChildShape(s, row).value, column) == Raised(TypeError)
  {
  }

  /** A nested dict below a dict model is not reachable as a working node. */
  lemma NestedDictUnsupported(s: Shape, row: int)
    requires ShapeOk(s) && s.kind == DictNode && 0 <= row < |s.data.entries|
    requires s.data.entries[row].1.DictVal?
    ensures ChildShape(s, row) == Raised(Unsupported)
  {
  }

  // ------------------------------------------------------------------ model

  /** Qt's `QModelIndex`: invalid, or a row, a column and a proxy. */
  datatype ModelIndex = Invalid | Idx(row: int, column: int, node: Proxy) {
    /** An invalid index reports column -1. */
    function Column(): int {
      if Invalid? then -1 else column
    }
  }

  /** `DictModel` has two columns; `ListModel` fixes its count at construction. */
  datatype ModelKind = DictModel | ListModel(numColumns: int)

  /** `GenericModel` with its two subclasses. `nodes` is the set of proxies
      materialised so far. */
  class Model {
    const kind: ModelKind
    const root: Proxy
    ghost var nodes: set<Proxy>

    ghost predicate Valid()
      reads this, nodes
    {
      Closed(nodes, root) && root.parent == null && root.row == 0 &&
      (kind == DictModel ==> root.kind == DictNode) &&
      (kind.ListModel? ==> root.kind == ListNode && forall n | n in nodes :: ListShape(n.ShapeOf()))
    }

    /** An index this model handed out: invalid, or over a materialised proxy. */
    ghost predicate Handle(i: ModelIndex)
      reads this
    {
      i.Invalid? || i.node in nodes
    }

    /** `DictModel(data)`: the root is `DictProxy('', None, data)`. */
    constructor FromDict(data: Val)
      requires data.DictVal?
      ensures Valid() && kind == DictModel && fresh(nodes) && nodes == {root}
      ensures root.ShapeOf() == Shape(DictNode, StrVal(""), NoneVal, data, 0) && root.childCache == map[]
    {
      var r := new Proxy(DictNode, StrVal(""), NoneVal, data, null, 0);
      kind := DictModel;
      root := r;
      nodes := {r};
    }

    /** `ListModel(data)`: the root is `ListProxy('', data, data)`, and the
        column count is found by a walk that materialises the whole tree. */
    constructor FromList(data: Val)
      requires ListData(data)
      ensures Valid() && kind == ListModel(NodeColumns(data)) && fresh(nodes)
      ensures root.ShapeOf() == Shape(ListNode, StrVal(""), data, data, 0)
      ensures forall k :: k in root.childCache <==> 0 <= k < |data.items|
      ensures FullyCached(nodes, root)
    {
      var r := new Proxy(ListNode, StrVal(""), data, data, null, 0);
      var n, made := FindNumColumns(r);
      kind := ListModel(n);
      root := r;
      nodes := made;
    }

    /** `_find_num_columns`: a leaf is `len(data)` wide, a non-empty list
        node as wide as its widest child (each child fetched through
        `childAt`, and so built), anything else 1 wide. Called on a fresh
        proxy, it returns the proxies it built. */
    static method FindNumColumns(p: Proxy) returns (n: int, ghost made: set<Proxy>)
      requires p.Valid() && p.childCache == map[] && ListShape(p.ShapeOf())
      modifies p
      decreases p.data, 1
      ensures n == ShapeColumns(p.ShapeOf())
      ensures Closed(made, p) && forall m | m in made :: ListShape(m.ShapeOf())
      ensures forall m | m in made && m != p :: fresh(m)
      ensures p.kind == ListNode ==> forall k :: k in p.childCache <==> 0 <= k < p.ChildCount()
      ensures FullyCached(made, p)
    {
      made := {p};
      if p.kind == LeafNode {
        n := p.data.Len();
        return;
      }
      var count := p.ChildCount();
      if count == 0 {
        n := 1;
        return;
      }
      n := 0;
      var i := 0;
      while i < count
        invariant 0 <= i <= count
        invariant p.Valid() && forall k :: k in p.childCache <==> 0 <= k < i
        invariant Closed(made, p) && forall m | m in made :: ListShape(m.ShapeOf())
        invariant forall m | m in made && m != p :: fresh(m)
        invariant i > 0 ==> n == MaxColumns(p.data, i)
        invariant FullyCached(made, p)
      {
        var w: int;
        w, made := WalkRow(p, i, made);
        n := if i == 0 then w else Max(n, w);
        i := i + 1;
      }
      assert n == MaxColumns(p.data, count);
    }

    /** One step of the walk: fetch row `i` of the list node `p` through
        `childAt`, walk the child, and add what was built to `made`. */
    static method WalkRow(p: Proxy, i: int, ghost made: set<Proxy>) returns (w: int, ghost made': set<Proxy>)
      requires p.Valid() && ListShape(p.ShapeOf()) && p.kind == ListNode && 0 <= i < |p.data.items|
      requires forall k :: k in p.childCache <==> 0 <= k < i
      requires Closed(made, p) && forall m | m in made :: ListShape(m.ShapeOf())
      requires FullyCached(made, p)
      modifies p
      decreases p.data, 0
      ensures w == EntryColumns(p.data.items[i])
      ensures p.Valid() && forall k :: k in p.childCache <==> 0 <= k < i + 1
      ensures Closed(made', p) && forall m | m in made' :: ListShape(m.ShapeOf())
      ensures made <= made' && forall m | m in made' && m !in made :: fresh(m)
      ensures FullyCached(made', p)
    {
      ListChildOk(p.ShapeOf(), i);
      SetAside(made, p, p);
      var res := p.ChildAt(i);
      var c := res.value;
      assert c !in made;
      PutBack(made, p, p, c);
      assert ChildShape(p.ShapeOf(), i) == Ok(c.ShapeOf());
      ghost var sub;
      w, sub := FindNumColumns(c);
      JoinWalked(made, p, sub, c);
      made' := made + sub;
    }

    function Resolve(i: ModelIndex): (p: Proxy)
      ensures i.Invalid? ==> p == root
      ensures i.Idx? ==> p == i.node
    {
      if i.Invalid? then root else i.node
    }

    /** `columnCount`: 2 for a dict model, the walked width for a list model. */
    function ColumnCount(parent: ModelIndex): (n: int)
      ensures kind == DictModel ==> n == 2
      ensures kind.ListModel? ==> n == kind.numColumns
    {
      match kind
      case DictModel => 2
      case ListModel(k) => k
    }

    /** `rowCount`: nothing below a non-first column; otherwise the child
        count of the root (for an invalid index) or of the index's proxy. */
    function RowCount(parent: ModelIndex): (n: int)
      requires Resolve(parent).Shaped()
      ensures parent.Column() > 0 ==> n == 0
      ensures parent.Column() <= 0 ==> n == Resolve(parent).ChildCount()
    {
      if parent.Column() > 0 then 0 else Resolve(parent).ChildCount()
    }

    /** Qt's `hasIndex`: both coordinates inside the counts of `parent`.
        Whenever it holds, the resolved parent has that child, so the
        second invalid branch of `index` is never taken. */
    predicate HasIndex(row: int, column: int, parent: ModelIndex)
      requires Resolve(parent).Shaped()
      ensures HasIndex(row, column, parent) ==>
                0 <= row && parent.Column() <= 0 && Resolve(parent).HasChild(row)
    {
      0 <= row && 0 <= column && row < RowCount(parent) && column < ColumnCount(parent)
    }

    /** `parent`: the proxy's own parent, at that parent's stored row. */
    function Parent(child: ModelIndex): (q: ModelIndex)
      ensures q.Invalid? <==> child.Invalid? || child.node.parent == null
      ensures q.Idx? ==> q.node == child.node.parent && q.row == child.node.parent.row && q.column == 0
    {
      if child.Invalid? || child.node.parent == null then Invalid
      else Idx(child.node.parent.row, 0, child.node.parent)
    }

    /** `data`: `None` for an invalid index or another role, else the
        proxy's display value in the index's column. */
    function Data(index: ModelIndex, role: int): (r: Outcome<Val>)
      ensures index.Invalid? || role != DisplayRole ==> r == Ok(NoneVal)
      ensures index.Idx? && role == DisplayRole ==> r == Display(index.node.ShapeOf(), index.column)
    {
      if index.Invalid? || role != DisplayRole then Ok(NoneVal)
      else Display(index.node.ShapeOf(), index.column)
    }

    /** `childAt(row)` on a materialised proxy that has that child, with
        the tree kept closed: the child joins `nodes`. */
    method Fetch(q: Proxy, row: int) returns (c: Outcome<Proxy>)
      requires Valid() && q in nodes && 0 <= row && q.HasChild(row)
      modifies this, nodes
      ensures Valid() && old(nodes) <= nodes && fresh(nodes - old(nodes))
      ensures forall n | n in old(nodes) && n != q :: n.childCache == old(n.childCache)
      ensures row in old(q.childCache) ==>
                c == Ok(old(q.childCache)[row]) && nodes == old(nodes) && q.childCache == old(q.childCache)
      ensures row !in old(q.childCache) ==>
                match ChildShape(q.ShapeOf(), row)
                case Raised(e) => c == Raised(e) && q.childCache == old(q.childCache)
                case Ok(s) =>
                  c.Ok? && fresh(c.value) && c.value.ShapeOf() == s &&
                  q.childCache == old(q.childCache)[row := c.value]
      ensures c.Ok? ==> c.value.parent == q && q.row == 0
      ensures kind.ListModel? ==> c.Ok?
    {
      if kind.ListModel? {
        ListChildOk(q.ShapeOf(), row);
      }
      SetAside(nodes, root, q);
      ghost var cache := q.childCache;
      c := q.ChildAt(row);
      if c.Ok? {
        Absorb(nodes, root, q, c.value, row, cache);
        nodes := nodes + {c.value};
        ParentOfChild(this, q, row, row, 0);
      }
    }

    /** `index`: invalid outside `hasIndex`; otherwise the resolved
        parent's `childAt(row)`, cached or newly built. A list model never
        raises here. */
    method Index(row: int, column: int, parent: ModelIndex) returns (res: Outcome<ModelIndex>)
      requires Valid() && Handle(parent)
      modifies this, nodes
      ensures Valid() && old(nodes) <= nodes && fresh(nodes - old(nodes)) && (res.Ok? ==> Handle(res.value))
      ensures forall n | n in old(nodes) && n != Resolve(parent) :: n.childCache == old(n.childCache)
      ensures !HasIndex(row, column, parent) ==>
                res == Ok(Invalid) && nodes == old(nodes) && Resolve(parent).childCache == old(Resolve(parent).childCache)
      ensures HasIndex(row, column, parent) && row in old(Resolve(parent).childCache) ==>
                res == Ok(Idx(row, column, old(Resolve(parent).childCache)[row])) &&
                nodes == old(nodes) && Resolve(parent).childCache == old(Resolve(parent).childCache)
      ensures HasIndex(row, column, parent) && row !in old(Resolve(parent).childCache) ==>
                match ChildShape(Resolve(parent).ShapeOf(), row)
                case Raised(e) =>
                  res == Raised(e) && Resolve(parent).childCache == old(Resolve(parent).childCache)
                case Ok(s) =>
                  res.Ok? && res.value.Idx? && res.value.row == row && res.value.column == column &&
                  fresh(res.value.node) && res.value.node.ShapeOf() == s &&
                  Resolve(parent).childCache == old(Resolve(parent).childCache)[row := res.value.node]
      ensures res.Ok? && res.value.Idx? ==> Parent(res.value) == Idx(0, 0, Resolve(parent))
      ensures kind.ListModel? ==> res.Ok?
    {
      var q := Resolve(parent);
      if !HasIndex(row, column, parent) {
        return Ok(Invalid);
      }
      var c := Fetch(q, row);
      res := if c.Ok? then Ok(Idx(row, column, c.value)) else Raised(c.error);
    }
  }

  /** Every materialised proxy has row 0 (the root by construction, the
      others because neither `makeChild` passes a row that arrives), so
      `parent` always answers at row 0, and the parent of a top-level row
      is the valid index (0, 0, root) rather than an invalid one. */
  lemma ParentOfChild(m: Model, q: Proxy, k: int, row: int, column: int)
    requires m.Valid() && q in m.nodes && k in q.childCache
    ensures m.Parent(Idx(row, column, q.childCache[k])) == Idx(0, 0, q)
    ensures q == m.root ==> m.Parent(Idx(row, column, q.childCache[k])).Idx?
  {
    var c := q.childCache[k];
    assert q.Valid();
    assert c.parent == q;
    if q != m.root {
      assert BuiltBy(q, q.parent);
      var j :| ChildShape(q.parent.ShapeOf(), j) == Ok(q.ShapeOf());
    }
  }

  /** `parent` never leaves the materialised tree, and it is invalid
      exactly for the invalid index and for the root. */
  lemma ParentOfHandle(m: Model, i: ModelIndex)
    requires m.Valid() && m.Handle(i)
    ensures m.Handle(m.Parent(i))
    ensures m.Parent(i).Invalid? <==> (i.Invalid? || i.node == m.root)
    ensures m.Parent(i).Idx? ==> BuiltBy(i.node, m.Parent(i).node)
  {
  }
}
