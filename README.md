# TrivialUI, modelled in Dafny

TrivialUI shows plain Python data (a dict, or nested lists of tuples) as a
tree widget. It does so through an adapter that answers the host
framework's hierarchical item-model queries. Answering them means navigating
the data through a
tree of *proxies*. A proxy wraps one piece of data and builds its children
lazily. It then caches each child by row, so the same proxy object (whose
identity is the framework's handle for a tree position) comes back on every
later query.

This project models that core.

- `py_values.dfy` (module `PyValues`) covers what the adapters need from
  Python:
  - the values they wrap;
  - the exceptions they can raise, which appear as an `Outcome` (`Ok` or
    `Raised`);
  - `len()`;
  - integer subscripting with negative indices.
- `trivial_ui.dfy` (module `TrivialUI`) models the package
  `TrivialUI/__init__.py`:
  - the three proxy classes, as one `Proxy` class with a `kind` tag, whose
    child cache is updated in place;
  - what each class's `makeChild` builds, as pure functions over a `Shape`;
  - the model class `Model`, standing for `DictModel` and `ListModel`. Its
    ghost set `nodes` holds every proxy materialised so far, and its
    invariant `Valid` is kept by `Index` and by the column walk of the
    `ListModel` constructor;
  - proofs about column widths, about what a cell displays, and about what
    `parent` answers.
- `trivial_ui_legacy.dfy` (module `TrivialUILegacy`) models the older
  single-file `TrivialUI.py`: a dictionary shown as root and leaves.
- `scenarios.dfy` (module `Scenarios`) replays, as methods with
  postconditions, the repository's list-model and dict-model tests and the
  demo window's dictionary.

Behaviour modelled as the code has it, including its quirks:

- A nested dict under a dict model is passed to the `DictProxy` constructor
  with its arguments shifted by one place (`TrivialUI/__init__.py:57`). The
  resulting child is not a working node, and the model reports the branch as
  `Raised(Unsupported)`. A dict of dicts therefore never exposes its inner
  entries.
- A nested `ListProxy` is built without a row and so gets row 0. Every
  internal proxy therefore has row 0. A leaf proxy has no row at all; the
  model stores 0 for it and never reads it.
- The parent of a top-level node is the root proxy, not `None`. So `parent`
  returns the *valid* index (0, 0, root) for a top-level row, and
  (0, 0, p) for any child of p. `parent` names the proxy that built the
  child, but always at row 0, so the row does not round-trip.
- `data` catches only `IndexError`. A `TypeError` (a scalar leaf) or a
  `KeyError` (a dict leaf) propagates.
- `hasChild` checks only the upper bound, and `childAt` uses Python's
  negative indexing. A negative row therefore builds a second proxy for an
  entry that already has one under its non-negative row.

## Model

| member | source | states |
|---|---|---|
| PyValues.PyIndex | TrivialUI/__init__.py:54-55 | `items[row]` succeeds exactly for `-len <= row < len`, yields the entry counted from the end for a negative row, and otherwise raises `IndexError` |
| PyValues.Val.Len | TrivialUI/__init__.py:33-34 | Python's `len()`: the number of items of a tuple or list, characters of a string, entries of a dict (also used at lines 31, 64 and 191) |
| PyValues.Max | TrivialUI/__init__.py:195-196 | the larger of two widths: at least each of them and equal to one of them, the step of the `max` fold |
| PyValues.Subscript | TrivialUI/__init__.py:147 | `data[column]`: a raise of `TypeError` without `len()`, `KeyError` on a string-keyed dict, and an in-range check for tuples, lists and strings |
| TrivialUI.DictChildShape | TrivialUI/__init__.py:53-59 | the row-th dict entry becomes a leaf keyed by its key and wrapping its value; a nested dict is `Unsupported`; rows outside the entries raise `IndexError` |
| TrivialUI.ListChildShape | TrivialUI/__init__.py:63-72 | a three-item entry whose third item is a list becomes a list node (label, click target, children, row 0); a dict entry raises `KeyError` when it has three entries (its `e[2]`) and becomes a leaf otherwise; any other entry with a length becomes a leaf that is key, click target and data at once; a scalar entry raises `TypeError`; out of range raises `IndexError` |
| TrivialUI.ChildShape | TrivialUI/__init__.py:53-72 | a leaf raises `NoChild`; a built child is never a dict node, is well-shaped, has row 0 and came from an in-range row |
| TrivialUI.NegativeRowAliases | TrivialUI/__init__.py:36-42 | row `r - n` builds the same child shape as row `r`, under a different cache key |
| TrivialUI.Proxy.constructor | TrivialUI/__init__.py:15-23 | the proxy holds the given fields and an empty child cache |
| TrivialUI.Proxy.ChildCount | TrivialUI/__init__.py:33-34 | the number of entries of the wrapped dict or list; 0 for a leaf |
| TrivialUI.Proxy.HasChild | TrivialUI/__init__.py:25-31 | false on a leaf; otherwise exactly `row < childCount()`, whatever the cache holds |
| TrivialUI.Proxy.MakeChild | TrivialUI/__init__.py:53-72 | allocates a fresh proxy of the shape `ChildShape` gives, with this proxy as its parent and an empty cache, or raises what `ChildShape` raises |
| TrivialUI.Proxy.ChildAt | TrivialUI/__init__.py:36-42 | a cached row returns the cached proxy; otherwise the child `makeChild` builds is stored under that row and no other; a failed build leaves the cache unchanged; the cache invariant is kept; a leaf raises `NoChild` |
| TrivialUI.ListChildOk | TrivialUI/__init__.py:63-72 | every row of well-formed list data builds a list-model proxy on strictly smaller data, whose width is that entry's width |
| TrivialUI.EntryColumns | TrivialUI/__init__.py:189-196 | the width `_find_num_columns` gives one entry (`len` for a leaf, the subtree's width otherwise), never negative |
| TrivialUI.NodeColumns | TrivialUI/__init__.py:194-198 | the width of a list node, the maximum over its entries or 1 when empty, never negative |
| TrivialUI.MaxColumns | TrivialUI/__init__.py:195-196 | `max` of the widths of the first k entries, never negative |
| TrivialUI.ShapeColumns | TrivialUI/__init__.py:189-198 | the width of a list-model proxy, leaf or node, never negative |
| TrivialUI.ListDataBuildable | TrivialUI/__init__.py:63-72 | the domain of a list model (`ListData`, with `ListEntry` for one entry) is exactly the data on which `makeChild` succeeds for every row at every depth of the subtrees it builds |
| TrivialUI.NodeColumnsIsMax | TrivialUI/__init__.py:194-198 | a list node is as wide as its widest entry, attained by some entry, and 1 wide when empty |
| TrivialUI.MaxColumnsBound | TrivialUI/__init__.py:195-196 | each of the first k entries is at most as wide as their maximum |
| TrivialUI.MaxColumnsAttained | TrivialUI/__init__.py:195-196 | the maximum over the first k entries is the width of one of them |
| TrivialUI.AllLeavesFit | TrivialUI/__init__.py:185-198 | the column count of a list model covers every item of every leaf at any depth |
| TrivialUI.LeavesFitMonotone | TrivialUI/__init__.py:185-198 | a column bound that covers all leaves keeps covering them when it grows |
| TrivialUI.Display | TrivialUI/__init__.py:144-154 | a leaf shows `data[column]`, or `""` past its width; `TypeError` and `KeyError` escape; an internal proxy shows its key in column 0 and its data elsewhere |
| TrivialUI.ListColumnZeroIsFirstItem | TrivialUI/__init__.py:145-152 | column 0 of a row whose entry is a non-empty tuple or list shows that entry's first item, for a subtree (its label) and for a leaf alike; dict, string and empty entries are covered by `Display` and `ListChildShape` |
| TrivialUI.ListLeafShownInFull | TrivialUI/__init__.py:145-149 | each item of a list leaf is displayed in its own column, which lies inside the node's column count; past the leaf's width the cell is `""` |
| TrivialUI.DictScalarLeafRaises | TrivialUI/__init__.py:145-149 | a scalar dict value makes `data` raise `TypeError` in every column |
| TrivialUI.NestedDictUnsupported | TrivialUI/__init__.py:56-57 | a nested dict row never yields a working child |
| TrivialUI.Model.FromDict | TrivialUI/__init__.py:158-162 | the root is a dict proxy with key `""` over the data, not yet expanded, and the model invariant holds |
| TrivialUI.Model.FromList | TrivialUI/__init__.py:179-183 | the root is a list proxy with key `""` and click target and data both the list; the column count is the walked width; every row of every list proxy, at every depth, is already cached |
| TrivialUI.Model.FindNumColumns | TrivialUI/__init__.py:185-198 | returns `len(data)` for a leaf, 1 for an empty list node, and the maximum over all children otherwise; every child is fetched through `childAt`, so on return every row of `p` and of every list proxy below it is cached; the proxies built are fresh and form a closed tree |
| TrivialUI.Model.WalkRow | TrivialUI/__init__.py:195-196 | one step of the walk: row `i` is fetched through `childAt` and walked; the result is that entry's width, rows up to `i` are cached, and the tree built so far stays closed and fully cached |
| TrivialUI.Model.Resolve | TrivialUI/__init__.py:104-107 | an invalid index stands for the root, a valid one for its own proxy (the same rule at lines 118-121) |
| TrivialUI.Model.ColumnCount | TrivialUI/__init__.py:164-165 | 2 for a dict model; for a list model the width walked at construction (lines 200-201) |
| TrivialUI.Model.RowCount | TrivialUI/__init__.py:114-122 | 0 below a non-first column; otherwise the child count of the root, for an invalid index, or of the index's proxy |
| TrivialUI.Model.HasIndex | TrivialUI/__init__.py:101 | inside the counts, the resolved parent is an internal proxy that has the row |
| TrivialUI.Model.Parent | TrivialUI/__init__.py:124-132 | invalid exactly for an invalid index or a parentless proxy; otherwise the parent at its stored row, column 0 |
| TrivialUI.Model.Data | TrivialUI/__init__.py:134-154 | `None` for an invalid index or another role, else the cell's display value |
| TrivialUI.Model.Fetch | TrivialUI/__init__.py:109-110 | `childAt` on a materialised proxy keeps the tree closed; a cached row reuses its proxy; a new proxy is fresh; only fresh proxies join `nodes`; a list model never raises |
| TrivialUI.Model.Index | TrivialUI/__init__.py:100-112 | invalid outside `hasIndex`; otherwise the cached proxy, or a fresh one of the shape `makeChild` gives, stored under the row; only fresh proxies join `nodes`, so later calls stay possible; other proxies' caches are untouched; its parent is (0, 0, the resolved parent); a list model never raises |
| TrivialUI.ParentOfChild | TrivialUI/__init__.py:124-132 | the parent index of any cached child is (0, 0, its proxy), valid for a top-level row |
| TrivialUI.ParentOfHandle | TrivialUI/__init__.py:124-132 | `parent` stays inside the materialised tree, is invalid exactly for an invalid index or the root, and names the proxy that built the child |
| TrivialUILegacy.LeafProxy.constructor | TrivialUI.py:33-35 | the leaf holds its data and parent |
| TrivialUILegacy.LeafProxy.ChildAt | TrivialUI.py:40-41 | always raises `NoChild` |
| TrivialUILegacy.DictProxy.constructor | TrivialUI.py:5-9 | holds the entries, parent and row, with an empty cache |
| TrivialUILegacy.DictProxy.ChildCount | TrivialUI.py:28-29 | the number of entries |
| TrivialUILegacy.DictProxy.HasChild | TrivialUI.py:11-17 | exactly `row < len(data)`, and such a row that is not below `-len` can be indexed |
| TrivialUILegacy.DictProxy.ChildAt | TrivialUI.py:19-26 | a cached row returns its leaf; otherwise a fresh leaf for the row-th value, parented here, is stored under that row; out of range raises `IndexError` |
| TrivialUILegacy.DictModel.constructor | TrivialUI.py:47-51 | the root is a fresh dict proxy over the data, without parent, at row 0 |
| TrivialUILegacy.DictModel.Resolve | TrivialUI.py:57-60 | an invalid index stands for the root, a valid one for its own proxy (the same rule at lines 84-87) |
| TrivialUILegacy.DictModel.ColumnCount | TrivialUI.py:77-78 | always 2 |
| TrivialUILegacy.DictModel.RowCount | TrivialUI.py:80-88 | 0 below a non-first column or for a leaf; the number of entries for the root |
| TrivialUILegacy.DictModel.HasIndex | TrivialUI.py:54 | holds exactly for a first-column or invalid parent resolving to the dict proxy, a row inside its entries and a column of 0 or 1 |
| TrivialUILegacy.DictModel.Parent | TrivialUI.py:67-75 | invalid exactly for an invalid index or a parentless proxy; otherwise the parent dict proxy at its row, column 0 |
| TrivialUILegacy.DictModel.Data | TrivialUI.py:90-98 | `None` for an invalid index or another role; otherwise a leaf's whole value, and for the root index the whole dict, in any column |
| TrivialUILegacy.DictModel.Index | TrivialUI.py:53-65 | never raises; invalid outside `hasIndex`; otherwise both columns of a row name the row's cached leaf, which shows the row's value |
| TrivialUILegacy.ParentOfLeaf | TrivialUI.py:67-75 | every leaf's parent is the valid index (0, 0, root), and the root's parent is invalid |
| TrivialUILegacy.LeavesHaveNoRows | TrivialUI.py:43-44 | a leaf index has no rows and admits no child index |
| Scenarios.ListModelTest | tests/TestTrivialUI.py:45-62 | two top-level rows and two columns; the first row shows "first" and has two rows, both already cached by the construction; the first of them has none and shows "one" |
| Scenarios.DictModelTest | tests/TestTrivialUI.py:33-41 | a dict of two dicts has two top-level rows, and its first row cannot be built as a working node |
| Scenarios.DictModelSameProxy | TrivialUI/__init__.py:36-42 | on a flat dict, asking twice for a cell yields the very proxy built the first time, and the row's other column names it too |
| Scenarios.LegacyDemo | TrivialUI.py:104 | `{'a': 1, 'b': 2, 'c': 3}` has three rows; row 1 shows 2 in both columns, both columns name one leaf, and its parent is the valid index (0, 0) |

## Left out

- The widgets and the framework's calls: the views, the main window, menus,
  and `set_on_clicked`. They are I/O.
- `NestedListTreeView.set_data` and `DictTreeView`: they only build a model
  and hand it to a view.
- Qt's index machinery is reduced to what the adapter uses. An index is
  invalid, or a row, a column and the proxy (`internalPointer`).
  `hasIndex` is written out from its documented meaning. Roles other than
  the display role appear only as "not the display role".
- TrivialUI.DictChildShape: the source does build and cache the child for a
  nested dict, with its arguments shifted; nothing of that broken node,
  which only fails when it is later queried, is modelled. The model raises
  `Unsupported` at once instead.
- TrivialUI.Model.FromList: requires list data (`ListData`). The root must
  be a tuple or a list. Every entry at every depth must have a `len()`, and
  none may be a dict of exactly three entries (its `e[2]` raises `KeyError`).
  An entry that breaks these rules makes the constructor's walk raise, and
  that raise is not modelled. Some other roots do not raise: a string root
  walks into one-character leaves and an empty dict root gives one column
  (lines 64, 182 and 194-198). Those roots are not modelled either. A non-empty
  dict root raises `KeyError` at line 64, `None` fails the assertion at
  line 16, and an int raises `TypeError` at line 194.
- TrivialUI.Model.FromDict: requires a dict. `DictModel(None)` already fails
  the assertion at line 16 (reached through line 162). On a list, tuple or
  string, `rowCount` still answers with its `len` (line 122), and only the
  first `index` raises `AttributeError`, at `.items()` (line 54). On an int,
  `rowCount` raises `TypeError`. None of these paths is modelled.
- TrivialUILegacy.DictModel.constructor: requires a dict. In `TrivialUI.py`
  the proxy has no assertion. On `None` or an int, `rowCount` raises
  `TypeError` (line 29, through line 88). On a list, tuple or string,
  `rowCount` answers and the first `index` raises `AttributeError` at
  `.items()` (line 23). These paths are not modelled.
- Dict keys are strings and dicts are ordered by enumeration. Subscripting a
  dict with an integer therefore always raises `KeyError`. Dicts with integer
  keys, and the nondeterministic key order of old Python dicts, are not
  modelled.
- `except AttributeError: return 1` in `_find_num_columns` is not modelled.
  Every leaf has a `data` attribute, so that branch cannot be reached.
- The legacy `LeafProxy.hasChild` and `LeafProxy.childCount` are folded into
  `TrivialUILegacy.DictModel.RowCount`, which answers 0 for a leaf. The
  `hasChild` test in `index` cannot fail after `hasIndex`.
- The generic `assert data is not None` in the proxy constructor: the root
  data is a dict or a list, and children wrap entries.
- TrivialUI.Model.Fetch requires a non-negative row because `index` calls it
  only after `hasIndex`. Negative rows are covered at the proxy level by
  `ChildAt` and `NegativeRowAliases`.
