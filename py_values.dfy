/** The slice of Python's data model that the tree adapters touch: the
    values they wrap, the exceptions they can raise, and Python's rules for
    `len()` and integer subscripting. */
module PyValues {

  /** The Python exceptions the adapters can raise. `NoChild` is the plain
      `Exception("No child")` of a leaf; `Unsupported` marks the nested-dict
      branch of the dictionary proxy, whose child is built with shifted
      constructor arguments and is not a working node. */
  datatype Error = IndexError | KeyError | TypeError | NoChild | Unsupported

  /** A call either returns a value or raises. */
  datatype Outcome<+T> = Ok(value: T) | Raised(error: Error)

  /** Python values. A dict keeps its entries in enumeration order (an
      ordered mapping); its keys are strings. */
  datatype Val =
    | NoneVal
    | IntVal(i: int)
    | StrVal(s: string)
    | TupleVal(items: seq<Val>)
    | ListVal(items: seq<Val>)
    | DictVal(entries: seq<(string, Val)>)
  {
    /** A tuple or a list: `len()` and integer subscripts work on its items. */
    predicate IsSeq() {
      TupleVal? || ListVal?
    }

    /** Python's `len()` is defined (it raises `TypeError` otherwise). */
    predicate HasLen() {
      IsSeq() || StrVal? || DictVal?
    }

    /** Python's `len()`. */
    function Len(): (n: nat)
      requires HasLen()
      ensures IsSeq() ==> n == |items|
      ensures StrVal? ==> n == |s|
      ensures DictVal? ==> n == |entries|
    {
      match this
      case TupleVal(xs) => |xs|
      case ListVal(xs) => |xs|
      case StrVal(t) => |t|
      case DictVal(es) => |es|
    }
  }

  /** Python's `xs[i]` on a list: a negative `i` counts from the end, and
      anything outside `-len .. len-1` raises `IndexError`. */
  function PyIndex<T>(xs: seq<T>, i: int): (r: Outcome<T>)
    ensures r.Ok? <==> -|xs| <= i < |xs|
    ensures r.Ok? ==> r.value == xs[if i < 0 then i + |xs| else i]
    ensures r.Raised? ==> r.error == IndexError
  {
    if 0 <= i < |xs| then Ok(xs[i])
    else if -|xs| <= i < 0 then Ok(xs[|xs| + i])
    else Raised(IndexError)
  }

  /** Python's `v[i]` for an integer `i`: tuples and lists index their items,
      a string yields a one-character string, a dict with string keys raises
      `KeyError`, and `None` or an int raises `TypeError`. */
  function Subscript(v: Val, i: int): (r: Outcome<Val>)
    ensures !v.HasLen() ==> r == Raised(TypeError)
    ensures v.DictVal? ==> r == Raised(KeyError)
    ensures v.IsSeq() || v.StrVal? ==>
              (r.Ok? <==> -(v.Len() as int) <= i < v.Len()) &&
              (r.Raised? ==> r.error == IndexError)
    ensures v.IsSeq() && 0 <= i < v.Len() ==> r == Ok(v.items[i])
  {
    match v
    case TupleVal(xs) => PyIndex(xs, i)
    case ListVal(xs) => PyIndex(xs, i)
    case StrVal(t) =>
      (match PyIndex(t, i)
       case Ok(c) => Ok(StrVal([c]))
       case Raised(e) => Raised(e))
    case DictVal(_) => Raised(KeyError)
    case NoneVal => Raised(TypeError)
    case IntVal(_) => Raised(TypeError)
  }

  /** Python's `max(a, b)` on ints. */
  function Max(a: int, b: int): (m: int)
    ensures a <= m && b <= m && (m == a || m == b)
  {
    if b > a then b else a
  }
}
