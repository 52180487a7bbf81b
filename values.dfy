/**
 * The values that parsers return.
 *
 * In C# every parser has its own result type. The model uses one value domain for all of them.
 * Some results are functions: the expression builder passes Func<T, T>, Func<T, T, T> and
 * Partial<T> values from one parser to the next. Those closures are represented as data here:
 * UnFn, BinFn and Partial, and ApplyUn and ApplyBin are their application.
 * The user's operators are modelled as constructors of expression trees (VNode), so the shape
 * of a parsed expression can be checked structurally.
 */
module Values {
  datatype Value =
    | VUnit
    | VInt(i: int)
    | VChar(c: char)
    | VStr(s: string)
    | VList(items: seq<Value>)
    | VPair(fst: Value, snd: Value)
    | VNothing
    | VJust(just: Value)
    | VNode(op: string, args: seq<Value>)   // a tree node built by a user operator
    | VFun(f: UnFn)                           // a Func<T, T>
    | VFun2(g: BinFn)                         // a Func<T, T, T>
    | VPartial(p: Partial)                    // a Partial<T>

  /** Func<T, T, T>: a user's binary operator, or the hole `(y, _) => y`. */
  datatype BinFn = BinOp(name: string) | Hole

  /** Partial<T>: a binary function paired with its right-hand argument. */
  datatype Partial = Partial(func: BinFn, arg: Value)

  /** Func<T, T>. */
  datatype UnFn =
    | Identity                   // x => x
    | UnOp(name: string)         // a user's prefix or postfix operator
    | ApplyLeftOf(p: Partial)    // z => p.ApplyL(z)
    | LeftChain(fxs: seq<Partial>)  // the left-associative selector's closure
    | PrefixChain(fs: seq<UnFn>)    // PrefixChainable's closure
    | PostfixChain(fs: seq<UnFn>)   // PostfixChainable's closure

  function ApplyBin(g: BinFn, x: Value, y: Value): Value
  {
    match g
    case BinOp(name) => VNode(name, [x, y])
    case Hole => x
  }

  /** Partial<T>.ApplyL: the pair's function applied to `z` on the left and its argument on the right. */
  function ApplyL(p: Partial, z: Value): Value
  {
    ApplyBin(p.func, z, p.arg)
  }

  function ApplyUn(f: UnFn, z: Value): Value
    decreases f, 2
  {
    match f
    case Identity => z
    case UnOp(name) => VNode(name, [z])
    case ApplyLeftOf(p) => ApplyL(p, z)
    case LeftChain(fxs) => FoldPairs(fxs, 0, z)
    case PrefixChain(fs) => ApplyDownFrom(f, |fs|, z)
    case PostfixChain(fs) => ApplyUpFrom(f, 0, z)
  }

  /** The left-associative closure's loop: `z := fxs[i].ApplyL(z)` for i = k, k + 1, ... */
  function FoldPairs(fxs: seq<Partial>, k: nat, z: Value): Value
    requires k <= |fxs|
    decreases |fxs| - k
  {
    if k == |fxs| then z else FoldPairs(fxs, k + 1, ApplyL(fxs[k], z))
  }

  /** PrefixChainable's loop: `z := fs[i](z)` for i = k - 1 down to 0. */
  function ApplyDownFrom(chain: UnFn, k: nat, z: Value): Value
    requires chain.PrefixChain? && k <= |chain.fs|
    decreases chain, 1, k
  {
    if k == 0 then z else ApplyDownFrom(chain, k - 1, ApplyUn(chain.fs[k - 1], z))
  }

  /** PostfixChainable's loop: `z := fs[i](z)` for i = k up to the last. */
  function ApplyUpFrom(chain: UnFn, k: nat, z: Value): Value
    requires chain.PostfixChain? && k <= |chain.fs|
    decreases chain, 1, |chain.fs| - k
  {
    if k == |chain.fs| then z else ApplyUpFrom(chain, k + 1, ApplyUn(chain.fs[k], z))
  }

  /** Casts used where C#'s static types guarantee the shape; any other shape maps to a fixed default. */
  function AsUnFn(v: Value): UnFn { if v.VFun? then v.f else Identity }

  function AsBinFn(v: Value): BinFn { if v.VFun2? then v.g else Hole }

  function AsPartial(v: Value): Partial { if v.VPartial? then v.p else Partial(Hole, VUnit) }

  function AsInt(v: Value): int { if v.VInt? then v.i else 0 }

  function AsChar(v: Value): char { if v.VChar? then v.c else '\0' }

  function AsList(v: Value): seq<Value> { if v.VList? then v.items else [] }
}
