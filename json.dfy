/** The generic JSON document tree (null, bool, int, double, string, array,
    map) and the addressing of a node inside a tree by a path of array
    indices and map keys. A path stands for the `Node*` pointers that the
    document builder keeps into the tree it is building. */
module Json {
  import opened Wrappers
  import opened Geo

  /** The range of a 32-bit C++ `int`. */
  type Int32 = i: int | -0x8000_0000 <= i < 0x8000_0000

  datatype Node =
    | Null
    | Bool(b: bool)
    | Int(i: Int32)
    | Double(d: Float64)
    | String(s: string)
    | Array(items: seq<Node>)
    | Dict(entries: map<string, Node>)
  {
    predicate IsComposite() { Array? || Dict? }
  }

  /** One step down the tree: an element of an array or the value under a key. */
  datatype Step = Index(i: nat) | Field(key: string)

  type Path = seq<Step>

  /** The child of `n` that `st` selects, if `n` has one there. */
  function Child(n: Node, st: Step): (r: Option<Node>)
    ensures r.Some? ==> n.IsComposite()
    ensures r.Some? <==> match st
                         case Index(i) => n.Array? && i < |n.items|
                         case Field(k) => n.Dict? && k in n.entries
  {
    match st
    case Index(i) => if n.Array? && i < |n.items| then Some(n.items[i]) else None
    case Field(k) => if n.Dict? && k in n.entries then Some(n.entries[k]) else None
  }

  /** The node that path `p` leads to from `n`, if the path exists. */
  function At(n: Node, p: Path): Option<Node>
    decreases p
  {
    if p == [] then Some(n)
    else match Child(n, p[0])
      case None => None
      case Some(c) => At(c, p[1..])
  }

  /** `n` with its child at `st` replaced by `c`. */
  function Replace(n: Node, st: Step, c: Node): (r: Node)
    requires Child(n, st).Some?
    ensures Child(r, st) == Some(c)
  {
    match st
    case Index(i) => Array(n.items[i := c])
    case Field(k) => Dict(n.entries[k := c])
  }

  /** `n` with the node at path `p` replaced by `c`: what writing through a
      pointer into the tree does to the tree. */
  function Put(n: Node, p: Path, c: Node): Node
    requires At(n, p).Some?
    decreases p
  {
    if p == [] then c else Replace(n, p[0], Put(Child(n, p[0]).value, p[1..], c))
  }

  /** Following `p + q` is following `p`, then `q` from where `p` ends. */
  lemma {:induction false} AtConcat(n: Node, p: Path, q: Path)
    ensures At(n, p + q) == if At(n, p).None? then None else At(At(n, p).value, q)
    decreases p
  {
    if p == [] {
      assert p + q == q;
    } else {
      assert (p + q)[0] == p[0] && (p + q)[1..] == p[1..] + q;
      match Child(n, p[0])
      case None =>
      case Some(c) => AtConcat(c, p[1..], q);
    }
  }

  /** Every prefix of a path that exists exists too, and leads to an array or a map. */
  lemma AtPrefix(n: Node, p: Path, i: nat)
    requires At(n, p).Some? && i < |p|
    ensures At(n, p[..i]).Some? && At(n, p[..i]).value.IsComposite()
  {
    assert p == p[..i] + p[i..];
    AtConcat(n, p[..i], p[i..]);
    assert p[i..][0] == p[i];
  }

  /** After writing `c` at `p`, `p` leads to `c`. */
  lemma {:induction false} AtPut(n: Node, p: Path, c: Node)
    requires At(n, p).Some?
    ensures At(Put(n, p, c), p) == Some(c)
    decreases p
  {
    if p != [] {
      AtPut(Child(n, p[0]).value, p[1..], c);
    }
  }

  /** Writing at `p + q` is writing, at `p`, the node found there with `q` rewritten. */
  lemma {:induction false} PutConcat(n: Node, p: Path, q: Path, c: Node)
    requires At(n, p + q).Some?
    ensures At(n, p).Some? && At(At(n, p).value, q).Some?
    ensures Put(n, p + q, c) == Put(n, p, Put(At(n, p).value, q, c))
    decreases p
  {
    AtConcat(n, p, q);
    if p == [] {
      assert p + q == q;
    } else {
      assert (p + q)[0] == p[0] && (p + q)[1..] == p[1..] + q;
      PutConcat(Child(n, p[0]).value, p[1..], q, c);
    }
  }

  /** A write below `p` keeps `p` in place and changes the node there only below it. */
  lemma AtAbovePut(n: Node, p: Path, q: Path, c: Node)
    requires At(n, p + q).Some?
    ensures At(n, p).Some? && At(At(n, p).value, q).Some?
    ensures At(Put(n, p + q, c), p) == Some(Put(At(n, p).value, q, c))
  {
    PutConcat(n, p, q, c);
    AtPut(n, p, Put(At(n, p).value, q, c));
  }

  /** Writing twice at the same place keeps only the second write. */
  lemma {:induction false} PutPut(n: Node, p: Path, a: Node, b: Node)
    requires At(n, p).Some?
    ensures At(Put(n, p, a), p).Some?
    ensures Put(Put(n, p, a), p, b) == Put(n, p, b)
    decreases p
  {
    AtPut(n, p, a);
    if p != [] {
      PutPut(Child(n, p[0]).value, p[1..], a, b);
    }
  }

  /** Writing back the node that is already there changes nothing. */
  lemma {:induction false} PutAt(n: Node, p: Path)
    requires At(n, p).Some?
    ensures Put(n, p, At(n, p).value) == n
    decreases p
  {
    if p != [] {
      var c := Child(n, p[0]).value;
      PutAt(c, p[1..]);
      match p[0]
      case Index(i) => assert n.items[i := c] == n.items;
      case Field(k) => assert n.entries[k := c] == n.entries;
    }
  }
}
