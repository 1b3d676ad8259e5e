/**
 * The part of the W3C DOM that the template rewriter of
 * app/src/main/java/com/example/atak2drone/utils/WpmlGenerator.kt relies on:
 * a namespace-aware element tree, `textContent` assignment, document-order
 * search (`getElementsByTagNameNS(...).item(0)`), and addressing a node by
 * the child indices that lead to it from the document element.
 */
module XmlTree {
  import opened Text

  /** An attribute, by its local name. */
  datatype Attr = Attr(name: string, value: string)

  datatype Node =
    | Element(ns: string, name: string, attrs: seq<Attr>, children: seq<Node>)
    | TextNode(content: string)

  /** The element `createElementNS(ns, name)` makes, once its children are appended. */
  function NewElement(ns: string, name: string, children: seq<Node>): Node
  {
    Element(ns, name, [], children)
  }

  predicate IsNamed(n: Node, ns: string, name: string)
  {
    n.Element? && n.ns == ns && n.name == name
  }

  /** The test `getElementsByTagNameNS(ns, name)` applies to each node. */
  function Named(ns: string, name: string): Node -> bool
  {
    n => IsNamed(n, ns, name)
  }

  function NotNamed(ns: string, name: string): Node -> bool
  {
    n => !IsNamed(n, ns, name)
  }

  /** The nodes of `cs` that pass `keep`, in their order. */
  function Filter(cs: seq<Node>, keep: Node -> bool): (r: seq<Node>)
    ensures |r| <= |cs|
    ensures forall i :: 0 <= i < |r| ==> keep(r[i]) && r[i] in cs
  {
    if cs == [] then []
    else Filter(cs[..|cs| - 1], keep) + (if keep(cs[|cs| - 1]) then [cs[|cs| - 1]] else [])
  }

  lemma {:induction false} FilterAppend(a: seq<Node>, b: seq<Node>, keep: Node -> bool)
    ensures Filter(a + b, keep) == Filter(a, keep) + Filter(b, keep)
    decreases |b|
  {
    if b == [] {
      assert a + b == a;
    } else {
      var last := b[|b| - 1];
      assert (a + b)[..|a + b| - 1] == a + b[..|b| - 1];
      FilterAppend(a, b[..|b| - 1], keep);
    }
  }

  /** A sequence all of whose members pass is its own filter; one none of whose members pass filters to nothing. */
  lemma {:induction false} FilterAllOrNone(cs: seq<Node>, keep: Node -> bool)
    ensures (forall i :: 0 <= i < |cs| ==> keep(cs[i])) ==> Filter(cs, keep) == cs
    ensures (forall i :: 0 <= i < |cs| ==> !keep(cs[i])) ==> Filter(cs, keep) == []
    decreases |cs|
  {
    if cs != [] {
      FilterAllOrNone(cs[..|cs| - 1], keep);
      assert cs[..|cs| - 1] + [cs[|cs| - 1]] == cs;
    }
  }

  /**
   * The children an element is left with after `textContent = v`: every child
   * is removed, then a single text node is added unless `v` is empty.
   */
  function TextChildren(v: string): seq<Node>
  {
    if v == [] then [] else [TextNode(v)]
  }

  function SetText(n: Node, v: string): Node
  {
    if n.Element? then n.(children := TextChildren(v)) else TextNode(v)
  }

  /** Reading `textContent`: the text of every descendant text node, in document order. */
  function TextContent(n: Node): string
    decreases n, 1
  {
    match n
    case TextNode(t) => t
    case Element(_, _, _, cs) => TextContents(cs)
  }

  function TextContents(cs: seq<Node>): string
    decreases cs, 0
  {
    if cs == [] then [] else TextContent(cs[0]) + TextContents(cs[1..])
  }

  /** Assigning `textContent` and reading it back gives the assigned string. */
  lemma SetTextReadsBack(n: Node, v: string)
    ensures TextContent(SetText(n, v)) == v
  {
    if n.Element? && v != [] {
      assert TextContents([TextNode(v)]) == v + TextContents([]);
    }
  }

  // ---------------------------------------------------------------------
  // Addressing nodes
  // ---------------------------------------------------------------------

  /** A node's address: the child index taken at each level below the root. */
  type Path = seq<nat>

  function At(n: Node, p: Path): Option<Node>
    decreases p
  {
    if p == [] then Some(n)
    else if n.Element? && p[0] < |n.children| then At(n.children[p[0]], p[1..])
    else None
  }

  /** The tree with the node at `p` replaced by `m`; any other tree is returned as is. */
  function ReplaceAt(n: Node, p: Path, m: Node): Node
    decreases p
  {
    if p == [] then m
    else if n.Element? && p[0] < |n.children| then
      n.(children := n.children[p[0] := ReplaceAt(n.children[p[0]], p[1..], m)])
    else n
  }

  /** Following `p` and then `q` is following `p + q`. */
  lemma {:induction false} AtAppend(n: Node, p: Path, q: Path)
    requires At(n, p).Some?
    ensures At(n, p + q) == At(At(n, p).value, q)
    decreases p
  {
    if p != [] {
      assert (p + q)[0] == p[0] && (p + q)[1..] == p[1..] + q;
      assert At(n, p) == At(n.children[p[0]], p[1..]);
      assert At(n, p + q) == At(n.children[p[0]], p[1..] + q);
      AtAppend(n.children[p[0]], p[1..], q);
    } else {
      assert p + q == q;
    }
  }

  /** After the replacement, the path leads to the new node. */
  lemma {:induction false} ReplaceAtHits(n: Node, p: Path, m: Node)
    requires At(n, p).Some?
    ensures At(ReplaceAt(n, p, m), p) == Some(m)
    decreases p
  {
    if p != [] {
      ReplaceAtHits(n.children[p[0]], p[1..], m);
    }
  }

  /** Two paths that part ways: neither is an ancestor of the other. */
  predicate Diverge(p: Path, q: Path)
    decreases p
  {
    p != [] && q != [] && (p[0] != q[0] || Diverge(p[1..], q[1..]))
  }

  /** Every node off the replaced branch is left where and as it was. */
  lemma {:induction false} ReplaceAtElsewhere(n: Node, p: Path, q: Path, m: Node)
    requires Diverge(p, q)
    ensures At(ReplaceAt(n, p, m), q) == At(n, q)
    decreases p
  {
    if n.Element? && p[0] < |n.children| && p[0] == q[0] {
      ReplaceAtElsewhere(n.children[p[0]], p[1..], q[1..], m);
    }
  }

  /** Putting back the node a path already leads to changes nothing. */
  lemma {:induction false} ReplaceAtSame(n: Node, p: Path)
    requires At(n, p).Some?
    ensures ReplaceAt(n, p, At(n, p).value) == n
    decreases p
  {
    if p != [] {
      ReplaceAtSame(n.children[p[0]], p[1..]);
    }
  }

  // ---------------------------------------------------------------------
  // Document order and first match
  // ---------------------------------------------------------------------

  /**
   * `q` comes strictly before `p` in document order: it is an ancestor of
   * `p`, or at the first level where they differ it takes a smaller index.
   */
  predicate Before(q: Path, p: Path)
    decreases p
  {
    p != [] && (q == [] || q[0] < p[0] || (q[0] == p[0] && Before(q[1..], p[1..])))
  }

  /**
   * The first node in document order (the node itself, then its children's
   * subtrees from the first) that satisfies `pred`: what `item(0)` of a
   * `getElementsByTagNameNS` list is.
   */
  function FindFirst(n: Node, pred: Node -> bool): (r: Option<Path>)
    ensures r.Some? ==> At(n, r.value).Some? && pred(At(n, r.value).value)
    decreases n, 1
  {
    if pred(n) then Some([])
    else if n.TextNode? then None
    else FindFirstAmong(n.children, 0, pred)
  }

  /** The first match inside `cs[i]`, `cs[i + 1]`, ..., as a path that starts with the child index. */
  function FindFirstAmong(cs: seq<Node>, i: nat, pred: Node -> bool): (r: Option<Path>)
    requires i <= |cs|
    ensures r.Some? ==> r.value != [] && i <= r.value[0] < |cs|
                        && At(cs[r.value[0]], r.value[1..]).Some?
                        && pred(At(cs[r.value[0]], r.value[1..]).value)
    decreases cs, |cs| - i
  {
    if i == |cs| then None
    else match FindFirst(cs[i], pred)
      case Some(p) => Some([i] + p)
      case None => FindFirstAmong(cs, i + 1, pred)
  }

  /**
   * No node before the one `FindFirst` returns satisfies `pred`, and when it
   * returns nothing, no node at all does.
   */
  lemma {:induction false} NothingEarlier(n: Node, pred: Node -> bool, q: Path)
    requires At(n, q).Some?
    requires FindFirst(n, pred).None? || Before(q, FindFirst(n, pred).value)
    ensures !pred(At(n, q).value)
    decreases n, 1
  {
    if q != [] && !pred(n) {
      NothingEarlierAmong(n.children, 0, pred, q[0], q[1..]);
    }
  }

  lemma {:induction false} NothingEarlierAmong(cs: seq<Node>, i: nat, pred: Node -> bool, j: nat, q: Path)
    requires i <= j < |cs| && At(cs[j], q).Some?
    requires FindFirstAmong(cs, i, pred).None? || Before([j] + q, FindFirstAmong(cs, i, pred).value)
    ensures !pred(At(cs[j], q).value)
    decreases cs, |cs| - i
  {
    assert ([j] + q)[1..] == q;
    match FindFirst(cs[i], pred)
    case Some(p) =>
      assert ([i] + p)[1..] == p;
      NothingEarlier(cs[i], pred, q);
    case None =>
      if j == i {
        NothingEarlier(cs[i], pred, q);
      } else {
        NothingEarlierAmong(cs, i + 1, pred, j, q);
      }
  }

  /** `FindFirst` finds nothing exactly when no node satisfies `pred`. */
  lemma FindFirstNoneIff(n: Node, pred: Node -> bool)
    ensures FindFirst(n, pred).None? <==> forall q :: At(n, q).Some? ==> !pred(At(n, q).value)
  {
    if FindFirst(n, pred).None? {
      forall q | At(n, q).Some?
        ensures !pred(At(n, q).value)
      {
        NothingEarlier(n, pred, q);
      }
    } else {
      var p := FindFirst(n, pred).value;
      assert At(n, p).Some? && pred(At(n, p).value);
    }
  }

  // ---------------------------------------------------------------------
  // Properties of every node
  // ---------------------------------------------------------------------

  /** `P` holds of the node and of every node below it. */
  predicate Everywhere(n: Node, P: Node -> bool)
  {
    P(n) && (n.Element? ==> forall i :: 0 <= i < |n.children| ==> Everywhere(n.children[i], P))
  }

  /** What holds everywhere holds everywhere below every address. */
  lemma {:induction false} EverywhereAt(n: Node, P: Node -> bool, q: Path)
    requires Everywhere(n, P) && At(n, q).Some?
    ensures Everywhere(At(n, q).value, P) && P(At(n, q).value)
    decreases q
  {
    if q != [] {
      EverywhereAt(n.children[q[0]], P, q[1..]);
    }
  }


  predicate HasElementChild(cs: seq<Node>)
  {
    exists i :: 0 <= i < |cs| && cs[i].Element?
  }

  /**
   * `P` judges an element that has element children without looking at
   * which children they are.
   */
  ghost predicate ChildInsensitive(P: Node -> bool)
  {
    forall m: Node, cs: seq<Node> {:trigger P(m.(children := cs))} ::
      m.Element? && P(m) && HasElementChild(m.children) && HasElementChild(cs) ==> P(m.(children := cs))
  }

  /**
   * Replacing an element by an element of which `P` holds everywhere keeps
   * `P` everywhere, when `P` does not look at the children of the ancestors.
   */
  lemma {:induction false} EverywhereReplaceAt(n: Node, P: Node -> bool, p: Path, m: Node)
    requires Everywhere(n, P) && Everywhere(m, P) && m.Element?
    requires At(n, p).Some? && At(n, p).value.Element?
    requires ChildInsensitive(P)
    ensures Everywhere(ReplaceAt(n, p, m), P)
    decreases p
  {
    if p != [] {
      var k := p[0];
      var c := n.children[k];
      var c' := ReplaceAt(c, p[1..], m);
      EverywhereReplaceAt(c, P, p[1..], m);
      var n' := ReplaceAt(n, p, m);
      assert n' == n.(children := n.children[k := c']);
      assert c.Element? && c'.Element?;
      assert HasElementChild(n.children) && HasElementChild(n'.children) by {
        assert n.children[k] == c && n'.children[k] == c';
      }
      assert P(n');
      forall i | 0 <= i < |n'.children|
        ensures Everywhere(n'.children[i], P)
      {
        if i != k {
          assert n'.children[i] == n.children[i];
        }
      }
    }
  }

  /** What holds everywhere in a tree holds everywhere in each of its children. */
  lemma EverywhereMember(cs: seq<Node>, P: Node -> bool, x: Node)
    requires forall i :: 0 <= i < |cs| ==> Everywhere(cs[i], P)
    requires x in cs
    ensures Everywhere(x, P)
  {
    var i :| 0 <= i < |cs| && cs[i] == x;
  }
}
