/**
 * The recursive part of the network: `add_model` walks a parse tree bottom-up
 * and gives every node a vector, `inference` picks the rows that are fed to the
 * projection layer, and the training labels drop the "no label" class.
 *
 * The vector arithmetic itself (embedding lookup, relu(concat(l, r) W1 + b1),
 * the projection x U + bs) is kept abstract in a `Weights` record of functions.
 */
module Trees {
  import opened Scores

  /**
   * A parse-tree node. The script keys its dictionaries by node object; `id`
   * stands for that object identity.
   */
  datatype Node =
    | Leaf(id: nat, nodeLabel: int, word: string)
    | Internal(id: nat, nodeLabel: int, left: Node, right: Node)

  /** A loaded tree: its root and the tree's list of node labels. */
  datatype Tree = Tree(root: Node, labels: seq<int>)

  /** The label that marks a node to leave out of training and full-tree inference. */
  const Unlabelled: int := 2

  /**
   * The trainable parameters, seen through what they compute: the embedding
   * row of a word (after vocabulary encoding), the composition of two child
   * vectors, and the projection of a vector to class scores.
   */
  datatype Weights<!V> = Weights(embedding: string -> V, compose: (V, V) -> V, project: V -> Logits)

  /** The nodes of a subtree in post-order: left subtree, right subtree, then the node. */
  function PostOrder(n: Node): (s: seq<Node>)
    ensures |s| > 0 && s[|s| - 1] == n
    ensures forall x :: x in s ==> x.id in Ids(n)
  {
    match n
    case Leaf(_, _, _) => [n]
    case Internal(_, _, l, r) => PostOrder(l) + PostOrder(r) + [n]
  }

  /** The identities of the nodes of a subtree. */
  function Ids(n: Node): set<nat>
  {
    match n
    case Leaf(id, _, _) => {id}
    case Internal(id, _, l, r) => Ids(l) + Ids(r) + {id}
  }

  /** Distinct node objects have distinct identities: one id never names two different nodes. */
  predicate IdentifiesNodes(n: Node)
  {
    forall x, y :: x in PostOrder(n) && y in PostOrder(n) && x.id == y.id ==> x == y
  }

  /** The vector a node ends up with in `node.tensor`. */
  function Vec<V>(w: Weights<V>, n: Node): V
  {
    match n
    case Leaf(_, _, word) => w.embedding(word)
    case Internal(_, _, l, r) => w.compose(Vec(w, l), Vec(w, r))
  }

  /**
   * `add_model`: the dictionary from every node of the subtree to its vector,
   * built from the left child's dictionary, then the right child's, then the
   * node itself, whose vector composes the two children's vectors.
   */
  function AddModel<V>(w: Weights<V>, n: Node): (m: map<nat, V>)
    ensures m.Keys == Ids(n)
    ensures m[n.id] == Vec(w, n)
  {
    match n
    case Leaf(id, _, word) => map[id := w.embedding(word)]
    case Internal(id, _, l, r) =>
      var lm := AddModel(w, l);
      var rm := AddModel(w, r);
      (lm + rm)[id := w.compose(lm[l.id], rm[r.id])]
  }

  lemma {:induction false} IdsArePostOrderIds(n: Node)
    ensures forall i :: i in Ids(n) ==> exists x :: x in PostOrder(n) && x.id == i
  {
    match n
    case Leaf(_, _, _) =>
    case Internal(id, _, l, r) =>
      IdsArePostOrderIds(l);
      IdsArePostOrderIds(r);
      assert n in PostOrder(n);
  }

  lemma SubtreesIdentify(n: Node)
    requires n.Internal? && IdentifiesNodes(n)
    ensures IdentifiesNodes(n.left) && IdentifiesNodes(n.right)
  {
  }

  /** When ids identify nodes, every node of the subtree maps to its own vector. */
  lemma {:induction false} AddModelValues<V>(w: Weights<V>, n: Node)
    requires IdentifiesNodes(n)
    ensures forall x :: x in PostOrder(n) ==> AddModel(w, n)[x.id] == Vec(w, x)
  {
    match n
    case Leaf(_, _, _) =>
    case Internal(id, _, l, r) =>
      SubtreesIdentify(n);
      AddModelValues(w, l);
      AddModelValues(w, r);
      forall x | x in PostOrder(n)
        ensures AddModel(w, n)[x.id] == Vec(w, x)
      {
        AddModelValueAt(w, n, x);
      }
  }

  /** The step of `AddModelValues` for one node x of an internal node n. */
  lemma AddModelValueAt<V>(w: Weights<V>, n: Node, x: Node)
    requires n.Internal? && IdentifiesNodes(n) && x in PostOrder(n)
    requires forall y :: y in PostOrder(n.left) ==> AddModel(w, n.left)[y.id] == Vec(w, y)
    requires forall y :: y in PostOrder(n.right) ==> AddModel(w, n.right)[y.id] == Vec(w, y)
    ensures AddModel(w, n)[x.id] == Vec(w, x)
  {
    var l, r := n.left, n.right;
    var lm, rm := AddModel(w, l), AddModel(w, r);
    assert AddModel(w, n) == (lm + rm)[n.id := w.compose(lm[l.id], rm[r.id])];
    assert PostOrder(n) == PostOrder(l) + PostOrder(r) + [n];
    if x.id == n.id {
      assert n in PostOrder(n);
      assert x == n;
    } else if x.id in rm {
      IdsArePostOrderIds(r);
      var y :| y in PostOrder(r) && y.id == x.id;
      assert y in PostOrder(n);
      assert x == y;
    } else {
      assert x !in PostOrder(r);
      assert x in PostOrder(l);
    }
  }

  /** The nodes whose label is not `Unlabelled`, in order. */
  function Kept(nodes: seq<Node>): (s: seq<Node>)
    ensures forall x :: x in s <==> x in nodes && x.nodeLabel != Unlabelled
  {
    if nodes == [] then []
    else (if nodes[0].nodeLabel != Unlabelled then [nodes[0]] else []) + Kept(nodes[1..])
  }

  function Labels(nodes: seq<Node>): (s: seq<int>)
    ensures |s| == |nodes|
    ensures forall i :: 0 <= i < |nodes| ==> s[i] == nodes[i].nodeLabel
  {
    seq(|nodes|, i requires 0 <= i < |nodes| => nodes[i].nodeLabel)
  }

  /** `[l for l in tree.labels if l != 2]`: the training labels. */
  function KeptLabels(labels: seq<int>): (s: seq<int>)
    ensures forall x :: x in s ==> x in labels && x != Unlabelled
  {
    if labels == [] then []
    else (if labels[0] != Unlabelled then [labels[0]] else []) + KeptLabels(labels[1..])
  }

  /** The filter drops every `Unlabelled` and keeps every other label, as often as it occurs. */
  lemma {:induction false} KeptLabelsMultiset(labels: seq<int>)
    ensures multiset(KeptLabels(labels)) == multiset(labels)[Unlabelled := 0]
  {
    if labels != [] {
      KeptLabelsMultiset(labels[1..]);
      assert labels == [labels[0]] + labels[1..];
    }
  }

  /** The filter keeps the order of the labels: filtering a concatenation filters each part. */
  lemma {:induction false} KeptLabelsAppend(a: seq<int>, b: seq<int>)
    ensures KeptLabels(a + b) == KeptLabels(a) + KeptLabels(b)
  {
    if a == [] {
      assert a + b == b;
    } else {
      var head := if a[0] != Unlabelled then [a[0]] else [];
      assert (a + b)[0] == a[0];
      assert (a + b)[1..] == a[1..] + b;
      calc {
        KeptLabels(a + b);
        head + KeptLabels(a[1..] + b);
        { KeptLabelsAppend(a[1..], b); }
        head + (KeptLabels(a[1..]) + KeptLabels(b));
        (head + KeptLabels(a[1..])) + KeptLabels(b);
        KeptLabels(a) + KeptLabels(b);
      }
    }
  }

  /** The node filter distributes over concatenation, so the kept nodes keep their relative order. */
  lemma {:induction false} KeptAppend(a: seq<Node>, b: seq<Node>)
    ensures Kept(a + b) == Kept(a) + Kept(b)
  {
    if a == [] {
      assert a + b == b;
    } else {
      var head := if a[0].nodeLabel != Unlabelled then [a[0]] else [];
      assert (a + b)[0] == a[0];
      assert (a + b)[1..] == a[1..] + b;
      calc {
        Kept(a + b);
        head + Kept(a[1..] + b);
        { KeptAppend(a[1..], b); }
        head + (Kept(a[1..]) + Kept(b));
        (head + Kept(a[1..])) + Kept(b);
        Kept(a) + Kept(b);
      }
    }
  }

  /** One row per labelled node, taken from the node dictionary in its insertion (post-) order. */
  function KeptRows<V>(m: map<nat, V>, nodes: seq<Node>): (rows: seq<V>)
    requires forall x :: x in nodes ==> x.id in m
    ensures |rows| == |Kept(nodes)|
  {
    if nodes == [] then []
    else (if nodes[0].nodeLabel != Unlabelled then [m[nodes[0].id]] else []) + KeptRows(m, nodes[1..])
  }

  /**
   * `inference` before the projection: the root's vector alone, or the vectors
   * of all nodes whose label is not `Unlabelled`.
   */
  function InferenceRows<V>(w: Weights<V>, t: Tree, onlyRoot: bool): (rows: seq<V>)
    ensures onlyRoot ==> rows == [Vec(w, t.root)]
  {
    var m := AddModel(w, t.root);
    if onlyRoot then [m[t.root.id]]
    else KeptRows(m, PostOrder(t.root))
  }

  /** `add_projections`: class scores for every row. */
  function Project<V>(w: Weights<V>, rows: seq<V>): (logits: seq<Logits>)
    ensures |logits| == |rows|
    ensures forall i :: 0 <= i < |rows| ==> logits[i] == w.project(rows[i])
  {
    if rows == [] then [] else [w.project(rows[0])] + Project(w, rows[1..])
  }

  /** `inference`: the logits of the root, or of every labelled node. */
  function Inference<V>(w: Weights<V>, t: Tree, onlyRoot: bool): (logits: seq<Logits>)
    ensures |logits| == |InferenceRows(w, t, onlyRoot)|
  {
    Project(w, InferenceRows(w, t, onlyRoot))
  }

  lemma {:induction false} KeptRowsAreVectors<V>(w: Weights<V>, m: map<nat, V>, nodes: seq<Node>)
    requires forall x :: x in nodes ==> x.id in m && m[x.id] == Vec(w, x)
    ensures KeptRows(m, nodes) == seq(|Kept(nodes)|, i requires 0 <= i < |Kept(nodes)| => Vec(w, Kept(nodes)[i]))
  {
    if nodes != [] {
      var rest := nodes[1..];
      KeptRowsAreVectors(w, m, rest);
      var k := Kept(rest);
      if nodes[0].nodeLabel != Unlabelled {
        var k' := [nodes[0]] + k;
        assert Kept(nodes) == k';
        assert KeptRows(m, nodes) == [m[nodes[0].id]] + KeptRows(m, rest);
        assert forall i :: 0 < i < |k'| ==> k'[i] == k[i - 1];
      }
    }
  }

  /**
   * Full-tree inference yields, in post-order, the vector of exactly the
   * nodes whose label is not `Unlabelled`.
   */
  lemma FullInferenceRows<V>(w: Weights<V>, t: Tree)
    requires IdentifiesNodes(t.root)
    ensures InferenceRows(w, t, false) == seq(|Kept(PostOrder(t.root))|, i requires 0 <= i < |Kept(PostOrder(t.root))| => Vec(w, Kept(PostOrder(t.root))[i]))
  {
    AddModelValues(w, t.root);
    IdsArePostOrderIds(t.root);
    KeptRowsAreVectors(w, AddModel(w, t.root), PostOrder(t.root));
  }

  lemma {:induction false} KeptCount(nodes: seq<Node>)
    ensures |Kept(nodes)| == |KeptLabels(Labels(nodes))|
  {
    if nodes != [] {
      KeptCount(nodes[1..]);
      assert Labels(nodes[1..]) == Labels(nodes)[1..];
    }
  }

  /** Filtering the nodes and then reading their labels is filtering their labels: the kept nodes come in order. */
  lemma {:induction false} KeptNodesKeepLabelOrder(nodes: seq<Node>)
    ensures Labels(Kept(nodes)) == KeptLabels(Labels(nodes))
  {
    if nodes != [] {
      KeptNodesKeepLabelOrder(nodes[1..]);
      assert Labels(nodes[1..]) == Labels(nodes)[1..];
      var head := if nodes[0].nodeLabel != Unlabelled then [nodes[0]] else [];
      LabelsAppend(head, Kept(nodes[1..]));
    }
  }

  lemma LabelsAppend(a: seq<Node>, b: seq<Node>)
    ensures Labels(a + b) == Labels(a) + Labels(b)
  {
  }

  lemma KeptLabelsLength(labels: seq<int>)
    ensures |KeptLabels(labels)| == |labels| - multiset(labels)[Unlabelled]
  {
    var s := KeptLabels(labels);
    KeptLabelsMultiset(labels);
    assert |multiset(s)| == |multiset(labels)| - multiset(labels)[Unlabelled] by {
      assert multiset(labels) == multiset(s) + multiset{}[Unlabelled := multiset(labels)[Unlabelled]];
    }
  }

  /**
   * When the tree's label list holds the same labels as its nodes, full-tree
   * inference produces exactly one row of logits per training label.
   */
  lemma RowsMatchTrainingLabels<V>(w: Weights<V>, t: Tree)
    requires multiset(t.labels) == multiset(Labels(PostOrder(t.root)))
    ensures |Inference(w, t, false)| == |KeptLabels(t.labels)|
  {
    KeptCount(PostOrder(t.root));
    KeptLabelsLength(t.labels);
    KeptLabelsLength(Labels(PostOrder(t.root)));
  }
}
