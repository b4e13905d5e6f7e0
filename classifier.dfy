/** The node classifier of the diff tool's driver: a concrete tree-sitter parse
    tree is unfolded into a Doubt syntax tree, one of four shapes per node, and
    every node is then annotated with its source range and its category. */
module Classifier {
  import opened Wrappers
  import opened Doubt

  /** A range of offsets into the parsed text. */
  datatype Range = Range(start: int, end: int)

  /** A named node of the tree the parser produced for one input text.
      `category` is what `category(document)` yields for the node and
      `substring` what `substring(string)` yields for it; None stands for the
      call throwing. Children are the node's named children in source order. */
  datatype RawNode = RawNode(
    range: Range,
    category: Option<string>,
    substring: Option<string>,
    namedChildren: seq<RawNode>)

  /** What the unfold is seeded with at each node: the node and the category
      it is classified under. */
  datatype Seed = Seed(node: RawNode, category: string)

  /** The annotation every node of the final tree carries. */
  datatype Info = Info(range: Range, categories: set<string>)

  type Term = Cofree<Info>

  const KeyedProductions: set<string> := {"object"}
  const FixedProductions: set<string> :=
    {"pair", "rel_op", "math_op", "bool_op", "bitwise_op", "type_op", "math_assignment",
     "assignment", "subscript_access", "member_access", "new_expression", "function_call",
     "function", "ternary"}

  /** The nodes the seeds were made from, in order. */
  function Nodes(seeds: seq<Seed>): (r: seq<RawNode>)
  {
    seq(|seeds|, i requires 0 <= i < |seeds| => seeds[i].node)
  }

  /** A child paired with its own category, for a fixed or indexed layer. */
  function ChildSeed(child: RawNode): (r: Option<Seed>)
  {
    match child.category
    case None => None
    case Some(c) => Some(Seed(child, c))
  }

  /** The entry a child contributes to a keyed layer of `node`: a "pair" is
      keyed by the text of its first named child and seeded as "pair"; any
      other child (a comment, say) is keyed by the text of `node` itself and
      keeps its own category. A "pair" without named children has no first
      child to take the key from. */
  function KeyedEntry(node: RawNode, child: RawNode): (r: Option<(string, Seed)>)
  {
    match child.category
    case None => None
    case Some(c) =>
      if c == "pair" then
        if child.namedChildren == [] then None
        else
          match child.namedChildren[0].substring
          case None => None
          case Some(key) => Some((key, Seed(child, "pair")))
      else
        match node.substring
        case None => None
        case Some(key) => Some((key, Seed(child, c)))
  }

  /** The classification closure: one layer for `node` classified under
      `category`, whose subtrees are still seeds. */
  function Step(node: RawNode, category: string): (r: Option<Syntax<Seed>>)
    ensures r.Some? ==> Nodes(r.value.Subtrees()) == node.namedChildren
    ensures r.Some? ==> forall i :: 0 <= i < |r.value.Subtrees()| ==>
      r.value.Subtrees()[i].node.category == Some(r.value.Subtrees()[i].category)
  {
    var children := node.namedChildren;
    if |children| == 0 then
      match node.substring
      case None => None
      case Some(text) => Some(Leaf(text))
    else if category in FixedProductions then
      match TryMap(children, ChildSeed)
      case None => None
      case Some(seeds) => Some(Fixed(seeds))
    else if category in KeyedProductions then
      match TryMap(children, (child: RawNode) => KeyedEntry(node, child))
      case None => None
      case Some(entries) => Some(Keyed(entries))
    else
      match TryMap(children, ChildSeed)
      case None => None
      case Some(seeds) => Some(Indexed(seeds))
  }

  /** `Cofree.ana` run with `Step` from one seed: the whole tree, or None when
      any call anywhere below fails. */
  function Unfold(node: RawNode, category: string): (r: Option<Cofree<Seed>>)
    ensures r.Some? ==> r.value.annotation == Seed(node, category)
    decreases node
  {
    match Step(node, category)
    case None => None
    case Some(layer) =>
      var seed := Seed(node, category);
      assert forall i :: 0 <= i < |layer.Subtrees()| ==>
        layer.Subtrees()[i].node == Nodes(layer.Subtrees())[i];
      match layer
      case Leaf(text) => Some(Cofree(seed, Leaf(text)))
      case Indexed(seeds) =>
        (match TryMap(seeds, (s: Seed) requires s.node in node.namedChildren => Unfold(s.node, s.category))
         case None => None
         case Some(subterms) => Some(Cofree(seed, Indexed(subterms))))
      case Fixed(seeds) =>
        (match TryMap(seeds, (s: Seed) requires s.node in node.namedChildren => Unfold(s.node, s.category))
         case None => None
         case Some(subterms) => Some(Cofree(seed, Fixed(subterms))))
      case Keyed(entries) =>
        match TryMap(entries, (e: (string, Seed)) requires e.1.node in node.namedChildren =>
          match Unfold(e.1.node, e.1.category)
          case None => None
          case Some(subterm) => Some((e.0, subterm)))
        case None => None
        case Some(subterms) => Some(Cofree(seed, Keyed(subterms)))
  }

  /** The annotation closure: a node's range and the one category it was
      classified under. */
  function AnnotationOf(seed: Seed): (info: Info)
  {
    Info(seed.node.range, {seed.category})
  }

  /** `termWithInput` after parsing: the root is classified as "program", then
      every node is annotated; None when classification fails anywhere. */
  function TermWithInput(root: RawNode): (r: Option<Term>)
    ensures r.Some? <==> Succeeds(root, "program")
    ensures r.Some? ==> r.value.annotation == Info(root.range, {"program"})
    ensures r.Some? ==> Unfold(root, "program").Some?
                        && MappedFrom(r.value, Unfold(root, "program").value, AnnotationOf)
  {
    UnfoldSucceeds(root, "program");
    match Unfold(root, "program")
    case None => None
    case Some(tree) => Some(Map(tree, AnnotationOf))
  }

  // Which calls succeed

  /** The key of `child` in a keyed layer of `node` can be read. */
  ghost predicate KeySucceeds(node: RawNode, child: RawNode)
  {
    if child.category == Some("pair") then
      child.namedChildren != [] && child.namedChildren[0].substring.Some?
    else
      node.substring.Some?
  }

  /** Every call the classification closure makes at `node` succeeds. */
  ghost predicate CallsSucceed(node: RawNode, category: string)
  {
    if node.namedChildren == [] then node.substring.Some?
    else
      && (forall child <- node.namedChildren :: child.category.Some?)
      && (category !in FixedProductions && category in KeyedProductions ==>
            forall child <- node.namedChildren :: KeySucceeds(node, child))
  }

  /** Every call made anywhere in the tree below `node` succeeds; each child is
      visited under its own category. */
  ghost predicate Succeeds(node: RawNode, category: string)
    decreases node
  {
    && CallsSucceed(node, category)
    && forall child <- node.namedChildren ::
         child.category.Some? && Succeeds(child, child.category.value)
  }

  lemma StepSucceeds(node: RawNode, category: string)
    ensures Step(node, category).Some? <==> CallsSucceed(node, category)
  {
    var children := node.namedChildren;
    if children != [] {
      assert (forall child <- children :: child.category.Some?)
        <==> (forall i :: 0 <= i < |children| ==> ChildSeed(children[i]).Some?);
      if category !in FixedProductions && category in KeyedProductions {
        assert (forall child <- children :: child.category.Some? && KeySucceeds(node, child))
          <==> (forall i :: 0 <= i < |children| ==> KeyedEntry(node, children[i]).Some?);
      }
    }
  }

  /** Classification yields a tree exactly when no call anywhere fails; one
      failing call below the root makes the whole result None. */
  lemma {:induction false} UnfoldSucceeds(node: RawNode, category: string)
    ensures Unfold(node, category).Some? <==> Succeeds(node, category)
    decreases node
  {
    StepSucceeds(node, category);
    forall child | child in node.namedChildren && child.category.Some?
      ensures Unfold(child, child.category.value).Some? <==> Succeeds(child, child.category.value)
    {
      UnfoldSucceeds(child, child.category.value);
    }
    match Step(node, category)
    case None =>
    case Some(layer) =>
      var seeds := layer.Subtrees();
      assert forall i :: 0 <= i < |seeds| ==> seeds[i].node == Nodes(seeds)[i];
  }

  // The four shapes

  /** A node without named children is a leaf holding its own text, whatever
      category it is classified under. */
  lemma LeafWhenNoNamedChildren(node: RawNode, category: string)
    requires node.namedChildren == []
    ensures Unfold(node, category) ==
      match node.substring
      case None => None
      case Some(text) => Some(Cofree(Seed(node, category), Leaf(text)))
  {
  }

  /** A node with named children is never a leaf. */
  lemma NoLeafWithNamedChildren(node: RawNode, category: string, t: Cofree<Seed>)
    requires Unfold(node, category) == Some(t)
    ensures t.unwrap.Leaf? <==> node.namedChildren == []
  {
  }

  /** Under a fixed-arity category a node with named children is a tuple of
      all its named children in source order, each classified under its own category. */
  lemma FixedLayer(node: RawNode, category: string, t: Cofree<Seed>)
    requires Unfold(node, category) == Some(t)
    requires node.namedChildren != [] && category in FixedProductions
    ensures t.unwrap.Fixed? && |t.unwrap.children| == |node.namedChildren|
    ensures forall i :: 0 <= i < |node.namedChildren| ==>
      && node.namedChildren[i].category.Some?
      && t.unwrap.children[i].annotation == Seed(node.namedChildren[i], node.namedChildren[i].category.value)
  {
    var seeds := Step(node, category).value.children;
    assert forall i :: 0 <= i < |seeds| ==> seeds[i].node == Nodes(seeds)[i];
  }

  /** Under a category that is neither fixed nor keyed a node with named
      children is a list of all its named children in source order, each
      classified under its own category. */
  lemma IndexedLayer(node: RawNode, category: string, t: Cofree<Seed>)
    requires Unfold(node, category) == Some(t)
    requires node.namedChildren != []
    requires category !in FixedProductions && category !in KeyedProductions
    ensures t.unwrap.Indexed? && |t.unwrap.children| == |node.namedChildren|
    ensures forall i :: 0 <= i < |node.namedChildren| ==>
      && node.namedChildren[i].category.Some?
      && t.unwrap.children[i].annotation == Seed(node.namedChildren[i], node.namedChildren[i].category.value)
  {
    var seeds := Step(node, category).value.children;
    assert forall i :: 0 <= i < |seeds| ==> seeds[i].node == Nodes(seeds)[i];
  }

  /** An object literal with named children is keyed, one entry per named
      child in source order: a "pair" is keyed by its first named child's text
      and classified as "pair", any other child is keyed by the object's own
      text and keeps its own category. */
  lemma KeyedLayer(node: RawNode, t: Cofree<Seed>)
    requires node.namedChildren != []
    ensures Unfold(node, "object") == Some(t) ==>
      t.unwrap.Keyed? && |t.unwrap.entries| == |node.namedChildren|
    ensures Unfold(node, "object") == Some(t) ==> forall i :: 0 <= i < |node.namedChildren| ==>
      var child, entry := node.namedChildren[i], t.unwrap.entries[i];
      && child.category.Some?
      && entry.1.annotation.node == child
      && (child.category.value == "pair" ==>
            && child.namedChildren != []
            && child.namedChildren[0].substring.Some?
            && entry.0 == child.namedChildren[0].substring.value
            && entry.1.annotation.category == "pair")
      && (child.category.value != "pair" ==>
            && node.substring.Some?
            && entry.0 == node.substring.value
            && entry.1.annotation.category == child.category.value)
  {
    if Unfold(node, "object") == Some(t) {
      var entries := Step(node, "object").value.entries;
      assert forall i :: 0 <= i < |entries| ==> entries[i].1.node == Nodes(Step(node, "object").value.Subtrees())[i];
    }
  }

  /** Two children of an object literal that are not pairs share one key, the
      object's own text. */
  lemma SharedFallbackKey(node: RawNode, t: Cofree<Seed>, i: nat, j: nat)
    requires i < |node.namedChildren| && j < |node.namedChildren|
    requires node.namedChildren[i].category != Some("pair")
    requires node.namedChildren[j].category != Some("pair")
    ensures Unfold(node, "object") == Some(t) ==>
      && t.unwrap.Keyed? && |t.unwrap.entries| == |node.namedChildren|
      && node.substring.Some?
      && t.unwrap.entries[i].0 == t.unwrap.entries[j].0 == node.substring.value
  {
    KeyedLayer(node, t);
  }

  /** "pair" is a fixed-arity production and "object" is not, so the fixed
      and keyed dispatch never overlap. */
  lemma ProductionsDisjoint()
    ensures "pair" in FixedProductions && "object" !in FixedProductions
    ensures KeyedProductions !! FixedProductions
  {
  }

  /** A pair inside an object literal is itself classified as a fixed tuple,
      whose first element is the node the entry's key was read from. */
  lemma PairEntryIsFixed(node: RawNode, t: Cofree<Seed>, i: nat)
    requires i < |node.namedChildren| && node.namedChildren[i].category == Some("pair")
    ensures Unfold(node, "object") == Some(t) ==>
      && t.unwrap.Keyed? && |t.unwrap.entries| == |node.namedChildren|
      && var entry := t.unwrap.entries[i];
         && entry.1.unwrap.Fixed?
         && |entry.1.unwrap.children| == |node.namedChildren[i].namedChildren| > 0
         && entry.1.unwrap.children[0].annotation.node == node.namedChildren[i].namedChildren[0]
         && Some(entry.0) == node.namedChildren[i].namedChildren[0].substring
  {
    if Unfold(node, "object") == Some(t) {
      KeyedLayer(node, t);
      var child := node.namedChildren[i];
      var entry := t.unwrap.entries[i];
      assert entry.1.annotation == Seed(child, "pair");
      assert Unfold(child, "pair") == Some(entry.1);
      FixedLayer(child, "pair", entry.1);
    }
  }

  // The unfold as a whole

  /** `t` is what `Step` describes at every node: each node's layer is the
      closure's result for the node's own seed, with the subtrees' seeds in
      place of the subtrees. */
  ghost predicate Coherent(t: Cofree<Seed>)
    decreases t
  {
    && Step(t.annotation.node, t.annotation.category) == Some(t.unwrap.Map((c: Cofree<Seed>) => c.annotation))
    && forall i :: 0 <= i < |t.unwrap.Subtrees()| ==> Coherent(t.unwrap.Subtrees()[i])
  }

  /** The unfolded tree applies the classification closure at every node. */
  lemma {:induction false} UnfoldIsCoherent(node: RawNode, category: string, t: Cofree<Seed>)
    requires Unfold(node, category) == Some(t)
    ensures Coherent(t)
    decreases node
  {
    var layer := Step(node, category).value;
    var seeds := layer.Subtrees();
    assert forall i :: 0 <= i < |seeds| ==> seeds[i].node == Nodes(seeds)[i];
    var subs := t.unwrap.Subtrees();
    assert |subs| == |seeds|;
    forall i | 0 <= i < |seeds|
      ensures Unfold(seeds[i].node, seeds[i].category) == Some(subs[i])
      ensures Coherent(subs[i])
    {
      UnfoldIsCoherent(seeds[i].node, seeds[i].category, subs[i]);
    }
    assert t.unwrap.Map((c: Cofree<Seed>) => c.annotation) == layer;
  }

  /** Conversely a tree the closure describes at every node is the unfold of
      its root's seed, so the unfold is the only such tree. */
  lemma {:induction false} CoherentIsUnfold(t: Cofree<Seed>)
    requires Coherent(t)
    ensures Unfold(t.annotation.node, t.annotation.category) == Some(t)
    decreases t
  {
    var subs := t.unwrap.Subtrees();
    forall i | 0 <= i < |subs|
      ensures Unfold(subs[i].annotation.node, subs[i].annotation.category) == Some(subs[i])
    {
      CoherentIsUnfold(subs[i]);
    }
    var node, category := t.annotation.node, t.annotation.category;
    var layer := Step(node, category).value;
    assert forall i :: 0 <= i < |layer.Subtrees()| ==> layer.Subtrees()[i].node == Nodes(layer.Subtrees())[i];
    match t.unwrap
    case Leaf(_) =>
    case Indexed(cs) => UnfoldChildren(node, layer.children, cs);
    case Fixed(cs) => UnfoldChildren(node, layer.children, cs);
    case Keyed(es) => UnfoldEntries(node, layer.entries, es);
  }

  /** The subtrees of an ordered layer are the unfolds of its seeds. */
  lemma UnfoldChildren(node: RawNode, seeds: seq<Seed>, cs: seq<Cofree<Seed>>)
    requires |seeds| == |cs|
    requires forall i :: 0 <= i < |seeds| ==> seeds[i].node in node.namedChildren
    requires forall i :: 0 <= i < |seeds| ==> Unfold(seeds[i].node, seeds[i].category) == Some(cs[i])
    ensures TryMap(seeds, (s: Seed) requires s.node in node.namedChildren => Unfold(s.node, s.category)) == Some(cs)
  {
  }

  /** The entries of a keyed layer are its keys paired with the unfolds of its seeds. */
  lemma UnfoldEntries(node: RawNode, entries: seq<(string, Seed)>, es: seq<(string, Cofree<Seed>)>)
    requires |entries| == |es|
    requires forall i :: 0 <= i < |entries| ==> entries[i].1.node in node.namedChildren
    requires forall i :: 0 <= i < |entries| ==>
      entries[i].0 == es[i].0 && Unfold(entries[i].1.node, entries[i].1.category) == Some(es[i].1)
    ensures TryMap(entries, (e: (string, Seed)) requires e.1.node in node.namedChildren =>
        match Unfold(e.1.node, e.1.category)
        case None => None
        case Some(subterm) => Some((e.0, subterm))) == Some(es)
  {
  }

  /** In the final term every node is annotated with the range of the parse
      node it came from and exactly one category. */
  lemma EveryNodeHasOneCategory(root: RawNode, term: Term)
    requires TermWithInput(root) == Some(term)
    ensures Every(term, (info: Info) => |info.categories| == 1)
  {
    MappedFromEvery(term, Unfold(root, "program").value, AnnotationOf, (info: Info) => |info.categories| == 1);
  }

  /** The root is classified as "program" whatever category the parser gives it. */
  lemma RootCategoryIgnored(root: RawNode, other: Option<string>)
    ensures TermWithInput(root.(category := other)) == TermWithInput(root)
  {
    var root' := root.(category := other);
    assert Step(root', "program") == Step(root, "program");
    match Step(root, "program")
    case None =>
    case Some(layer) =>
      var seeds := layer.Subtrees();
      assert forall i :: 0 <= i < |seeds| ==> seeds[i].node == Nodes(seeds)[i];
      match layer
      case Leaf(_) =>
      case Indexed(_) =>
        var r := TryMap(seeds, (s: Seed) requires s.node in root.namedChildren => Unfold(s.node, s.category));
        var r' := TryMap(seeds, (s: Seed) requires s.node in root'.namedChildren => Unfold(s.node, s.category));
        assert r.Some? ==> r' == r;
      case Fixed(_) =>
      case Keyed(_) =>
  }
}
