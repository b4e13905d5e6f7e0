/** The tree types of the Doubt library that the driver builds: `Syntax`, one
    layer of a syntax tree whose subtrees are of type `Recur`, and `Cofree`, the
    tree in which every layer carries an annotation. */
module Doubt {

  /** One layer: a leaf's text, an ordered list, a fixed-arity tuple, or the
      key/subtree entries of a keyed construct, in source order. */
  datatype Syntax<Recur> =
    | Leaf(text: string)
    | Indexed(children: seq<Recur>)
    | Fixed(children: seq<Recur>)
    | Keyed(entries: seq<(string, Recur)>)
  {
    /** The subtrees of this layer, in order (the values, for a keyed layer). */
    function Subtrees(): (r: seq<Recur>)
      ensures Leaf? ==> r == []
      ensures Indexed? || Fixed? ==> r == children
      ensures Keyed? ==> |r| == |entries| && forall i :: 0 <= i < |r| ==> r[i] == entries[i].1
    {
      match this
      case Leaf(_) => []
      case Indexed(cs) => cs
      case Fixed(cs) => cs
      case Keyed(es) => seq(|es|, i requires 0 <= i < |es| => es[i].1)
    }

    /** `Syntax.map`: the same layer with `f` applied to every subtree. */
    function Map<S>(f: Recur -> S): (r: Syntax<S>)
      ensures (r.Leaf? <==> Leaf?) && (r.Indexed? <==> Indexed?) && (r.Fixed? <==> Fixed?)
      ensures Leaf? ==> r.text == text
      ensures |r.Subtrees()| == |Subtrees()|
      ensures forall i :: 0 <= i < |Subtrees()| ==> r.Subtrees()[i] == f(Subtrees()[i])
      ensures Keyed? ==> forall i :: 0 <= i < |entries| ==> r.entries[i].0 == entries[i].0
    {
      match this
      case Leaf(s) => Leaf(s)
      case Indexed(cs) => Indexed(seq(|cs|, i requires 0 <= i < |cs| => f(cs[i])))
      case Fixed(cs) => Fixed(seq(|cs|, i requires 0 <= i < |cs| => f(cs[i])))
      case Keyed(es) => Keyed(seq(|es|, i requires 0 <= i < |es| => (es[i].0, f(es[i].1))))
    }
  }

  /** A tree whose every node pairs an annotation with one layer of syntax. */
  datatype Cofree<A> = Cofree(annotation: A, unwrap: Syntax<Cofree<A>>)

  /** `u` has the shape, leaf texts and keys of `t`, and each node of `u` is
      annotated with `f` of the annotation at the same place in `t`. */
  ghost predicate MappedFrom<A, B>(u: Cofree<B>, t: Cofree<A>, f: A -> B)
    decreases t
  {
    && u.annotation == f(t.annotation)
    && match t.unwrap
       case Leaf(s) => u.unwrap == Leaf(s)
       case Indexed(cs) =>
         && u.unwrap.Indexed? && |u.unwrap.children| == |cs|
         && forall i :: 0 <= i < |cs| ==> MappedFrom(u.unwrap.children[i], cs[i], f)
       case Fixed(cs) =>
         && u.unwrap.Fixed? && |u.unwrap.children| == |cs|
         && forall i :: 0 <= i < |cs| ==> MappedFrom(u.unwrap.children[i], cs[i], f)
       case Keyed(es) =>
         && u.unwrap.Keyed? && |u.unwrap.entries| == |es|
         && forall i :: 0 <= i < |es| ==>
              u.unwrap.entries[i].0 == es[i].0 && MappedFrom(u.unwrap.entries[i].1, es[i].1, f)
  }

  /** Every annotation in `t` satisfies `p`. */
  ghost predicate Every<A>(t: Cofree<A>, p: A -> bool)
    decreases t
  {
    && p(t.annotation)
    && match t.unwrap
       case Leaf(_) => true
       case Indexed(cs) => forall i :: 0 <= i < |cs| ==> Every(cs[i], p)
       case Fixed(cs) => forall i :: 0 <= i < |cs| ==> Every(cs[i], p)
       case Keyed(es) => forall i :: 0 <= i < |es| ==> Every(es[i].1, p)
  }

  /** `Cofree.map`: the same tree with every annotation replaced by `f` of it. */
  function Map<A, B>(t: Cofree<A>, f: A -> B): (r: Cofree<B>)
    ensures MappedFrom(r, t, f)
    decreases t
  {
    Cofree(f(t.annotation),
      match t.unwrap
      case Leaf(s) => Leaf(s)
      case Indexed(cs) => Indexed(seq(|cs|, i requires 0 <= i < |cs| => Map(cs[i], f)))
      case Fixed(cs) => Fixed(seq(|cs|, i requires 0 <= i < |cs| => Map(cs[i], f)))
      case Keyed(es) => Keyed(seq(|es|, i requires 0 <= i < |es| => (es[i].0, Map(es[i].1, f)))))
  }

  /** A mapped tree satisfies `p` everywhere when `p` holds of every value `f` produces. */
  lemma {:induction false} MappedFromEvery<A, B>(u: Cofree<B>, t: Cofree<A>, f: A -> B, p: B -> bool)
    requires MappedFrom(u, t, f)
    requires forall a :: p(f(a))
    ensures Every(u, p)
    decreases t
  {
    match t.unwrap
    case Leaf(_) =>
    case Indexed(cs) =>
      forall i | 0 <= i < |cs| ensures Every(u.unwrap.children[i], p) {
        MappedFromEvery(u.unwrap.children[i], cs[i], f, p);
      }
    case Fixed(cs) =>
      forall i | 0 <= i < |cs| ensures Every(u.unwrap.children[i], p) {
        MappedFromEvery(u.unwrap.children[i], cs[i], f, p);
      }
    case Keyed(es) =>
      forall i | 0 <= i < |es| ensures Every(u.unwrap.entries[i].1, p) {
        MappedFromEvery(u.unwrap.entries[i].1, es[i].1, f, p);
      }
  }
}
