# Node classifier of the doubt-difftool driver

The diff tool's driver (`prototype/doubt-difftool/main.swift`) parses each input
file with tree-sitter and turns the concrete parse tree into a Doubt term before
handing two terms to the structural diff. This project models that conversion,
`termWithInput`, and the choice of grammar from the files' extensions.

The conversion is an unfold (`Cofree.ana`) seeded with the root node and the
category `"program"`. At every node a closure picks one of four shapes:

- **Leaf**: the node's own text, when it has no named children (checked before anything else);
- **Fixed**: the named children in order, when the category is a fixed-arity production
  (`pair`, `rel_op`, `math_op`, `function_call`, `ternary`, ...);
- **Keyed**: a dictionary built from one entry per named child, when the category is `object`.
  A `pair` child is keyed by its first named child's text and unfolded as `pair`. Any other child
  (a comment) is keyed by the object's own text and keeps its own category. Entries can repeat a
  key; the dictionary keeps one value per key. The model keeps the whole entry list instead;
  the list of what is left out, below, says what that changes;
- **Indexed**: the named children in order, for every other category.

Each child is unfolded again from its own seed. Then every node is annotated with
`Info(range, categories: {category})`. If any `category` or `substring` call the
unfold makes throws, `try?` makes the whole result `nil`.

Files:

- `wrappers.dfy`: `Option`, `Result`, and `TryMap`, Swift's `map` with a throwing transform.
- `doubt.dfy`: the Doubt library's `Syntax` layer and annotated tree `Cofree`. These are declared
  in a library that is not part of this model, so only what the driver uses is written here:
  the shapes, `Syntax.map`, and `Cofree.map` with the relation `MappedFrom` that specifies it.
- `classifier.dfy`: the raw parse node, the production sets, the classification closure `Step`,
  the unfold `Unfold`, the annotation `AnnotationOf`, `TermWithInput`, and the lemmas about them.
- `file_types.dfy`: the extension table and the three guards on the two files' extensions.

The raw tree-sitter node is the datatype `RawNode`. It holds the node's range, its named children
in source order, and the results of its two throwing queries: `category` (the production name,
`category(document)`) and `substring` (its text, `substring(string)`). `None` means the query
throws. The input text is therefore a parameter of the tree, not of the functions.

## Model

| member | source | states |
|---|---|---|
| `Wrappers.TryMap` | prototype/doubt-difftool/main.swift:46-48 | the throwing `map` succeeds exactly when every call succeeds; it then has one result per element, in order, each being that element's result |
| `Doubt.Map` | prototype/doubt-difftool/main.swift:65-67 | `Cofree.map` keeps the tree's shape, leaf texts and keys, and annotates every node with `f` of the annotation at the same place |
| `Doubt.MappedFromEvery` | prototype/doubt-difftool/main.swift:65-67 | a mapped tree satisfies `p` at every node when `p` holds of every value `f` can produce |
| `Classifier.Step` | prototype/doubt-difftool/main.swift:41-63 | the closure's layer lists every named child of the node exactly once, in source order, each seeded with a category equal to that child's own category (also for `pair` entries of an object) |
| `Classifier.Unfold` | prototype/doubt-difftool/main.swift:40-64 | a successful unfold is rooted at the seed it started from |
| `Classifier.StepSucceeds` | prototype/doubt-difftool/main.swift:42-58 | the closure succeeds at a node exactly when every call it makes there succeeds: the leaf's text; every child's category; and inside an object, each entry's key text |
| `Classifier.UnfoldSucceeds` | prototype/doubt-difftool/main.swift:40-63 | the unfold yields a tree exactly when no call anywhere in the tree fails; one failing call below the root makes the whole result `None` |
| `Classifier.TermWithInput` | prototype/doubt-difftool/main.swift:39-68 | the result exists exactly when every call in the tree succeeds; its root is annotated with the root's range and `{"program"}`; it is the unfold from `(root, "program")` with every node annotated by the range of its own parse node and the one category it was classified under (`AnnotationOf`) |
| `Classifier.LeafWhenNoNamedChildren` | prototype/doubt-difftool/main.swift:42-43 | a node without named children becomes a leaf of its own text under any category, or fails when its text cannot be read |
| `Classifier.NoLeafWithNamedChildren` | prototype/doubt-difftool/main.swift:42-63 | an unfolded node is a leaf exactly when it has no named children |
| `Classifier.FixedLayer` | prototype/doubt-difftool/main.swift:45-48 | under a fixed-arity production a node with children is `Fixed`, with as many elements as named children, element `i` being child `i` classified under its own category |
| `Classifier.IndexedLayer` | prototype/doubt-difftool/main.swift:59-62 | under any other category that is not keyed, a node with children is `Indexed`, element `i` being child `i` classified under its own category |
| `Classifier.KeyedLayer` | prototype/doubt-difftool/main.swift:49-58 | when it unfolds, an object with children is `Keyed` with one entry per named child, in order; a `pair` entry is keyed by its first named child's text and classified as `pair`; any other child is keyed by the object's own text and keeps its category |
| `Classifier.SharedFallbackKey` | prototype/doubt-difftool/main.swift:54-56 | when an object unfolds, two of its non-pair children get the same key, the object's own text |
| `Classifier.ProductionsDisjoint` | prototype/doubt-difftool/main.swift:22-23 | `pair` is a fixed-arity production, `object` is not, and the keyed and fixed sets are disjoint |
| `Classifier.PairEntryIsFixed` | prototype/doubt-difftool/main.swift:45-53 | when an object unfolds, a `pair` inside it is itself unfolded as a non-empty `Fixed` tuple whose first element is the node the entry's key was read from |
| `Classifier.UnfoldIsCoherent` | prototype/doubt-difftool/main.swift:40-64 | every node of the unfolded tree is exactly what the closure gives for that node's own seed |
| `Classifier.CoherentIsUnfold` | prototype/doubt-difftool/main.swift:40-64 | conversely, any tree the closure describes at every node is the unfold of its root's seed, so the unfold is the only such tree |
| `Classifier.EveryNodeHasOneCategory` | prototype/doubt-difftool/main.swift:65-67 | every node of the final term carries exactly one category |
| `Classifier.RootCategoryIgnored` | prototype/doubt-difftool/main.swift:64 | the root is classified as `"program"` whatever category the parser gives it: changing the root's category does not change the result |
| `FileTypes.SelectLanguage` | prototype/doubt-difftool/main.swift:78-80 | a grammar is chosen exactly when both extensions are present, equal, and one of `js`, `c`, `h`; otherwise the first failing guard names the error (missing type, different types, unknown type with the extension) |
| `FileTypes.CAndHShareLanguage` | prototype/doubt-difftool/main.swift:16-20 | `c` and `h` select the same grammar, but a `c` file is still not compared with an `h` file |

## Notes on the code's behaviour

- Every `category` and `substring` call can throw. `try?` turns any throw into a `nil` term, and the driver reports "couldn't parse" only afterwards (main.swift:40, 83-84). The model returns `None`; no partial tree is produced.
- Every child of an object that is not a `pair` is keyed by the object's own text (main.swift:56), so two such children give the same key to `Dictionary(elements:)`. `SharedFallbackKey` states this collision for the entry list the model keeps.

## Left out

- Parsing itself: the tree-sitter document calls at main.swift:32-38 are foreign, mutable state. They are replaced by an input tree of `RawNode` values.
- Text extraction: the UTF-16 offset arithmetic at main.swift:10-14 and the conversion inside `substring` belong to library code that is not part of this model. A node's text is an abstract, possibly failing value (`RawNode.substring`), so the model does not relate that text to the input string or to the range.
- `Dictionary(elements:)`: the Doubt library's dictionary constructor is not part of this model, so its policy for duplicate keys is unknown. A keyed layer holds the entry list handed to it, in source order, duplicates included. No lemma says which duplicate survives.
- `Classifier.UnfoldSucceeds`: because the model keeps and unfolds every entry of an object, a repeated key changes failure. The source unfolds only the entries its dictionary keeps. If a call fails inside an entry the dictionary discards, the model gives `None` where the source can return a term. The equivalence with `Succeeds` therefore matches the source only for trees in which no object repeats a key. The source's duplicate-key policy is not part of this model, so it cannot say which entry is discarded.
- `Classifier.TermWithInput`: its "result exists exactly when `Succeeds`" clause has the same gap, for the same reason: the source returns a term in some cases where a failing call sits inside an object entry discarded for a repeated key, and the model does not.
- `Classifier.KeyedEntry`: a `pair` child with no named children makes `$0.namedChildren[0]` trap in the source, which stops the process. The model reports that case as a failed classification (`None`), like a thrown error.
- Evaluation order: the order in which the unfold visits subtrees, and so which failing call is reached first, is not modelled. Only whether a failure occurs is observable, because `try?` discards the error.
- The diff `Interpreter`, `Term.equals`, `comparable` and the patch cost `Free.sum(Patch.sum)` used at main.swift:85 are declared in the Doubt library, which is not part of this model.
- Argument parsing, file reading, JSON construction, writing the output file (main.swift:71-77, 82-84, 86-97) and opening the viewer (main.swift:99-105): these are I/O with no logic of their own.
- The `~=` pattern operator (main.swift:26-28) only lets the `switch` test set membership. The model tests membership directly.
- `FileTypes.SelectLanguage`: `TSLanguage` values are replaced by the enumeration `Language`, and `pathExtension` is taken as an optional string.
