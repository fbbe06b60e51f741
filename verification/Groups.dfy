/** Disjoint groups with path compression, as the layout passes use them.

A group's root is always its least key, so chasing parents descends. Besides
saying what each operation does to the roots, the class proves that its groups
are exactly the finest ones in which every joined pair is together. */
module Groups {
  import opened Sets

  /** Object identifiers; only their order is used. */
  datatype Name = Name(rank: nat)

  type Parents = map<Name, Name>

  /** The chain of parents from `k` descends, and ends at the key that `roots` names: its own parent, and the least of the chain. */
  ghost predicate Chained(parent: Parents, roots: Parents, k: Name) {
    && k in parent && k in roots
    && parent[k] in parent && parent[k] in roots && parent[k].rank <= k.rank && roots[parent[k]] == roots[k]
    && (parent[k] == k ==> roots[k] == k)
    && roots[k] in parent && roots[k] in roots && parent[roots[k]] == roots[k] && roots[roots[k]] == roots[k]
    && roots[k].rank <= k.rank
  }

  /** Distinct keys have distinct ranks. */
  predicate Descends(from: Name, to: Name) {
    to.rank <= from.rank && to != from ==> to.rank < from.rank
  }

  ghost predicate Ends(parent: Parents, roots: Parents) {
    && (forall k {:trigger Chained(parent, roots, k)} :: k in parent ==> Chained(parent, roots, k))
    && (forall k :: k in roots <==> k in parent)
  }

  function Least(a: Name, b: Name): Name {
    if a.rank <= b.rank then a else b
  }

  function Greatest(a: Name, b: Name): Name {
    if a.rank <= b.rank then b else a
  }

  /** The groups rooted at `a` and `b` become one, whose root is the lesser root. */
  function Merged(root: Name, a: Name, b: Name): Name {
    if root == a || root == b then Least(a, b) else root
  }

  function MergedRoots(roots: Parents, a: Name, b: Name): Parents {
    map x | x in roots :: Merged(roots[x], a, b)
  }

  /** Pointing a key straight at its root moves no chain's end. */
  lemma CompressKeeps(parent: Parents, roots: Parents, key: Name, root: Name)
    requires Ends(parent, roots) && key in parent && key in roots && root == roots[key]
    ensures Ends(parent[key := root], roots)
  {
    var after := parent[key := root];
    assert Chained(parent, roots, key);
    forall k | k in after
      ensures Chained(after, roots, k)
    {
      assert Chained(parent, roots, k);
    }
  }

  /** The parents after joining two roots; joining a root with itself changes nothing. */
  function Linked(parent: Parents, a: Name, b: Name): Parents {
    if a == b then parent else parent[Greatest(a, b) := Least(a, b)]
  }

  lemma LinkMerges(parent: Parents, roots: Parents, a: Name, b: Name)
    requires Ends(parent, roots) && a in parent && b in parent && a in roots && b in roots && roots[a] == a && roots[b] == b
    ensures Ends(Linked(parent, a, b), MergedRoots(roots, a, b))
  {
    var after, merged := Linked(parent, a, b), MergedRoots(roots, a, b);
    assert Chained(parent, roots, a) && Chained(parent, roots, b);
    forall k | k in after
      ensures Chained(after, merged, k)
    {
      assert Chained(parent, roots, k);
    }
  }

  // ---------------------------------------------------------------------------
  // Which groups these are
  // ---------------------------------------------------------------------------

  type Pair = (Name, Name)

  /** `part` separates no joined pair. */
  ghost predicate Saturated(part: set<Name>, pairs: set<Pair>) {
    forall p :: p in pairs ==> (p.0 in part <==> p.1 in part)
  }

  /** `part` separates no key from its root. */
  ghost predicate Together(roots: Parents, part: set<Name>) {
    forall k :: k in roots ==> (k in part <==> roots[k] in part)
  }

  ghost predicate Joined(roots: Parents, pairs: set<Pair>) {
    forall p :: p in pairs ==> p.0 in roots && p.1 in roots && roots[p.0] == roots[p.1]
  }

  /** Every joined pair shares a root, and no group can be split without separating a joined pair. */
  ghost predicate Finest(roots: Parents, pairs: set<Pair>) {
    && Joined(roots, pairs)
    && (forall part :: Saturated(part, pairs) ==> Together(roots, part))
  }

  lemma JoinFinest(roots: Parents, pairs: set<Pair>, left: Name, right: Name)
    requires Finest(roots, pairs) && left in roots && right in roots
    ensures Finest(MergedRoots(roots, roots[left], roots[right]), pairs + {(left, right)})
  {
    var more, after := pairs + {(left, right)}, MergedRoots(roots, roots[left], roots[right]);
    forall part | Saturated(part, more)
      ensures Together(after, part)
    {
      assert (left, right) in more;
      assert Saturated(part, pairs);
      assert Together(roots, part);
    }
  }

  /** Joining fewer pairs gives finer groups. */
  lemma FinerGroups(fine: Parents, coarse: Parents, fewer: set<Pair>, more: set<Pair>, x: Name, y: Name)
    requires Finest(fine, fewer) && Finest(coarse, more) && fewer <= more
    requires fine.Keys == coarse.Keys && x in fine && y in fine && fine[x] == fine[y]
    ensures coarse[x] == coarse[y]
  {
    var part := set k | k in coarse && coarse[k] == coarse[x];
    forall p | p in fewer
      ensures p.0 in part <==> p.1 in part
    {
      assert p in more;
    }
    assert Together(fine, part);
  }

  class Grouping {
    var parent: Parents
    ghost var roots: Parents
    ghost var joined: set<Pair>

    ghost predicate Valid()
      reads this
    {
      Ends(parent, roots) && Finest(roots, joined)
    }

    constructor (keys: set<Name>)
      ensures Valid() && joined == {} && roots == map k | k in keys :: k
    {
      parent := map k | k in keys :: k;
      roots := map k | k in keys :: k;
      joined := {};
    }

    /** Finds the root and shortens the path to it; no group changes. */
    method Find(key: Name) returns (root: Name)
      requires Valid() && key in roots
      modifies this`parent
      ensures Valid() && root == roots[key] && root in roots && roots[root] == root
    {
      root := key;
      assert Chained(parent, roots, root);
      while root != parent[root]
        invariant Chained(parent, roots, root) && roots[root] == roots[key]
        decreases root.rank
      {
        assert Descends(root, parent[root]);
        root := parent[root];
        assert Chained(parent, roots, root);
      }
      parent := Shorten(parent, roots, key, root);
    }

    /** Joins the groups of two keys under the lesser root. */
    method Join(left: Name, right: Name)
      requires Valid() && left in roots && right in roots
      modifies this
      ensures Valid() && joined == old(joined) + {(left, right)}
      ensures roots == MergedRoots(old(roots), old(roots)[left], old(roots)[right])
    {
      var a := Find(left);
      var b := Find(right);
      JoinFinest(roots, joined, left, right);
      joined := joined + {(left, right)};
      LinkMerges(parent, roots, a, b);
      roots := MergedRoots(roots, a, b);
      if a != b {
        parent := parent[Greatest(a, b) := Least(a, b)];
      }
    }

    /** Sorts the keys by group. */
    method Collect() returns (members: map<Name, set<Name>>)
      requires Valid()
      modifies this`parent
      ensures Valid()
      ensures forall r :: r in members <==> exists k :: k in roots && roots[k] == r
      ensures forall r :: r in members ==> members[r] == Members(roots, r)
    {
      members := map[];
      var todo := parent.Keys;
      while todo != {}
        invariant Valid() && forall k :: k in todo ==> k in roots
        invariant forall r :: r in members <==> exists k :: k in roots && k !in todo && roots[k] == r
        invariant forall r, k :: r in members ==> (k in members[r] <==> k in roots && k !in todo && roots[k] == r)
        decreases todo
      {
        var key := Pick(todo);
        var root := Find(key);
        members := members[root := (if root in members then members[root] else {}) + {key}];
        todo := todo - {key};
      }
    }
  }

  /** The members of a group. */
  function Members(roots: Parents, root: Name): set<Name> {
    set k | k in roots && roots[k] == root
  }

  /** Points every key on the path straight at the root. */
  method Shorten(parent0: Parents, ghost roots: Parents, key: Name, root: Name) returns (parent: Parents)
    requires Ends(parent0, roots) && key in parent0 && key in roots && root == roots[key]
    ensures Ends(parent, roots)
  {
    parent := parent0;
    var at := key;
    while at != root
      invariant Ends(parent, roots) && at in parent && at in roots && roots[at] == root
      decreases at.rank
    {
      var following := parent[at];
      assert Chained(parent, roots, at) && Descends(at, following);
      CompressKeeps(parent, roots, at, root);
      parent := parent[at := root];
      at := following;
    }
  }
}
