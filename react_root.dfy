/**
 * ReactRootAwareViewGroup.getReactRootView: the nearest ReactRootView above
 * a view group, found by walking parent links, jumping over intermediate
 * root-aware groups through their own (memoised) answer, and cached per
 * group once found.
 */
module ReactRoots {
  import opened Options

  /** The class of a view in the hierarchy. */
  datatype NodeKind = RootViewKind | AwareGroupKind | PlainKind

  /**
   * A view hierarchy: parent links (absent for a view without a parent),
   * the class of every view, and the mReactRootView cache of every
   * root-aware group that has found its root.
   */
  class ViewTree {
    const parent: map<int, int>
    const kind: map<int, NodeKind>
    /** Distance from the top of the hierarchy; a parent is always nearer the top. */
    ghost const depth: map<int, nat>
    var cache: map<int, int>

    /** Every parent is a known view, and parent links never loop. */
    ghost predicate TreeValid()
    {
      && (forall n :: n in kind ==> n in depth)
      && (forall n :: n in parent ==>
            n in kind && parent[n] in kind && n in depth && parent[n] in depth && depth[parent[n]] < depth[n])
    }

    /** The nearest ReactRootView strictly above n. */
    ghost function FirstRootAbove(n: int): (r: Option<int>)
      requires TreeValid() && n in kind
      ensures r.Some? ==> r.value in kind && kind[r.value] == RootViewKind && r.value in depth && depth[r.value] < depth[n]
      decreases depth[n]
    {
      if n !in parent then None
      else if kind[parent[n]] == RootViewKind then Some(parent[n])
      else FirstRootAbove(parent[n])
    }

    /** Every cached root is the root the walk would find. */
    ghost predicate CacheSound()
      reads this
    {
      TreeValid() &&
      forall g :: g in cache ==> g in kind && kind[g] == AwareGroupKind && FirstRootAbove(g) == Some(cache[g])
    }

    constructor (parent: map<int, int>, kind: map<int, NodeKind>, ghost depth: map<int, nat>)
      requires forall n :: n in kind ==> n in depth
      requires forall n :: n in parent ==>
        n in kind && parent[n] in kind && n in depth && parent[n] in depth && depth[parent[n]] < depth[n]
      ensures this.parent == parent && this.kind == kind && cache == map[]
      ensures CacheSound()
    {
      this.parent := parent;
      this.kind := kind;
      this.depth := depth;
      cache := map[];
    }

    /** Where the walk goes from a current ancestor p: stop at a root, otherwise keep looking above p. */
    ghost function Continue(p: Option<int>): Option<int>
      requires TreeValid()
      requires p.Some? ==> p.value in kind
    {
      if p.None? then None
      else if kind[p.value] == RootViewKind then p
      else FirstRootAbove(p.value)
    }

    /**
     * getReactRootView on the root-aware group g: the cached root when there
     * is one; otherwise the walk, whose answer is cached only when it found a
     * root, so a failed walk is retried on the next call.
     */
    method GetReactRootView(g: int) returns (r: Option<int>)
      requires CacheSound()
      requires g in kind && kind[g] == AwareGroupKind
      modifies this
      ensures CacheSound()
      ensures r == FirstRootAbove(g)
      ensures g in old(cache) ==> r == Some(old(cache)[g]) && cache == old(cache)
      ensures r.Some? <==> g in cache
      ensures forall h :: h in old(cache) ==> h in cache && cache[h] == old(cache)[h]
      // Only g and groups above it are added to the cache.
      ensures forall h :: h in cache && h !in old(cache) ==> h in depth && depth[h] <= depth[g]
      decreases depth[g]
    {
      if g in cache {
        return Some(cache[g]);
      }
      var p: Option<int> := if g in parent then Some(parent[g]) else None;
      while p.Some? && kind[p.value] != RootViewKind
        invariant CacheSound()
        invariant p.Some? ==> p.value in kind && p.value in depth && depth[p.value] < depth[g]
        invariant Continue(p) == FirstRootAbove(g)
        invariant g !in cache
        invariant forall h :: h in old(cache) ==> h in cache && cache[h] == old(cache)[h]
        invariant forall h :: h in cache && h !in old(cache) ==> h in depth && depth[h] < depth[g]
        decreases if p.Some? then depth[p.value] + 1 else 0
      {
        var q := p.value;
        if kind[q] == AwareGroupKind {
          p := GetReactRootView(q);
        } else {
          p := if q in parent then Some(parent[q]) else None;
        }
      }
      if p.Some? {
        cache := cache[g := p.value];
      }
      r := p;
    }
  }
}
