/** What the walk's verdict means without the walk: every object is reached along exactly one path
    (packages/cli/src/assignedCapture.ts:112-149). */
module TreePaths {
  import opened TreeCheck

  /** Plain data: a leaf, or a plain object or array, not too long and without gaps or extra keys, that is not a proxy
      and whose fields are all enumerable and none a getter or setter. */
  ghost predicate IsData(g: Graph, v: Value, limits: Limits) {
    || v == Leaf
    || (v.Ref? && v.id in g
        && var Object(proxy, plain, isArray, length, fields) := g[v.id];
           && !proxy && plain && (isArray ==> length == |fields| <= limits.arrayLength)
           && forall f :: f in fields ==> f == Field(true, false, true, f.value))
  }

  lemma DataMeans(g: Graph, v: Value, limits: Limits)
    ensures ValueOk(g, v, limits) <==> IsData(g, v, limits)
  {
    if IsData(g, v, limits) && v.Ref? {
      forall i | 0 <= i < |g[v.id].fields| ensures FieldOk(g[v.id].fields[i]) {
        assert g[v.id].fields[i] in g[v.id].fields;
      }
    }
  }

  /** Along every path from the root the values are plain data and not too deep, and no object ends two paths. */
  ghost predicate OneTree(g: Graph, root: Value, limits: Limits) {
    && (forall p: Path, v :: Leads(g, root, p, v) ==> |p| <= limits.depth && IsData(g, v, limits))
    && (forall p: Path, q: Path, id :: Leads(g, root, p, Ref(id)) && Leads(g, root, q, Ref(id)) ==> p == q)
  }

  /** These are all the paths from the root, each with the value it ends in. */
  ghost predicate AllPaths(g: Graph, root: Value, paths: set<Visit>) {
    forall p: Path, v :: Visit(p, v) in paths <==> Leads(g, root, p, v)
  }

  /** There are no more than so many paths. */
  ghost predicate AtMost(g: Graph, root: Value, limit: nat) {
    exists paths: set<Visit> :: AllPaths(g, root, paths) && |paths| <= limit
  }

  // ---------------------------------------------------------------- every visit is a path

  lemma {:induction false} VisitIsPath(g: Graph, v: Value, path: Path, limits: Limits, visit: Visit)
    requires |path| <= limits.depth + 1 && visit in Unfold(g, v, path, limits)
    ensures path <= visit.path && Leads(g, v, visit.path[|path|..], visit.value)
    decreases 2 * (limits.depth + 1 - |path|) + 1, 0
  {
    if visit != Visit(path, v) {
      FieldVisitIsPath(g, g[v.id].fields, path, |g[v.id].fields|, limits, visit);
      var sub := visit.path[|path|..];
      assert sub[1..] == visit.path[|path| + 1..];
    }
  }

  lemma {:induction false} FieldVisitIsPath(g: Graph, fields: seq<Field>, path: Path, n: nat, limits: Limits,
                                            visit: Visit)
    requires |path| <= limits.depth && n <= |fields| && visit in UnfoldFields(g, fields, path, n, limits)
    ensures |path| < |visit.path| && path <= visit.path && visit.path[|path|] < n
    ensures Leads(g, fields[visit.path[|path|]].value, visit.path[|path| + 1..], visit.value)
    decreases 2 * (limits.depth + 1 - |path|), n
  {
    if visit in Unfold(g, fields[n - 1].value, path + [n - 1], limits) {
      VisitIsPath(g, fields[n - 1].value, path + [n - 1], limits, visit);
      assert path + [n - 1] <= visit.path;
      assert visit.path[|path|] == (path + [n - 1])[|path|];
    } else {
      FieldVisitIsPath(g, fields, path, n - 1, limits, visit);
    }
  }

  // ---------------------------------------------------------------- no path is visited twice

  ghost predicate PathsDiffer(visits: seq<Visit>) {
    forall i, j :: 0 <= i < j < |visits| ==> visits[i].path != visits[j].path
  }

  lemma JoinDiffers(a: seq<Visit>, b: seq<Visit>)
    requires PathsDiffer(a) && PathsDiffer(b)
    requires forall x, y :: x in a && y in b ==> x.path != y.path
    ensures PathsDiffer(a + b)
  {
    var c := a + b;
    forall i, j | 0 <= i < j < |c| ensures c[i].path != c[j].path {
      if i < |a| <= j {
        assert c[i] in a && c[j] in b;
      }
    }
  }

  lemma {:induction false} VisitsDiffer(g: Graph, v: Value, path: Path, limits: Limits)
    requires |path| <= limits.depth + 1
    ensures PathsDiffer(Unfold(g, v, path, limits))
    decreases 2 * (limits.depth + 1 - |path|) + 1, 0
  {
    if |path| <= limits.depth && v.Ref? && ValueOk(g, v, limits) {
      var fields := g[v.id].fields;
      FieldVisitsDiffer(g, fields, path, |fields|, limits);
      var below := UnfoldFields(g, fields, path, |fields|, limits);
      forall y | y in below ensures y.path != path {
        FieldVisitIsPath(g, fields, path, |fields|, limits, y);
      }
      JoinDiffers([Visit(path, v)], below);
    }
  }

  lemma {:induction false} FieldVisitsDiffer(g: Graph, fields: seq<Field>, path: Path, n: nat, limits: Limits)
    requires |path| <= limits.depth && n <= |fields|
    ensures PathsDiffer(UnfoldFields(g, fields, path, n, limits))
    decreases 2 * (limits.depth + 1 - |path|), n
  {
    if n > 0 {
      var first := Unfold(g, fields[n - 1].value, path + [n - 1], limits);
      var rest := UnfoldFields(g, fields, path, n - 1, limits);
      VisitsDiffer(g, fields[n - 1].value, path + [n - 1], limits);
      FieldVisitsDiffer(g, fields, path, n - 1, limits);
      forall x, y | x in first && y in rest ensures x.path != y.path {
        VisitIsPath(g, fields[n - 1].value, path + [n - 1], limits, x);
        FieldVisitIsPath(g, fields, path, n - 1, limits, y);
        assert x.path[|path|] == (path + [n - 1])[|path|];
      }
      JoinDiffers(first, rest);
    }
  }

  // ---------------------------------------------------------------- every path is visited

  lemma {:induction false} ChildIsMet(g: Graph, fields: seq<Field>, path: Path, n: nat, limits: Limits, i: nat,
                                      visit: Visit)
    requires |path| <= limits.depth && i < n <= |fields|
    requires visit in Unfold(g, fields[i].value, path + [i], limits)
    ensures visit in UnfoldFields(g, fields, path, n, limits)
    decreases n
  {
    if i < n - 1 {
      ChildIsMet(g, fields, path, n - 1, limits, i, visit);
    }
  }

  lemma {:induction false} PathIsMet(g: Graph, v: Value, path: Path, limits: Limits, sub: Path, to: Value)
    requires |path| <= limits.depth + 1 && Leads(g, v, sub, to)
    requires forall visit :: visit in Unfold(g, v, path, limits) ==> VisitOk(g, visit, limits)
    ensures Visit(path + sub, to) in Unfold(g, v, path, limits)
    decreases |sub|
  {
    assert Unfold(g, v, path, limits)[0] == Visit(path, v);
    if sub == [] {
      assert path + sub == path;
    } else {
      assert VisitOk(g, Visit(path, v), limits);
      var fields, i := g[v.id].fields, sub[0];
      forall visit | visit in Unfold(g, fields[i].value, path + [i], limits) ensures VisitOk(g, visit, limits) {
        ChildIsMet(g, fields, path, |fields|, limits, i, visit);
      }
      PathIsMet(g, fields[i].value, path + [i], limits, sub[1..], to);
      assert (path + [i]) + sub[1..] == path + sub;
      ChildIsMet(g, fields, path, |fields|, limits, i, Visit(path + sub, to));
    }
  }

  // ---------------------------------------------------------------- one tree

  lemma WalkSeesOneTree(g: Graph, root: Value, limits: Limits)
    requires WalkOk(g, root, limits)
    ensures OneTree(g, root, limits)
  {
    hide ValueOk, IsData;
    var visits := Unfold(g, root, [], limits);
    forall p: Path, v | Leads(g, root, p, v)
      ensures Visit(p, v) in visits && VisitOk(g, Visit(p, v), limits) && IsData(g, v, limits)
    {
      PathIsMet(g, root, [], limits, p, v);
      assert [] + p == p;
      DataMeans(g, v, limits);
    }
    forall p: Path, q: Path, id | Leads(g, root, p, Ref(id)) && Leads(g, root, q, Ref(id)) ensures p == q {
      assert Visit(p, Ref(id)) in visits && Visit(q, Ref(id)) in visits;
      var i :| 0 <= i < |visits| && visits[i] == Visit(p, Ref(id));
      var j :| 0 <= j < |visits| && visits[j] == Visit(q, Ref(id));
      assert visits[i].value == visits[j].value && visits[i].value.Ref?;
      assert i == j;
    }
  }

  // ---------------------------------------------------------------- counting paths

  function VisitSet(visits: seq<Visit>): set<Visit> {
    set visit | visit in visits
  }

  lemma {:induction false} VisitsAreCounted(visits: seq<Visit>)
    requires PathsDiffer(visits)
    ensures |VisitSet(visits)| == |visits|
  {
    if visits != [] {
      var last := |visits| - 1;
      VisitsAreCounted(visits[..last]);
      assert visits == visits[..last] + [visits[last]];
      assert VisitSet(visits) == VisitSet(visits[..last]) + {visits[last]};
      assert visits[last] !in visits[..last];
    }
  }

  lemma SubsetIsSmaller(a: set<Visit>, b: set<Visit>)
    requires a <= b
    ensures |a| <= |b|
  {
    assert b == a + (b - a);
  }

  /** What a walk meets are paths; a walk that is not cut off meets all of them. */
  lemma VisitsArePaths(g: Graph, root: Value, limits: Limits, paths: set<Visit>)
    requires AllPaths(g, root, paths)
    ensures |Unfold(g, root, [], limits)| <= |paths|
  {
    hide Unfold, Leads;
    var visits := Unfold(g, root, [], limits);
    VisitsDiffer(g, root, [], limits);
    VisitsAreCounted(visits);
    forall visit | visit in visits ensures visit in paths {
      VisitIsPath(g, root, [], limits, visit);
      assert visit.path[0..] == visit.path;
      assert visit == Visit(visit.path, visit.value);
    }
    SubsetIsSmaller(VisitSet(visits), paths);
  }

  lemma WalkCountsPaths(g: Graph, root: Value, limits: Limits)
    requires WalkOk(g, root, limits)
    ensures AtMost(g, root, limits.nodes)
  {
    hide Leads, ValueOk;
    var visits := Unfold(g, root, [], limits);
    VisitsDiffer(g, root, [], limits);
    VisitsAreCounted(visits);
    hide Unfold;
    forall p: Path, v ensures Visit(p, v) in VisitSet(visits) <==> Leads(g, root, p, v) {
      if Leads(g, root, p, v) {
        PathIsMet(g, root, [], limits, p, v);
        assert [] + p == p;
      }
      if Visit(p, v) in visits {
        VisitIsPath(g, root, [], limits, Visit(p, v));
        assert p[0..] == p;
      }
    }
    assert AllPaths(g, root, VisitSet(visits));
  }

  // ---------------------------------------------------------------- the theorem

  lemma OneTreeIsWalked(g: Graph, root: Value, limits: Limits)
    requires OneTree(g, root, limits) && |Unfold(g, root, [], limits)| <= limits.nodes
    ensures WalkOk(g, root, limits)
  {
    hide ValueOk, IsData;
    var visits := Unfold(g, root, [], limits);
    forall i | 0 <= i < |visits|
      ensures Leads(g, root, visits[i].path, visits[i].value) && ValueOk(g, visits[i].value, limits)
    {
      VisitIsPath(g, root, [], limits, visits[i]);
      assert visits[i].path[0..] == visits[i].path;
      DataMeans(g, visits[i].value, limits);
    }
    VisitsDiffer(g, root, [], limits);
    forall i, j | 0 <= i < j < |visits| && visits[i].value.Ref? ensures visits[i].value != visits[j].value {
      assert visits[i].path != visits[j].path;
    }
  }

  /** The walk accepts exactly the graphs in which every object is reached by one path, everything reached is
      allowed and within the depth, and there are no more paths than values allowed. */
  lemma AcceptsExactlyTrees(g: Graph, root: Value, limits: Limits)
    ensures WalkOk(g, root, limits) <==> OneTree(g, root, limits) && AtMost(g, root, limits.nodes)
  {
    hide OneTree, WalkOk, Unfold;
    if WalkOk(g, root, limits) {
      WalkSeesOneTree(g, root, limits);
      WalkCountsPaths(g, root, limits);
    }
    if OneTree(g, root, limits) && AtMost(g, root, limits.nodes) {
      var paths :| AllPaths(g, root, paths) && |paths| <= limits.nodes;
      VisitsArePaths(g, root, limits, paths);
      OneTreeIsWalked(g, root, limits);
    }
  }
}
