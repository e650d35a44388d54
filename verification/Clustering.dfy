/** Greedy narrative clustering: posts in order of time, each joining the group it fits best. */
module Clustering {
  import opened Wrappers
  import opened Sorting

  type Vector = seq<real>

  datatype Post = Post(id: string, time: int, author: string, vector: Vector)

  type Group = g: seq<Post> | g != [] witness [Post("", 0, "", [])]

  /**
   * `similarity` compares vectors and `centroid` averages a group's; `name` is the text of the identity
   * that a narrative derives from its first post.
   */
  datatype Clusterer = Clusterer(
    threshold: real, minimum: real, similarity: (Vector, Vector) -> real, centroid: seq<Post> -> Vector,
    name: Post -> string)

  predicate NoLater(x: Post, y: Post) { x.time < y.time || (x.time == y.time && StringLe(x.id, y.id)) }

  function ByTime(): (Post, Post) -> bool { (x: Post, y: Post) => NoLater(x, y) }

  /** Python's `min(group, key=(time, id))`: the first of the earliest. */
  function First(group: Group): Post {
    if |group| == 1 then group[0]
    else
      var before := First(group[..|group| - 1]);
      if NoLater(before, group[|group| - 1]) then before else group[|group| - 1]
  }

  /** The least similar member of the group. */
  function Weakest(c: Clusterer, p: Post, group: Group): real {
    var last := c.similarity(p.vector, group[|group| - 1].vector);
    if |group| == 1 then last
    else
      var before := Weakest(c, p, group[..|group| - 1]);
      if last < before then last else before
  }

  datatype Candidate = Candidate(similarity: real, seed: string, index: nat)

  predicate Fits(c: Clusterer, p: Post, group: Group) {
    c.similarity(p.vector, c.centroid(group)) >= c.threshold && Weakest(c, p, group) >= c.minimum
  }

  function Candidates(c: Clusterer, p: Post, groups: seq<Group>): seq<Candidate>
  {
    if groups == [] then []
    else
      var n := |groups| - 1;
      Candidates(c, p, groups[..n])
      + (if Fits(c, p, groups[n])
         then [Candidate(c.similarity(p.vector, c.centroid(groups[n])), First(groups[n]).id, n)] else [])
  }

  /** The most similar first; the seed's id breaks ties. */
  function Better(): (Candidate, Candidate) -> bool {
    (x: Candidate, y: Candidate) =>
      x.similarity > y.similarity || (x.similarity == y.similarity && StringLe(x.seed, y.seed))
  }

  lemma {:induction false} CandidatesFit(c: Clusterer, p: Post, groups: seq<Group>)
    ensures forall x :: x in Candidates(c, p, groups) ==>
              x.index < |groups| && Fits(c, p, groups[x.index])
              && x.similarity == c.similarity(p.vector, c.centroid(groups[x.index]))
    ensures forall i :: 0 <= i < |groups| && Fits(c, p, groups[i]) ==>
            exists x :: x in Candidates(c, p, groups) && x.index == i
  {
    if groups != [] {
      var n := |groups| - 1;
      CandidatesFit(c, p, groups[..n]);
      if Fits(c, p, groups[n]) {
        assert Candidate(c.similarity(p.vector, c.centroid(groups[n])), First(groups[n]).id, n)
            in Candidates(c, p, groups);
      }
      forall i | 0 <= i < |groups| && Fits(c, p, groups[i])
        ensures exists x :: x in Candidates(c, p, groups) && x.index == i
      {
        if i < n {
          assert groups[..n][i] == groups[i];
          var x :| x in Candidates(c, p, groups[..n]) && x.index == i;
          assert x in Candidates(c, p, groups);
        }
      }
    }
  }

  /** The group the post joins, if there is one. */
  function Chosen(c: Clusterer, p: Post, groups: seq<Group>): (r: Option<nat>)
    ensures r.Some? ==> r.value < |groups|
  {
    var ranked := Sort(Candidates(c, p, groups), Better());
    if ranked == [] then None
    else
      SortPermutes(Candidates(c, p, groups), Better());
      CandidatesFit(c, p, groups);
      assert ranked[0] in ranked;
      Some(ranked[0].index)
  }

  function Joined(c: Clusterer, groups: seq<Group>, p: Post): seq<Group> {
    var at := Chosen(c, p, groups);
    if at.Some? then groups[at.value := groups[at.value] + [p]] else groups + [[p]]
  }

  function Grouped(c: Clusterer, ordered: seq<Post>): seq<Group> {
    if ordered == [] then [] else Joined(c, Grouped(c, ordered[..|ordered| - 1]), ordered[|ordered| - 1])
  }

  // ---------------------------------------------------------------- clusters

  datatype Cluster = Cluster(
    first: Post, members: seq<string>, firstSeen: int, lastSeen: int, authors: nat, centroid: Vector)

  function Ids(posts: seq<Post>): (r: seq<string>)
    ensures |r| == |posts| && forall i :: 0 <= i < |r| ==> r[i] == posts[i].id
  {
    seq(|posts|, i requires 0 <= i < |posts| => posts[i].id)
  }

  function Earliest(posts: Group): int {
    var last := posts[|posts| - 1].time;
    if |posts| == 1 then last
    else if last < Earliest(posts[..|posts| - 1]) then last else Earliest(posts[..|posts| - 1])
  }

  function Latest(posts: Group): int {
    var last := posts[|posts| - 1].time;
    if |posts| == 1 then last
    else if last > Latest(posts[..|posts| - 1]) then last else Latest(posts[..|posts| - 1])
  }

  function Materialise(c: Clusterer, group: Group): Cluster {
    Cluster(First(group), Sort(Ids(group), (x, y) => StringLe(x, y)), Earliest(group), Latest(group),
            |set p | p in group :: p.author|, c.centroid(group))
  }

  function MaterialiseEach(c: Clusterer, groups: seq<Group>): (r: seq<Cluster>)
    ensures |r| == |groups| && forall i :: 0 <= i < |r| ==> r[i] == Materialise(c, groups[i])
  {
    seq(|groups|, i requires 0 <= i < |groups| => Materialise(c, groups[i]))
  }

  function ByName(c: Clusterer): (Cluster, Cluster) -> bool {
    (x: Cluster, y: Cluster) => StringLe(c.name(x.first), c.name(y.first))
  }

  function Clusters(c: Clusterer, posts: seq<Post>): seq<Cluster> {
    Sort(MaterialiseEach(c, Grouped(c, Sort(posts, ByTime()))), ByName(c))
  }

  /** Looks at every group for every post, in order of time. */
  method FindClusters(c: Clusterer, posts: seq<Post>) returns (clusters: seq<Cluster>)
    ensures clusters == Clusters(c, posts)
  {
    hide Chosen, Candidates, Sort;
    var ordered := Sort(posts, ByTime());
    var groups: seq<Group> := [];
    for i := 0 to |ordered|
      invariant groups == Grouped(c, ordered[..i])
    {
      assert ordered[..i + 1][..i] == ordered[..i];
      var post := ordered[i];
      var candidates := Collect(c, post, groups);
      BestIsChosen(c, post, groups);
      if candidates != [] {
        var ranked := Sort(candidates, Better());
        var selected := ranked[0].index;
        groups := groups[selected := groups[selected] + [post]];
      } else {
        groups := groups + [[post]];
      }
    }
    assert ordered[..|ordered|] == ordered;
    clusters := Sort(MaterialiseEach(c, groups), ByName(c));
  }

  lemma BestIsChosen(c: Clusterer, p: Post, groups: seq<Group>)
    ensures var candidates, ranked := Candidates(c, p, groups), Sort(Candidates(c, p, groups), Better());
            if candidates == [] then Chosen(c, p, groups) == None
            else ranked != [] && ranked[0].index < |groups| && Chosen(c, p, groups) == Some(ranked[0].index)
  {
    SortPermutes(Candidates(c, p, groups), Better());
    CandidatesFit(c, p, groups);
  }

  /** The groups a post fits. */
  method Collect(c: Clusterer, post: Post, groups: seq<Group>) returns (candidates: seq<Candidate>)
    ensures candidates == Candidates(c, post, groups)
  {
    candidates := [];
    for k := 0 to |groups|
      invariant candidates == Candidates(c, post, groups[..k])
    {
      assert groups[..k + 1][..k] == groups[..k];
      var group := groups[k];
      var similarity := c.similarity(post.vector, c.centroid(group));
      if similarity >= c.threshold && Weakest(c, post, group) >= c.minimum {
        candidates := candidates + [Candidate(similarity, First(group).id, k)];
      }
    }
    assert groups[..|groups|] == groups;
  }

  // ---------------------------------------------------------------- partition

  function Flat(groups: seq<Group>): multiset<Post> {
    if groups == [] then multiset{} else Flat(groups[..|groups| - 1]) + multiset(groups[|groups| - 1])
  }

  lemma {:induction false} FlatExtends(groups: seq<Group>, i: nat, p: Post)
    requires i < |groups|
    ensures Flat(groups[i := groups[i] + [p]]) == Flat(groups) + multiset{p}
  {
    var n := |groups| - 1;
    var next := groups[i := groups[i] + [p]];
    if i == n {
      assert next[..n] == groups[..n];
    } else {
      assert next[..n] == groups[..n][i := groups[i] + [p]];
      FlatExtends(groups[..n], i, p);
    }
  }

  lemma GroupedOneMore(c: Clusterer, init: seq<Post>, p: Post)
    ensures Grouped(c, init + [p]) == Joined(c, Grouped(c, init), p)
  {
    hide Joined;
    assert (init + [p])[..|init|] == init;
  }

  lemma {:induction false} JoiningKeepsPartition(c: Clusterer, init: seq<Post>, p: Post)
    requires Flat(Grouped(c, init)) == multiset(init)
    ensures Flat(Grouped(c, init + [p])) == multiset(init + [p])
  {
    GroupedOneMore(c, init, p);
    JoiningAddsOne(c, Grouped(c, init), p);
    hide Joined, Flat, Grouped;
    assert multiset(init + [p]) == multiset(init) + multiset{p};
  }

  /** Grouping loses and repeats no post. */
  lemma {:induction false} GroupsPartition(c: Clusterer, ordered: seq<Post>)
    ensures Flat(Grouped(c, ordered)) == multiset(ordered)
  {
    if ordered == [] {
      assert Grouped(c, []) == [];
    } else {
      hide Joined, Flat, Grouped;
      var init, p := ordered[..|ordered| - 1], ordered[|ordered| - 1];
      assert ordered == init + [p];
      GroupsPartition(c, init);
      JoiningKeepsPartition(c, init, p);
    }
  }

  lemma JoiningAddsOne(c: Clusterer, groups: seq<Group>, p: Post)
    ensures Flat(Joined(c, groups, p)) == Flat(groups) + multiset{p}
  {
    hide Chosen;
    var at := Chosen(c, p, groups);
    if at.Some? {
      FlatExtends(groups, at.value, p);
    } else {
      var next: seq<Group> := groups + [[p]];
      assert next[..|groups|] == groups;
    }
  }

  /** The groups of posts with these clusters hold the posts given, each once. */
  lemma {:induction false} ClustersPartition(c: Clusterer, posts: seq<Post>)
    ensures Flat(Grouped(c, Sort(posts, ByTime()))) == multiset(posts)
    ensures multiset(Clusters(c, posts)) == multiset(MaterialiseEach(c, Grouped(c, Sort(posts, ByTime()))))
  {
    GroupsPartition(c, Sort(posts, ByTime()));
    SortPermutes(posts, ByTime());
    SortPermutes(MaterialiseEach(c, Grouped(c, Sort(posts, ByTime()))), ByName(c));
  }

  // ---------------------------------------------------------------- coherence

  /** Each member was close to the centroid of those before it, and to every one of them. */
  ghost predicate Coherent(c: Clusterer, group: seq<Post>) {
    && (forall k :: 0 < k < |group| ==> c.similarity(group[k].vector, c.centroid(group[..k])) >= c.threshold)
    && (forall j, k :: 0 <= j < k < |group| ==> c.similarity(group[k].vector, group[j].vector) >= c.minimum)
  }

  lemma {:induction false} WeakestBounds(c: Clusterer, p: Post, group: Group)
    ensures forall m :: m in group ==> Weakest(c, p, group) <= c.similarity(p.vector, m.vector)
    ensures exists m :: m in group && Weakest(c, p, group) == c.similarity(p.vector, m.vector)
  {
    var last := group[|group| - 1];
    assert last in group;
    if |group| > 1 {
      WeakestBounds(c, p, group[..|group| - 1]);
      assert group == group[..|group| - 1] + [last];
    }
  }

  lemma JoiningStaysCoherent(c: Clusterer, group: Group, p: Post)
    requires Coherent(c, group) && Fits(c, p, group)
    ensures Coherent(c, group + [p])
  {
    var next, n := group + [p], |group|;
    WeakestBounds(c, p, group);
    forall k | 0 < k < |next| ensures c.similarity(next[k].vector, c.centroid(next[..k])) >= c.threshold {
      assert next[..k] == group[..k];
      assert group[..n] == group;
    }
    forall j, k | 0 <= j < k < |next| ensures c.similarity(next[k].vector, next[j].vector) >= c.minimum {
      assert k == n ==> group[j] in group;
    }
  }

  lemma {:induction false} GroupsAreCoherent(c: Clusterer, ordered: seq<Post>)
    ensures forall g :: g in Grouped(c, ordered) ==> Coherent(c, g)
  {
    if ordered != [] {
      var init, p := ordered[..|ordered| - 1], ordered[|ordered| - 1];
      GroupsAreCoherent(c, init);
      var groups := Grouped(c, init);
      var at := Chosen(c, p, groups);
      if at.Some? {
        ChosenFits(c, p, groups);
        var g := groups[at.value];
        assert g in groups;
        JoiningStaysCoherent(c, g, p);
        forall h | h in groups[at.value := g + [p]] ensures Coherent(c, h) {
          assert h in groups || h == g + [p];
        }
      } else {
        forall h | h in groups + [[p]] ensures Coherent(c, h) {
          assert h in groups || h == [p];
        }
      }
    }
  }

  /** A post joins a group it fits, none fitting is closer, and it starts its own only if none fits. */
  lemma ChosenFits(c: Clusterer, p: Post, groups: seq<Group>)
    ensures Chosen(c, p, groups).None? <==> forall i :: 0 <= i < |groups| ==> !Fits(c, p, groups[i])
    ensures var at := Chosen(c, p, groups);
            at.Some? ==> Fits(c, p, groups[at.value]) && forall i :: 0 <= i < |groups| && Fits(c, p, groups[i]) ==>
                   c.similarity(p.vector, c.centroid(groups[i])) <= c.similarity(p.vector, c.centroid(groups[at.value]))
  {
    var all := Candidates(c, p, groups);
    var ranked := Sort(all, Better());
    CandidatesFit(c, p, groups);
    SortPermutes(all, Better());
    BetterOrders();
    SortSorts(all, Better());
    if ranked != [] {
      assert ranked[0] in ranked;
      forall i | 0 <= i < |groups| && Fits(c, p, groups[i])
        ensures c.similarity(p.vector, c.centroid(groups[i])) <= ranked[0].similarity
      {
        var x :| x in all && x.index == i;
        HeadIsLeast(ranked, x, Better());
      }
    }
  }

  lemma BetterOrders()
    ensures Ordering(Better()) && forall x :: Better()(x, x)
  {
    forall x, y ensures Better()(x, y) || Better()(y, x) {
      StringLeTotal(x.seed, y.seed);
    }
    forall x, y, z | Better()(x, y) && Better()(y, z) ensures Better()(x, z) {
      if x.similarity == y.similarity == z.similarity {
        StringLeTransitive(x.seed, y.seed, z.seed);
      }
    }
  }

  ghost predicate Symmetric(c: Clusterer) {
    forall v, w :: c.similarity(v, w) == c.similarity(w, v)
  }

  /** Any two posts of a narrative are at least minimally similar. */
  lemma {:induction false} MembersAreSimilar(c: Clusterer, posts: seq<Post>, g: seq<Post>, x: Post, y: Post)
    requires Symmetric(c) && g in Grouped(c, Sort(posts, ByTime())) && x in g && y in g
    ensures x != y ==> c.similarity(x.vector, y.vector) >= c.minimum
  {
    GroupsAreCoherent(c, Sort(posts, ByTime()));
    var i :| 0 <= i < |g| && g[i] == x;
    var j :| 0 <= j < |g| && g[j] == y;
  }

  // ---------------------------------------------------------------- order of arrival

  lemma ByTimeOrders()
    ensures Ordering(ByTime())
  {
    forall x, y, z ensures (NoLater(x, y) || NoLater(y, x)) && (NoLater(x, y) && NoLater(y, z) ==> NoLater(x, z)) {
      EarlierOrder(x, y, z);
    }
  }

  ghost predicate DistinctIds(posts: seq<Post>) {
    forall x, y :: x in posts && y in posts && x.id == y.id ==> x == y
  }

  /** The narratives do not depend on the order in which the posts are given. */
  lemma {:induction false} ArrivalIsIrrelevant(c: Clusterer, posts: seq<Post>, others: seq<Post>)
    requires multiset(posts) == multiset(others) && DistinctIds(posts)
    ensures Clusters(c, posts) == Clusters(c, others)
  {
    ByTimeOrders();
    forall x, y | x in posts && y in posts && NoLater(x, y) && NoLater(y, x) ensures x == y {
      StringLeAntisymmetric(x.id, y.id);
    }
    SortIgnoresArrival(posts, others, ByTime());
  }

  // ---------------------------------------------------------------- what a narrative reports

  lemma {:induction false} ReportsItsMembers(c: Clusterer, group: Group)
    ensures var r := Materialise(c, group);
            && r.first in group && (forall p :: p in group ==> NoLater(r.first, p))
            && r.firstSeen == r.first.time && (forall p :: p in group ==> r.firstSeen <= p.time <= r.lastSeen)
            && multiset(r.members) == multiset(Ids(group))
  {
    FirstIsEarliest(group);
    TimesBound(group);
    SortPermutes(Ids(group), (x, y) => StringLe(x, y));
  }

  lemma FirstOfMore(init: Group, p: Post)
    ensures First(init + [p]) == if NoLater(First(init), p) then First(init) else p
  {
    assert (init + [p])[..|init|] == init;
  }

  lemma FirstStaysEarliest(init: Group, p: Post)
    requires First(init) in init && forall q :: q in init ==> NoLater(First(init), q)
    ensures First(init + [p]) in init + [p] && forall q :: q in init + [p] ==> NoLater(First(init + [p]), q)
  {
    FirstOfMore(init, p);
    hide NoLater, First;
    EarlierOrder(p, First(init), p);
    EarlierOrder(p, p, p);
    forall q | q in init ensures NoLater(First(init + [p]), q) {
      EarlierOrder(p, First(init), q);
    }
  }

  lemma {:induction false} FirstIsEarliest(group: Group)
    ensures First(group) in group && forall p :: p in group ==> NoLater(First(group), p)
  {
    var init, last := group[..|group| - 1], group[|group| - 1];
    assert group == init + [last];
    if init == [] {
      EarlierOrder(last, last, last);
    } else {
      FirstIsEarliest(init);
      FirstStaysEarliest(init, last);
    }
  }

  lemma EarlierOrder(x: Post, y: Post, z: Post)
    ensures NoLater(x, y) || NoLater(y, x)
    ensures NoLater(x, y) && NoLater(y, z) ==> NoLater(x, z)
  {
    StringLeTotal(x.id, y.id);
    if x.time == y.time == z.time && StringLe(x.id, y.id) && StringLe(y.id, z.id) {
      StringLeTransitive(x.id, y.id, z.id);
    }
  }

  lemma {:induction false} TimesBound(group: Group)
    ensures (forall p :: p in group ==> Earliest(group) <= p.time <= Latest(group))
    ensures (exists p :: p in group && p.time == Earliest(group)) && (exists p :: p in group && p.time == Latest(group))
  {
    var init, last := group[..|group| - 1], group[|group| - 1];
    assert group == init + [last] && last in group;
    if |group| > 1 {
      TimesBound(init);
      var e :| e in init && e.time == Earliest(init);
      var l :| l in init && l.time == Latest(init);
      assert e in group && l in group;
    }
  }
}
