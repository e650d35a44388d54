/** Which narrative a post joins, and what a narrative reports. */
module ClusteringLaws {
  import opened Wrappers
  import opened Sorting
  import opened Clustering

  // ---------------------------------------------------------------- joining

  function Closeness(c: Clusterer, p: Post, group: Group): real { c.similarity(p.vector, c.centroid(group)) }

  /** The post is close enough to the group's centroid, and to each of its members. */
  ghost predicate Welcomes(c: Clusterer, p: Post, group: Group) {
    Closeness(c, p, group) >= c.threshold && forall m :: m in group ==> c.similarity(p.vector, m.vector) >= c.minimum
  }

  /** The i-th group goes before the j-th: it is closer, or its first post's id is lesser, or it is older. */
  ghost predicate GoesBefore(c: Clusterer, p: Post, groups: seq<Group>, i: nat, j: nat)
    requires i < |groups| && j < |groups|
  {
    var x, y := Closeness(c, p, groups[i]), Closeness(c, p, groups[j]);
    var a, b := First(groups[i]).id, First(groups[j]).id;
    x > y || (x == y && if a == b then i <= j else StringLe(a, b))
  }

  /** Of the groups that welcome the post, the i-th goes before every other. */
  ghost predicate Joins(c: Clusterer, p: Post, groups: seq<Group>, i: nat) {
    && i < |groups| && Welcomes(c, p, groups[i])
    && forall j :: 0 <= j < |groups| && Welcomes(c, p, groups[j]) ==> GoesBefore(c, p, groups, i, j)
  }

  lemma FitsIff(c: Clusterer, p: Post, group: Group)
    ensures Fits(c, p, group) <==> Welcomes(c, p, group)
  {
    WeakestBounds(c, p, group);
  }

  ghost predicate IsCandidate(c: Clusterer, p: Post, groups: seq<Group>, x: Candidate) {
    && x.index < |groups| && Fits(c, p, groups[x.index])
    && x == Candidate(Closeness(c, p, groups[x.index]), First(groups[x.index]).id, x.index)
  }

  ghost predicate Ascending(all: seq<Candidate>) {
    forall j, k :: 0 <= j < k < |all| ==> all[j].index < all[k].index
  }

  lemma {:induction false} CandidatesAscend(c: Clusterer, p: Post, groups: seq<Group>)
    ensures forall x :: x in Candidates(c, p, groups) ==> IsCandidate(c, p, groups, x)
    ensures Ascending(Candidates(c, p, groups))
  {
    if groups != [] {
      var n := |groups| - 1;
      CandidatesAscend(c, p, groups[..n]);
      var init := Candidates(c, p, groups[..n]);
      hide Fits, First;
      forall x | x in init ensures IsCandidate(c, p, groups, x) && x.index < n {
        assert IsCandidate(c, p, groups[..n], x);
      }
      assert forall j :: 0 <= j < |init| ==> init[j] in init;
    }
  }

  lemma {:induction false} FirstOfLevel(all: seq<Candidate>, x: Candidate)
    requires Ascending(all)
    requires LevelWith(all, x, Better()) != []
    ensures var y := LevelWith(all, x, Better())[0];
            y in all && forall z :: z in all && Level(z, x, Better()) ==> y.index <= z.index
  {
    if !Level(all[0], x, Better()) {
      FirstOfLevel(all[1..], x);
      assert all == [all[0]] + all[1..];
    }
  }

  lemma ChosenIsHead(c: Clusterer, p: Post, groups: seq<Group>) returns (x: Candidate)
    requires Chosen(c, p, groups).Some?
    ensures Chosen(c, p, groups) == Some(x.index) && x in Candidates(c, p, groups)
    ensures forall y :: y in Candidates(c, p, groups) ==>
              Better()(x, y) && (Level(y, x, Better()) ==> x.index <= y.index)
  {
    var all, le := Candidates(c, p, groups), Better();
    var ranked := Sort(all, le);
    CandidatesAscend(c, p, groups);
    SortPermutes(all, le);
    BetterOrders();
    SortSorts(all, le);
    x := ranked[0];
    assert x in ranked;
    forall y | y in all ensures le(x, y) {
      HeadIsLeast(ranked, y, le);
    }
    SortIsStable(all, x, le);
    assert Level(x, x, le) && LevelWith(ranked, x, le)[0] == x;
    hide Sort, Candidates;
    FirstOfLevel(all, x);
  }

  lemma CandidateOrder(c: Clusterer, p: Post, groups: seq<Group>, x: Candidate, y: Candidate)
    requires IsCandidate(c, p, groups, x) && IsCandidate(c, p, groups, y)
    requires Better()(x, y) && (Level(y, x, Better()) ==> x.index <= y.index)
    ensures GoesBefore(c, p, groups, x.index, y.index)
  {
  }

  lemma ChosenJoins(c: Clusterer, p: Post, groups: seq<Group>)
    ensures Chosen(c, p, groups).Some? ==> Joins(c, p, groups, Chosen(c, p, groups).value)
    ensures Chosen(c, p, groups).None? ==> forall j :: 0 <= j < |groups| ==> !Welcomes(c, p, groups[j])
  {
    ChosenFits(c, p, groups);
    forall j | 0 <= j < |groups| ensures Fits(c, p, groups[j]) <==> Welcomes(c, p, groups[j]) {
      FitsIff(c, p, groups[j]);
    }
    CandidatesFit(c, p, groups);
    CandidatesAscend(c, p, groups);
    hide Fits, Welcomes, GoesBefore, Candidates, Chosen, First;
    if Chosen(c, p, groups).Some? {
      var x := ChosenIsHead(c, p, groups);
      assert IsCandidate(c, p, groups, x);
      forall j | 0 <= j < |groups| && Welcomes(c, p, groups[j]) ensures GoesBefore(c, p, groups, x.index, j) {
        var y :| y in Candidates(c, p, groups) && y.index == j;
        CandidateOrder(c, p, groups, x, y);
      }
    }
  }

  /**
   * A post joins, of the groups that welcome it, the one that goes before every other: the closest, with the lesser
   * first id among those as close. It starts a group of its own if none welcomes it.
   */
  lemma JoinsIff(c: Clusterer, groups: seq<Group>, p: Post, i: nat)
    ensures Chosen(c, p, groups) == Some(i) <==> Joins(c, p, groups, i)
    ensures Joins(c, p, groups, i) ==> Joined(c, groups, p) == groups[i := groups[i] + [p]]
    ensures (forall j :: 0 <= j < |groups| ==> !Welcomes(c, p, groups[j])) <==> Chosen(c, p, groups).None?
    ensures Chosen(c, p, groups).None? ==> Joined(c, groups, p) == groups + [[p]]
  {
    ChosenJoins(c, p, groups);
    hide Chosen, Welcomes, First, Closeness;
    var at := Chosen(c, p, groups);
    if Joins(c, p, groups, i) && at.Some? {
      var j := at.value;
      assert GoesBefore(c, p, groups, i, j) && GoesBefore(c, p, groups, j, i);
      if First(groups[i]).id != First(groups[j]).id && StringLe(First(groups[i]).id, First(groups[j]).id)
         && StringLe(First(groups[j]).id, First(groups[i]).id) {
        StringLeAntisymmetric(First(groups[i]).id, First(groups[j]).id);
      }
    }
  }

  // ---------------------------------------------------------------- the order of posts and of narratives

  ghost predicate InTime(posts: seq<Post>) {
    forall i, j :: 0 <= i < j < |posts| ==>
      posts[i].time < posts[j].time || (posts[i].time == posts[j].time && StringLe(posts[i].id, posts[j].id))
  }

  function Firsts(groups: seq<Group>): (r: seq<Post>)
    ensures |r| == |groups| && forall i :: 0 <= i < |r| ==> r[i] == groups[i][0]
  {
    seq(|groups|, i requires 0 <= i < |groups| => groups[i][0])
  }

  /** The groups, and the members of each, are in order of time, and their members are among these posts. */
  ghost predicate Chronological(groups: seq<Group>, posts: seq<Post>) {
    && InTime(Firsts(groups)) && (forall g :: g in groups ==> InTime(g))
    && forall g, m :: g in groups && m in g ==> m in posts
  }

  lemma {:induction false} GroupedInTime(c: Clusterer, ordered: seq<Post>)
    requires InTime(ordered)
    ensures Chronological(Grouped(c, ordered), ordered)
  {
    if ordered != [] {
      var init, p := ordered[..|ordered| - 1], ordered[|ordered| - 1];
      assert ordered == init + [p];
      assert InTime(init);
      GroupedInTime(c, init);
      assert forall q :: q in init ==> NoLater(q, p);
      hide Chosen;
      JoiningInTime(c, Grouped(c, init), init, p);
    }
  }

  lemma JoiningInTime(c: Clusterer, groups: seq<Group>, posts: seq<Post>, p: Post)
    requires Chronological(groups, posts) && forall q :: q in posts ==> NoLater(q, p)
    ensures Chronological(Joined(c, groups, p), posts + [p])
  {
    hide Chosen;
    var at := Chosen(c, p, groups);
    if at.Some? {
      var g := groups[at.value];
      assert g in groups && g[0] in g;
      var next := groups[at.value := g + [p]];
      assert InTime(g + [p]) by {
        assert forall i :: 0 <= i < |g| ==> g[i] in g;
      }
      assert Firsts(next) == Firsts(groups);
      assert forall h :: h in next ==> h in groups || h == g + [p];
    } else {
      var next: seq<Group> := groups + [[p]];
      assert forall i :: 0 <= i < |groups| ==> groups[i] in groups && groups[i][0] in groups[i];
      assert forall h :: h in next ==> h in groups || h == [p];
    }
  }

  /** However the posts came, a narrative's members, and the narratives by their first members, follow in time. */
  lemma NarrativesGrowInTime(c: Clusterer, posts: seq<Post>)
    ensures InTime(Sort(posts, ByTime()))
    ensures Chronological(Grouped(c, Sort(posts, ByTime())), Sort(posts, ByTime()))
  {
    ByTimeOrders();
    SortSorts(posts, ByTime());
    var ordered := Sort(posts, ByTime());
    assert forall i, j :: 0 <= i < j < |ordered| ==> ByTime()(ordered[i], ordered[j]);
    GroupedInTime(c, ordered);
  }

  /** Narratives are listed by the text of their identity. */
  lemma ListedByName(c: Clusterer, posts: seq<Post>, i: nat, j: nat)
    requires i < j < |Clusters(c, posts)|
    ensures StringLe(c.name(Clusters(c, posts)[i].first), c.name(Clusters(c, posts)[j].first))
  {
    var le, all := ByName(c), MaterialiseEach(c, Grouped(c, Sort(posts, ByTime())));
    forall x: Cluster, y: Cluster, z: Cluster
      ensures (le(x, y) || le(y, x)) && (le(x, y) && le(y, z) ==> le(x, z))
    {
      StringLeTotal(c.name(x.first), c.name(y.first));
      if le(x, y) && le(y, z) {
        StringLeTransitive(c.name(x.first), c.name(y.first), c.name(z.first));
      }
    }
    SortSorts(all, le);
    assert le(Sort(all, le)[i], Sort(all, le)[j]);
  }

  // ---------------------------------------------------------------- what a narrative reports

  /** The members are listed by id, the span ends with the last of them, and each author is counted once. */
  lemma ReportsInFull(c: Clusterer, group: Group, authors: set<string>)
    requires forall a :: a in authors <==> exists p :: p in group && p.author == a
    ensures var r := Materialise(c, group);
            && (forall i, j :: 0 <= i < j < |r.members| ==> StringLe(r.members[i], r.members[j]))
            && multiset(r.members) == multiset(Ids(group))
            && (exists p :: p in group && p.time == r.lastSeen) && (forall p :: p in group ==> p.time <= r.lastSeen)
            && r.authors == |authors| && r.centroid == c.centroid(group)
  {
    TimesBound(group);
    var le := (x: string, y: string) => StringLe(x, y);
    forall x, y, z ensures (le(x, y) || le(y, x)) && (le(x, y) && le(y, z) ==> le(x, z)) {
      StringLeTotal(x, y);
      if le(x, y) && le(y, z) {
        StringLeTransitive(x, y, z);
      }
    }
    SortSorts(Ids(group), le);
    SortPermutes(Ids(group), le);
    assert authors == set p | p in group :: p.author;
  }
}
