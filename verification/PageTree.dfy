/** The page forest: parents found by id, children lists sorted in place, descendants by a stack. */
module PageTree {
  import opened Domain
  import opened Text

  datatype FlatPage = FlatPage(id: string, parentId: Option<string>, title: string, slug: string, position: int)

  /** `localeCompare` on titles: some total preorder. */
  type TitleOrder = (string, string) -> bool

  ghost predicate TotalPreorder(le: TitleOrder) {
    && (forall a, b :: le(a, b) || le(b, a))
    && (forall a, b, c :: le(a, b) && le(b, c) ==> le(a, c))
  }

  predicate PageLe(le: TitleOrder, a: FlatPage, b: FlatPage) {
    a.position < b.position || (a.position == b.position && le(a.title, b.title))
  }

  predicate DistinctIds(pages: seq<FlatPage>) {
    forall i, j :: 0 <= i < j < |pages| ==> pages[i].id != pages[j].id
  }

  predicate HasId(pages: seq<FlatPage>, id: string) {
    exists p :: p in pages && p.id == id
  }

  // ----- Parents and depth -----

  /** The id of a page's parent among the pages; an absent, empty or unknown parent id gives none. */
  function ParentOf(pages: seq<FlatPage>, p: FlatPage): Option<string> {
    if p.parentId.Some? && p.parentId.value != "" && HasId(pages, p.parentId.value) then p.parentId else None
  }

  function Find(pages: seq<FlatPage>, id: string): (p: FlatPage)
    requires HasId(pages, id)
    ensures p in pages && p.id == id
  {
    if pages[0].id == id then pages[0]
    else
      assert exists q :: q in pages[1..] && q.id == id by {
        var q :| q in pages && q.id == id;
        assert q in pages[1..];
      }
      Find(pages[1..], id)
  }

  /** The page `n` steps up the parent chain. */
  function Up(pages: seq<FlatPage>, p: FlatPage, n: nat): Option<FlatPage>
    decreases n
  {
    if n == 0 then Some(p)
    else
      match ParentOf(pages, p)
      case None => None
      case Some(id) => Up(pages, Find(pages, id), n - 1)
  }

  /** The parent chain ends after exactly `k` steps. */
  predicate RootedIn(pages: seq<FlatPage>, p: FlatPage, k: nat)
    decreases k
  {
    if k == 0 then ParentOf(pages, p).None?
    else ParentOf(pages, p).Some? && RootedIn(pages, Find(pages, ParentOf(pages, p).value), k - 1)
  }

  ghost predicate Rooted(pages: seq<FlatPage>, p: FlatPage) {
    exists k: nat :: RootedIn(pages, p, k)
  }

  lemma {:induction false} DepthUnique(pages: seq<FlatPage>, p: FlatPage, j: nat, k: nat)
    requires RootedIn(pages, p, j) && RootedIn(pages, p, k)
    ensures j == k
    decreases j
  {
    if j > 0 && k > 0 { DepthUnique(pages, Find(pages, ParentOf(pages, p).value), j - 1, k - 1); }
  }

  /** No rooted page is deeper than `bound`. */
  ghost predicate Bounded(pages: seq<FlatPage>, some: seq<FlatPage>, bound: nat) {
    forall p, k: nat :: p in some && RootedIn(pages, p, k) ==> k <= bound
  }

  lemma {:induction false} SomeBound(pages: seq<FlatPage>, some: seq<FlatPage>) returns (bound: nat)
    ensures Bounded(pages, some, bound)
  {
    bound := 0;
    if some != [] {
      var last := some[|some| - 1];
      bound := SomeBound(pages, some[..|some| - 1]);
      assert forall p :: p in some ==> p == last || p in some[..|some| - 1];
      if j: nat :| RootedIn(pages, last, j) {
        forall k: nat | RootedIn(pages, last, k)
          ensures k == j
        {
          DepthUnique(pages, last, j, k);
        }
        bound := if bound < j then j else bound;
      }
    }
  }

  // ----- Children lists -----

  /** The pages under a parent id, or the roots for None, in the order given. */
  function Kids(pages: seq<FlatPage>, some: seq<FlatPage>, parent: Option<string>): seq<FlatPage> {
    if some == [] then []
    else
      var last := some[|some| - 1];
      Kids(pages, some[..|some| - 1], parent) + if ParentOf(pages, last) == parent then [last] else []
  }

  lemma {:induction false} KidsCount(pages: seq<FlatPage>, some: seq<FlatPage>, parent: Option<string>, p: FlatPage)
    ensures multiset(Kids(pages, some, parent))[p] == if ParentOf(pages, p) == parent then multiset(some)[p] else 0
    ensures p in Kids(pages, some, parent) <==> p in some && ParentOf(pages, p) == parent
  {
    if some != [] {
      var init, last := some[..|some| - 1], some[|some| - 1];
      assert some == init + [last];
      KidsCount(pages, init, parent, p);
    }
  }

  /** Stable insertion: behind everything that is not greater. */
  function Insert(le: TitleOrder, p: FlatPage, s: seq<FlatPage>): seq<FlatPage> {
    if s == [] then [p]
    else
      var last := s[|s| - 1];
      if PageLe(le, last, p) then s + [p] else Insert(le, p, s[..|s| - 1]) + [last]
  }

  function SortPages(le: TitleOrder, s: seq<FlatPage>): seq<FlatPage> {
    if s == [] then [] else Insert(le, s[|s| - 1], SortPages(le, s[..|s| - 1]))
  }

  ghost predicate Sorted(le: TitleOrder, s: seq<FlatPage>) {
    forall i, j :: 0 <= i < j < |s| ==> PageLe(le, s[i], s[j])
  }

  lemma PageLeTrans(le: TitleOrder, a: FlatPage, b: FlatPage, c: FlatPage)
    requires TotalPreorder(le) && PageLe(le, a, b) && PageLe(le, b, c)
    ensures PageLe(le, a, c)
  {}

  lemma PageLeTotal(le: TitleOrder, a: FlatPage, b: FlatPage)
    requires TotalPreorder(le)
    ensures PageLe(le, a, b) || PageLe(le, b, a)
  {}

  lemma {:induction false} InsertFacts(le: TitleOrder, p: FlatPage, s: seq<FlatPage>)
    requires TotalPreorder(le) && Sorted(le, s)
    ensures Sorted(le, Insert(le, p, s)) && multiset(Insert(le, p, s)) == multiset(s) + multiset{p}
  {
    hide TotalPreorder, PageLe;
    if s != [] {
      var init, last := s[..|s| - 1], s[|s| - 1];
      assert s == init + [last];
      if PageLe(le, last, p) {
        forall i | 0 <= i < |s|
          ensures PageLe(le, s[i], p)
        {
          if i < |init| { PageLeTrans(le, s[i], last, p); }
        }
      } else {
        InsertFacts(le, p, init);
        PageLeTotal(le, last, p);
        var t := Insert(le, p, init);
        forall i | 0 <= i < |t|
          ensures PageLe(le, t[i], last)
        {
          assert t[i] in multiset(t);
        }
      }
    }
  }

  /** Siblings come out ordered by position and title, none lost and none twice. */
  lemma {:induction false} SortFacts(le: TitleOrder, s: seq<FlatPage>)
    requires TotalPreorder(le)
    ensures Sorted(le, SortPages(le, s)) && multiset(SortPages(le, s)) == multiset(s)
  {
    if s != [] {
      assert s == s[..|s| - 1] + [s[|s| - 1]];
      SortFacts(le, s[..|s| - 1]);
      InsertFacts(le, s[|s| - 1], SortPages(le, s[..|s| - 1]));
    }
  }

  lemma {:induction false} SortedStays(le: TitleOrder, s: seq<FlatPage>)
    requires Sorted(le, s)
    ensures SortPages(le, s) == s
  {
    if s != [] {
      SortedStays(le, s[..|s| - 1]);
    }
  }

  function SortedKids(pages: seq<FlatPage>, le: TitleOrder, parent: Option<string>): seq<FlatPage> {
    SortPages(le, Kids(pages, pages, parent))
  }

  lemma KidsMembers(pages: seq<FlatPage>, le: TitleOrder, parent: Option<string>, p: FlatPage)
    requires TotalPreorder(le)
    ensures p in SortedKids(pages, le, parent) <==> p in pages && ParentOf(pages, p) == parent
    ensures multiset(SortedKids(pages, le, parent))[p] == if ParentOf(pages, p) == parent then multiset(pages)[p] else 0
  {
    SortFacts(le, Kids(pages, pages, parent));
    KidsCount(pages, pages, parent, p);
    assert p in SortedKids(pages, le, parent) <==> p in multiset(SortedKids(pages, le, parent));
  }

  // ----- The forest -----

  ghost predicate Setting(pages: seq<FlatPage>, le: TitleOrder, bound: nat) {
    DistinctIds(pages) && TotalPreorder(le) && Bounded(pages, pages, bound)
  }

  /** Pages of the forest that hang at the same depth. */
  ghost predicate AtDepth(pages: seq<FlatPage>, ps: seq<FlatPage>, k: nat) {
    forall p :: p in ps ==> p in pages && RootedIn(pages, p, k)
  }

  lemma FindSelf(pages: seq<FlatPage>, p: FlatPage)
    requires DistinctIds(pages) && p in pages
    ensures HasId(pages, p.id) && Find(pages, p.id) == p
  {
    var q := Find(pages, p.id);
    var i :| 0 <= i < |pages| && pages[i] == p;
    var j :| 0 <= j < |pages| && pages[j] == q;
  }

  lemma KidsDeeper(pages: seq<FlatPage>, le: TitleOrder, bound: nat, p: FlatPage, k: nat)
    requires Setting(pages, le, bound) && p in pages && RootedIn(pages, p, k)
    ensures k <= bound && AtDepth(pages, SortedKids(pages, le, Some(p.id)), k + 1)
  {
    FindSelf(pages, p);
    forall c | c in SortedKids(pages, le, Some(p.id))
      ensures c in pages && RootedIn(pages, c, k + 1)
    {
      KidsMembers(pages, le, Some(p.id), c);
    }
  }

  lemma RootsAtDepth(pages: seq<FlatPage>, le: TitleOrder)
    requires TotalPreorder(le)
    ensures AtDepth(pages, SortedKids(pages, le, None), 0)
  {
    forall c | c in SortedKids(pages, le, None)
      ensures c in pages && RootedIn(pages, c, 0)
    {
      KidsMembers(pages, le, None, c);
    }
  }

  /** The subtrees of some siblings, node before children. */
  ghost function Flat(pages: seq<FlatPage>, le: TitleOrder, bound: nat, ps: seq<FlatPage>, k: nat): seq<FlatPage>
    requires Setting(pages, le, bound) && AtDepth(pages, ps, k)
    decreases bound - k, |ps|
  {
    if ps == [] then []
    else
      var p := ps[0];
      KidsDeeper(pages, le, bound, p, k);
      [p] + Flat(pages, le, bound, SortedKids(pages, le, Some(p.id)), k + 1) + Flat(pages, le, bound, ps[1..], k)
  }

  ghost function Forest(pages: seq<FlatPage>, le: TitleOrder, bound: nat): seq<FlatPage>
    requires Setting(pages, le, bound)
  {
    RootsAtDepth(pages, le);
    Flat(pages, le, bound, SortedKids(pages, le, None), 0)
  }

  lemma {:induction false} UpRooted(pages: seq<FlatPage>, p: FlatPage, d: nat, n: nat)
    requires RootedIn(pages, p, d) && n <= d
    ensures Up(pages, p, n).Some? && RootedIn(pages, Up(pages, p, n).value, d - n)
    ensures n < d ==> ParentOf(pages, Up(pages, p, n).value).Some?
                      && Up(pages, p, n + 1) == Some(Find(pages, ParentOf(pages, Up(pages, p, n).value).value))
    decreases n
  {
    if n > 0 {
      UpRooted(pages, Find(pages, ParentOf(pages, p).value), d - 1, n - 1);
    }
  }

  lemma Once(pages: seq<FlatPage>, p: FlatPage)
    requires DistinctIds(pages)
    ensures multiset(pages)[p] == if p in pages then 1 else 0
    decreases |pages|
  {
    if pages != [] {
      assert pages == pages[..|pages| - 1] + [pages[|pages| - 1]];
      Once(pages[..|pages| - 1], p);
    }
  }

  lemma {:induction false} UpMember(pages: seq<FlatPage>, p: FlatPage, n: nat)
    requires p in pages && Up(pages, p, n).Some?
    ensures Up(pages, p, n).value in pages
    decreases n
  {
    if n > 0 { UpMember(pages, Find(pages, ParentOf(pages, p).value), n - 1); }
  }

  /** How often the ancestor of `p`, a page at depth `d`, stands among some pages at depth `k`. */
  function Hits(pages: seq<FlatPage>, ps: seq<FlatPage>, k: nat, p: FlatPage, d: nat): nat {
    if k <= d && Up(pages, p, d - k).Some? then multiset(ps)[Up(pages, p, d - k).value] else 0
  }

  lemma HitsSplit(pages: seq<FlatPage>, left: seq<FlatPage>, right: seq<FlatPage>, k: nat, p: FlatPage, d: nat)
    ensures Hits(pages, left + right, k, p, d) == Hits(pages, left, k, p, d) + Hits(pages, right, k, p, d)
    ensures Hits(pages, [], k, p, d) == 0
  {}

  lemma FlatHead(pages: seq<FlatPage>, le: TitleOrder, bound: nat, ps: seq<FlatPage>, k: nat, p: FlatPage)
    requires Setting(pages, le, bound) && AtDepth(pages, ps, k) && ps != []
    ensures k <= bound && ps[0] in pages && RootedIn(pages, ps[0], k) && AtDepth(pages, ps[1..], k)
    ensures AtDepth(pages, SortedKids(pages, le, Some(ps[0].id)), k + 1)
    ensures multiset(Flat(pages, le, bound, ps, k))[p]
            == (if p == ps[0] then 1 else 0)
               + multiset(Flat(pages, le, bound, SortedKids(pages, le, Some(ps[0].id)), k + 1))[p]
               + multiset(Flat(pages, le, bound, ps[1..], k))[p]
  {
    hide TotalPreorder, Bounded, DistinctIds, RootedIn, SortedKids;
    KidsDeeper(pages, le, bound, ps[0], k);
  }

  /** A page stands below some siblings as often as its ancestor at their depth stands among them. */
  lemma {:induction false} FlatCount(pages: seq<FlatPage>, le: TitleOrder, bound: nat, ps: seq<FlatPage>, k: nat,
                                     p: FlatPage, d: nat)
    requires Setting(pages, le, bound) && AtDepth(pages, ps, k) && p in pages && RootedIn(pages, p, d)
    ensures multiset(Flat(pages, le, bound, ps, k))[p] == Hits(pages, ps, k, p, d)
    decreases bound - k, |ps|
  {
    hide Setting, AtDepth, RootedIn, SortedKids, Hits;
    if ps == [] {
      HitsSplit(pages, ps, ps, k, p, d);
    } else {
      hide Flat;
      var h, rest := ps[0], ps[1..];
      FlatHead(pages, le, bound, ps, k, p);
      var kids := SortedKids(pages, le, Some(h.id));
      FlatCount(pages, le, bound, kids, k + 1, p, d);
      FlatCount(pages, le, bound, rest, k, p, d);
      HitsSplit(pages, [h], rest, k, p, d);
      assert ps == [h] + rest;
      HeadCount(pages, le, bound, h, k, p, d);
    }
  }

  lemma HeadCount(pages: seq<FlatPage>, le: TitleOrder, bound: nat, h: FlatPage, k: nat, p: FlatPage, d: nat)
    requires Setting(pages, le, bound) && h in pages && RootedIn(pages, h, k) && p in pages && RootedIn(pages, p, d)
    ensures (if p == h then 1 else 0) + Hits(pages, SortedKids(pages, le, Some(h.id)), k + 1, p, d)
            == Hits(pages, [h], k, p, d)
  {
    hide TotalPreorder, Bounded, RootedIn, SortedKids;
    if d < k {
      assert p == h ==> false by {
        if p == h { DepthUnique(pages, p, d, k); }
      }
    } else if d == k {
    } else {
      assert p != h by {
        if p == h { DepthUnique(pages, p, d, k); }
      }
      UpRooted(pages, p, d, d - k - 1);
      UpMember(pages, p, d - k - 1);
      var c := Up(pages, p, d - k - 1).value;
      KidsMembers(pages, le, Some(h.id), c);
      Once(pages, c);
      FindSelf(pages, h);
      assert Hits(pages, [h], k, p, d) == if Find(pages, ParentOf(pages, c).value) == h then 1 else 0;
    }
  }

  /** A page outside the list, or on a parent cycle, is nowhere in the forest. */
  lemma {:induction false} FlatMembers(pages: seq<FlatPage>, le: TitleOrder, bound: nat, ps: seq<FlatPage>, k: nat,
                                       p: FlatPage)
    requires Setting(pages, le, bound) && AtDepth(pages, ps, k) && p in Flat(pages, le, bound, ps, k)
    ensures p in pages && Rooted(pages, p)
    decreases bound - k, |ps|
  {
    hide TotalPreorder, Bounded, DistinctIds, SortedKids;
    var h := ps[0];
    KidsDeeper(pages, le, bound, h, k);
    if p == h {
    } else if p in Flat(pages, le, bound, ps[1..], k) {
      FlatMembers(pages, le, bound, ps[1..], k, p);
    } else {
      FlatMembers(pages, le, bound, SortedKids(pages, le, Some(h.id)), k + 1, p);
    }
  }

  /**
   * The forest holds exactly the pages whose parent chain ends, each once; pages on a parent cycle,
   * or below one, are not in it.
   */
  lemma ForestExact(pages: seq<FlatPage>, le: TitleOrder, bound: nat, p: FlatPage)
    requires Setting(pages, le, bound)
    ensures multiset(Forest(pages, le, bound))[p] == if p in pages && Rooted(pages, p) then 1 else 0
  {
    RootsAtDepth(pages, le);
    var roots := SortedKids(pages, le, None);
    var all := Forest(pages, le, bound);
    if p in pages && Rooted(pages, p) {
      var d: nat :| RootedIn(pages, p, d);
      FlatCount(pages, le, bound, roots, 0, p, d);
      UpRooted(pages, p, d, d);
      UpMember(pages, p, d);
      var top := Up(pages, p, d).value;
      KidsMembers(pages, le, None, top);
      Once(pages, top);
    } else if p in all {
      FlatMembers(pages, le, bound, roots, 0, p);
    }
  }

  lemma FlatCons(pages: seq<FlatPage>, le: TitleOrder, bound: nat, p: FlatPage, rest: seq<FlatPage>, k: nat)
    requires Setting(pages, le, bound) && AtDepth(pages, [p] + rest, k)
    ensures AtDepth(pages, rest, k) && AtDepth(pages, SortedKids(pages, le, Some(p.id)), k + 1)
    ensures Flat(pages, le, bound, [p] + rest, k)
            == [p] + Flat(pages, le, bound, SortedKids(pages, le, Some(p.id)), k + 1) + Flat(pages, le, bound, rest, k)
  {
    hide TotalPreorder, Bounded, DistinctIds, RootedIn, SortedKids;
    var ps := [p] + rest;
    assert p == ps[0] && ps[1..] == rest;
    KidsDeeper(pages, le, bound, p, k);
  }

  lemma {:induction false} FlatAppend(pages: seq<FlatPage>, le: TitleOrder, bound: nat, a: seq<FlatPage>,
                                      b: seq<FlatPage>, k: nat)
    requires Setting(pages, le, bound) && AtDepth(pages, a, k) && AtDepth(pages, b, k)
    ensures AtDepth(pages, a + b, k)
    ensures Flat(pages, le, bound, a + b, k) == Flat(pages, le, bound, a, k) + Flat(pages, le, bound, b, k)
    decreases |a|
  {
    hide Setting, RootedIn, SortedKids;
    if a == [] {
      assert a + b == b;
    } else {
      var p, rest := a[0], a[1..];
      assert a == [p] + rest && a + b == [p] + (rest + b);
      assert AtDepth(pages, a + b, k);
      hide Flat, AtDepth;
      FlatCons(pages, le, bound, p, rest, k);
      FlatCons(pages, le, bound, p, rest + b, k);
      FlatAppend(pages, le, bound, rest, b, k);
      ConcatAssoc([p] + Flat(pages, le, bound, SortedKids(pages, le, Some(p.id)), k + 1),
          Flat(pages, le, bound, rest, k),
                  Flat(pages, le, bound, b, k));
    }
  }

  /** The strict descendants of a page: the pages that reach it in one or more steps up. */
  ghost predicate Descends(pages: seq<FlatPage>, q: FlatPage, p: FlatPage) {
    q in pages && exists n: nat :: n > 0 && Up(pages, q, n) == Some(p)
  }

  lemma {:induction false} DeeperBelow(pages: seq<FlatPage>, q: FlatPage, n: nat, p: FlatPage, k: nat)
    requires Up(pages, q, n) == Some(p) && RootedIn(pages, p, k)
    ensures RootedIn(pages, q, k + n)
    decreases n
  {
    if n > 0 { DeeperBelow(pages, Find(pages, ParentOf(pages, q).value), n - 1, p, k); }
  }

  lemma DescendsDepth(pages: seq<FlatPage>, q: FlatPage, p: FlatPage, k: nat, d: nat)
    requires RootedIn(pages, p, k) && RootedIn(pages, q, d)
    ensures Descends(pages, q, p) <==> q in pages && k < d && Up(pages, q, d - k) == Some(p)
  {
    if Descends(pages, q, p) {
      var n: nat :| n > 0 && Up(pages, q, n) == Some(p);
      DeeperBelow(pages, q, n, p, k);
      DepthUnique(pages, q, d, k + n);
    }
  }

  lemma DescendsRooted(pages: seq<FlatPage>, q: FlatPage, p: FlatPage, k: nat) returns (d: nat)
    requires RootedIn(pages, p, k) && Descends(pages, q, p)
    ensures RootedIn(pages, q, d)
  {
    var n: nat :| n > 0 && Up(pages, q, n) == Some(p);
    DeeperBelow(pages, q, n, p, k);
    d := k + n;
  }

  lemma KidsHits(pages: seq<FlatPage>, le: TitleOrder, bound: nat, p: FlatPage, k: nat, q: FlatPage, d: nat)
    requires Setting(pages, le, bound) && p in pages && RootedIn(pages, p, k) && q in pages && RootedIn(pages, q, d)
    ensures Hits(pages, SortedKids(pages, le, Some(p.id)), k + 1, q, d) == if Descends(pages, q, p) then 1 else 0
  {
    hide TotalPreorder, Bounded, DistinctIds, RootedIn, SortedKids;
    DescendsDepth(pages, q, p, k, d);
    HeadCount(pages, le, bound, p, k, q, d);
    if q == p { DepthUnique(pages, p, k, d); }
    if k < d { UpRooted(pages, q, d, d - k); }
  }

  /** What hangs below a page of the forest: exactly its strict descendants, each once. */
  lemma SubtreeExact(pages: seq<FlatPage>, le: TitleOrder, bound: nat, p: FlatPage, k: nat, q: FlatPage)
    requires Setting(pages, le, bound) && p in pages && RootedIn(pages, p, k)
    requires AtDepth(pages, SortedKids(pages, le, Some(p.id)), k + 1)
    ensures multiset(Flat(pages, le, bound, SortedKids(pages, le, Some(p.id)), k + 1))[q]
            == if Descends(pages, q, p) then 1 else 0
  {
    hide Setting, AtDepth, RootedIn, SortedKids, Flat, Hits, Up;
    var kids := SortedKids(pages, le, Some(p.id));
    var below := Flat(pages, le, bound, kids, k + 1);
    if Descends(pages, q, p) {
      var d := DescendsRooted(pages, q, p, k);
      FlatCount(pages, le, bound, kids, k + 1, q, d);
      KidsHits(pages, le, bound, p, k, q, d);
    } else if q in below {
      FlatMembers(pages, le, bound, kids, k + 1, q);
      var d: nat :| RootedIn(pages, q, d);
      FlatCount(pages, le, bound, kids, k + 1, q, d);
      KidsHits(pages, le, bound, p, k, q, d);
    }
  }

  // ----- The shared nodes -----

  class Node {
    const page: FlatPage
    var children: seq<Node>

    constructor (page: FlatPage)
      ensures this.page == page && children == []
    {
      this.page := page;
      children := [];
    }
  }

  type Index = map<string, Node>

  ghost predicate Indexed(pages: seq<FlatPage>, byId: Index) {
    forall p :: p in pages ==> p.id in byId && byId[p.id].page == p
  }

  function NodesOf(byId: Index, ps: seq<FlatPage>): (r: seq<Node>)
    requires forall p :: p in ps ==> p.id in byId
    ensures |r| == |ps| && forall i :: 0 <= i < |ps| ==> r[i] == byId[ps[i].id]
  {
    seq(|ps|, i requires 0 <= i < |ps| => byId[ps[i].id])
  }

  /** `Array.sort` on siblings: stable. */
  function InsertNode(le: TitleOrder, n: Node, s: seq<Node>): seq<Node> {
    if s == [] then [n]
    else
      var last := s[|s| - 1];
      if PageLe(le, last.page, n.page) then s + [n] else InsertNode(le, n, s[..|s| - 1]) + [last]
  }

  function SortNodes(le: TitleOrder, s: seq<Node>): seq<Node> {
    if s == [] then [] else InsertNode(le, s[|s| - 1], SortNodes(le, s[..|s| - 1]))
  }

  lemma {:induction false} InsertNodeFacts(le: TitleOrder, byId: Index, p: FlatPage, ps: seq<FlatPage>)
    requires p.id in byId && byId[p.id].page == p && forall q :: q in ps ==> q.id in byId && byId[q.id].page == q
    ensures forall q :: q in Insert(le, p, ps) ==> q == p || q in ps
    ensures InsertNode(le, byId[p.id], NodesOf(byId, ps)) == NodesOf(byId, Insert(le, p, ps))
  {
    if ps == [] {
    } else {
      var init, last := ps[..|ps| - 1], ps[|ps| - 1];
      assert NodesOf(byId, ps)[..|ps| - 1] == NodesOf(byId, init);
      InsertNodeFacts(le, byId, p, init);
    }
  }

  /** Sorting nodes is sorting their pages. */
  lemma {:induction false} SortNodesFacts(le: TitleOrder, byId: Index, ps: seq<FlatPage>)
    requires forall q :: q in ps ==> q.id in byId && byId[q.id].page == q
    ensures forall q :: q in SortPages(le, ps) ==> q in ps
    ensures SortNodes(le, NodesOf(byId, ps)) == NodesOf(byId, SortPages(le, ps))
  {
    if ps == [] {
    } else {
      var init, last := ps[..|ps| - 1], ps[|ps| - 1];
      assert NodesOf(byId, ps)[..|ps| - 1] == NodesOf(byId, init);
      SortNodesFacts(le, byId, init);
      InsertNodeFacts(le, byId, last, SortPages(le, init));
    }
  }

  /** The children a page has once the pages in `done` have theirs sorted. */
  ghost function KidsNow(pages: seq<FlatPage>, le: TitleOrder, done: set<FlatPage>, p: FlatPage): seq<FlatPage> {
    if p in done then SortedKids(pages, le, Some(p.id)) else Kids(pages, pages, Some(p.id))
  }

  lemma KidsNowIndexed(pages: seq<FlatPage>, le: TitleOrder, byId: Index, done: set<FlatPage>, p: FlatPage)
    requires TotalPreorder(le) && Indexed(pages, byId)
    ensures forall q :: q in KidsNow(pages, le, done, p) ==> q.id in byId && byId[q.id].page == q
  {
    forall q | q in KidsNow(pages, le, done, p)
      ensures q in pages
    {
      KidsMembers(pages, le, Some(p.id), q);
      KidsCount(pages, pages, Some(p.id), q);
    }
  }

  /** Every node holds its page's children, sorted where `done` says so. */
  ghost predicate Linked(pages: seq<FlatPage>, le: TitleOrder, byId: Index, done: set<FlatPage>)
    requires TotalPreorder(le) && Indexed(pages, byId)
    reads byId.Values
  {
    forall p :: p in pages ==>
      (KidsNowIndexed(pages, le, byId, done, p); byId[p.id].children == NodesOf(byId, KidsNow(pages, le, done, p)))
  }

  lemma KidsNowSort(pages: seq<FlatPage>, le: TitleOrder, byId: Index, done: set<FlatPage>, p: FlatPage)
    requires TotalPreorder(le) && Indexed(pages, byId) && p in pages
    ensures forall q :: q in KidsNow(pages, le, done, p) ==> q.id in byId && byId[q.id].page == q
    ensures forall q :: q in SortedKids(pages, le, Some(p.id)) ==> q.id in byId && byId[q.id].page == q
    ensures SortNodes(le, NodesOf(byId, KidsNow(pages, le, done, p)))
            == NodesOf(byId, SortedKids(pages, le, Some(p.id)))
  {
    KidsNowIndexed(pages, le, byId, done, p);
    KidsNowIndexed(pages, le, byId, {p}, p);
    var kids := KidsNow(pages, le, done, p);
    SortNodesFacts(le, byId, kids);
    SortFacts(le, Kids(pages, pages, Some(p.id)));
    if p in done { SortedStays(le, kids); }
  }

  ghost function Members(s: seq<FlatPage>): set<FlatPage> {
    set p | p in s
  }

  lemma FlatSnoc(pages: seq<FlatPage>, le: TitleOrder, bound: nat, ps: seq<FlatPage>, i: nat, k: nat)
    requires Setting(pages, le, bound) && AtDepth(pages, ps, k) && i < |ps|
    requires AtDepth(pages, SortedKids(pages, le, Some(ps[i].id)), k + 1)
    ensures AtDepth(pages, ps[..i], k) && AtDepth(pages, ps[..i + 1], k)
    ensures Members(Flat(pages, le, bound, ps[..i + 1], k))
            == Members(Flat(pages, le, bound, ps[..i], k)) + {ps[i]}
               + Members(Flat(pages, le, bound, SortedKids(pages, le, Some(ps[i].id)), k + 1))
  {
    hide Setting, RootedIn, SortedKids;
    var p := ps[i];
    assert ps[..i + 1] == ps[..i] + [p];
    FlatAppend(pages, le, bound, ps[..i], [p], k);
    var kids := SortedKids(pages, le, Some(p.id));
    assert Flat(pages, le, bound, [p], k) == [p] + Flat(pages, le, bound, kids, k + 1) + [] by {
      assert [p][1..] == [];
    }
  }

  lemma ChildrenSort(pages: seq<FlatPage>, le: TitleOrder, byId: Index, done: set<FlatPage>, p: FlatPage)
    requires TotalPreorder(le) && Indexed(pages, byId) && Linked(pages, le, byId, done) && p in pages
    ensures forall q :: q in SortedKids(pages, le, Some(p.id)) ==> q.id in byId && byId[q.id].page == q
    ensures SortNodes(le, byId[p.id].children) == NodesOf(byId, SortedKids(pages, le, Some(p.id)))
  {
    KidsNowSort(pages, le, byId, done, p);
  }

  /** One node's children list becomes the sorted one; every other node keeps its own. */
  method Arrange(n: Node, children: seq<Node>, ghost pages: seq<FlatPage>, ghost le: TitleOrder, ghost byId: Index,
                 ghost done: set<FlatPage>)
    requires TotalPreorder(le) && Indexed(pages, byId) && Linked(pages, le, byId, done)
    requires n.page in pages && n == byId[n.page.id]
    requires forall q :: q in SortedKids(pages, le, Some(n.page.id)) ==> q.id in byId && byId[q.id].page == q
    requires children == NodesOf(byId, SortedKids(pages, le, Some(n.page.id)))
    modifies n
    ensures Linked(pages, le, byId, done + {n.page})
  {
    hide TotalPreorder, SortedKids, Kids;
    n.children := children;
  }

  /** The inner sort: these siblings, then every children list below them, in place. */
  method SortTree(le: TitleOrder, nodes: seq<Node>, ghost pages: seq<FlatPage>, ghost byId: Index, ghost bound: nat,
                  ghost ps: seq<FlatPage>, ghost k: nat, ghost done: set<FlatPage>)
    returns (sorted: seq<Node>, ghost now: set<FlatPage>)
    requires Setting(pages, le, bound) && Indexed(pages, byId) && AtDepth(pages, ps, k) && k <= bound + 1
    requires Linked(pages, le, byId, done) && SortNodes(le, nodes) == NodesOf(byId, ps)
    modifies byId.Values
    ensures sorted == NodesOf(byId, ps)
    ensures now == done + Members(Flat(pages, le, bound, ps, k)) && Linked(pages, le, byId, now)
    decreases bound + 1 - k
  {
    hide TotalPreorder, Bounded, DistinctIds, RootedIn, SortedKids, Kids, SortNodes, Linked;
    sorted := SortNodes(le, nodes);
    now := done;
    var i := 0;
    assert ps[..0] == [];
    while i < |sorted|
      invariant i <= |sorted| && AtDepth(pages, ps[..i], k)
      invariant now == done + Members(Flat(pages, le, bound, ps[..i], k)) && Linked(pages, le, byId, now)
    {
      ghost var p := ps[i];
      KidsDeeper(pages, le, bound, p, k);
      ChildrenSort(pages, le, byId, now, p);
      ghost var kids := SortedKids(pages, le, Some(p.id));
      var children;
      children, now := SortTree(le, sorted[i].children, pages, byId, bound, kids, k + 1, now);
      Arrange(sorted[i], children, pages, le, byId, now);
      now := now + {p};
      FlatSnoc(pages, le, bound, ps, i, k);
      i := i + 1;
    }
    assert ps[..i] == ps;
  }

  // ----- Building -----

  method MakeNodes(pages: seq<FlatPage>) returns (byId: Index)
    requires DistinctIds(pages)
    ensures Indexed(pages, byId) && fresh(byId.Values)
    ensures forall p :: p in pages ==> byId[p.id].children == []
    ensures forall id :: id in byId <==> HasId(pages, id)
  {
    byId := map[];
    var i := 0;
    while i < |pages|
      invariant i <= |pages| && Indexed(pages[..i], byId)
      invariant forall id :: id in byId ==> fresh(byId[id])
      invariant forall p :: p in pages[..i] ==> byId[p.id].children == []
      invariant forall id :: id in byId <==> HasId(pages[..i], id)
    {
      var p := pages[i];
      assert p.id !in byId;
      var node := new Node(p);
      assert pages[..i + 1] == pages[..i] + [p];
      forall id
        ensures HasId(pages[..i + 1], id) <==> HasId(pages[..i], id) || id == p.id
      {
        assert p in pages[..i + 1];
        assert forall q :: q in pages[..i] ==> q in pages[..i + 1];
      }
      byId := byId[p.id := node];
      i := i + 1;
    }
    assert pages[..i] == pages;
  }

  lemma KidsSnoc(pages: seq<FlatPage>, i: nat, parent: Option<string>)
    requires i < |pages|
    ensures Kids(pages, pages[..i + 1], parent)
            == Kids(pages, pages[..i], parent) + if ParentOf(pages, pages[i]) == parent then [pages[i]] else []
  {
    assert pages[..i + 1][..i] == pages[..i];
  }

  lemma KidsKnown(pages: seq<FlatPage>, byId: Index, i: nat, parent: Option<string>)
    requires Indexed(pages, byId) && i <= |pages|
    ensures forall q :: q in Kids(pages, pages[..i], parent) ==> q.id in byId && byId[q.id].page == q
  {
    forall q | q in Kids(pages, pages[..i], parent)
      ensures q in pages
    {
      KidsCount(pages, pages[..i], parent, q);
    }
  }

  /** The children nodes, or the roots, among the first `i` pages. */
  ghost function KidNodes(pages: seq<FlatPage>, byId: Index, i: nat, parent: Option<string>): seq<Node>
    requires Indexed(pages, byId) && i <= |pages|
  {
    KidsKnown(pages, byId, i, parent);
    NodesOf(byId, Kids(pages, pages[..i], parent))
  }

  lemma KidNodesSnoc(pages: seq<FlatPage>, byId: Index, i: nat, parent: Option<string>)
    requires Indexed(pages, byId) && i < |pages|
    ensures pages[i].id in byId
    ensures KidNodes(pages, byId, i + 1, parent)
            == KidNodes(pages, byId, i, parent)
               + if ParentOf(pages, pages[i]) == parent then [byId[pages[i].id]] else []
  {
    KidsSnoc(pages, i, parent);
    KidsKnown(pages, byId, i, parent);
    KidsKnown(pages, byId, i + 1, parent);
  }

  /** The first `i` pages hang under their parents, in the order given. */
  ghost predicate Hung(pages: seq<FlatPage>, byId: Index, i: nat, roots: seq<Node>)
    requires Indexed(pages, byId) && i <= |pages|
    reads byId.Values
  {
    && roots == KidNodes(pages, byId, i, None)
    && forall p :: p in pages ==> byId[p.id].children == KidNodes(pages, byId, i, Some(p.id))
  }

  method HangNodes(pages: seq<FlatPage>, byId: Index) returns (roots: seq<Node>)
    requires DistinctIds(pages) && Indexed(pages, byId)
    requires forall p :: p in pages ==> byId[p.id].children == []
    requires forall id :: id in byId <==> HasId(pages, id)
    modifies byId.Values
    ensures Hung(pages, byId, |pages|, roots)
  {
    hide KidNodes, DistinctIds;
    roots := [];
    var i := 0;
    NothingHung(pages, byId);
    while i < |pages|
      invariant i <= |pages| && Hung(pages, byId, i, roots)
    {
      var node := byId[pages[i].id];
      KidNodesSnoc(pages, byId, i, None);
      forall p | p in pages
        ensures KidNodes(pages, byId, i + 1, Some(p.id))
                == KidNodes(pages, byId, i, Some(p.id)) + if ParentOf(pages, pages[i]) == Some(p.id) then [node] else []
      {
        KidNodesSnoc(pages, byId, i, Some(p.id));
      }
      if node.page.parentId.Some? && node.page.parentId.value != "" && node.page.parentId.value in byId {
        FindSame(pages, byId, node.page.parentId.value);
        var parent := byId[node.page.parentId.value];
        parent.children := parent.children + [node];
      } else {
        roots := roots + [node];
      }
      i := i + 1;
    }
  }

  lemma NothingHung(pages: seq<FlatPage>, byId: Index)
    requires Indexed(pages, byId)
    ensures forall parent :: KidNodes(pages, byId, 0, parent) == []
  {}

  lemma FindSame(pages: seq<FlatPage>, byId: Index, id: string)
    requires Indexed(pages, byId) && HasId(pages, id)
    ensures id in byId && byId[id].page in pages && byId[id].page.id == id
  {}

  lemma HungLinked(pages: seq<FlatPage>, le: TitleOrder, byId: Index, roots: seq<Node>)
    requires TotalPreorder(le) && Indexed(pages, byId) && Hung(pages, byId, |pages|, roots)
    ensures forall q :: q in SortedKids(pages, le, None) ==> q.id in byId && byId[q.id].page == q
    ensures Linked(pages, le, byId, {}) && SortNodes(le, roots) == NodesOf(byId, SortedKids(pages, le, None))
  {
    hide TotalPreorder;
    assert pages[..|pages|] == pages;
    KidsKnown(pages, byId, |pages|, None);
    SortNodesFacts(le, byId, Kids(pages, pages, None));
  }

  /** The pages in the forest. */
  ghost function InForest(pages: seq<FlatPage>): set<FlatPage> {
    set p | p in pages && Rooted(pages, p)
  }

  lemma ForestMembers(pages: seq<FlatPage>, le: TitleOrder, bound: nat)
    requires Setting(pages, le, bound)
    ensures Members(Forest(pages, le, bound)) == InForest(pages)
  {
    forall p
      ensures p in Members(Forest(pages, le, bound)) <==> p in InForest(pages)
    {
      ForestExact(pages, le, bound, p);
    }
  }

  /**
   * The roots, sorted, and below them every node of the forest with its own children, sorted; the
   * nodes are new and shared, one a page.
   */
  method BuildPageTree(pages: seq<FlatPage>, le: TitleOrder) returns (roots: seq<Node>, ghost byId: Index)
    requires DistinctIds(pages) && TotalPreorder(le)
    ensures Indexed(pages, byId) && fresh(byId.Values)
    ensures forall q :: q in SortedKids(pages, le, None) ==> q.id in byId
    ensures roots == NodesOf(byId, SortedKids(pages, le, None))
    ensures Linked(pages, le, byId, InForest(pages))
  {
    hide TotalPreorder, DistinctIds, Bounded, SortedKids, Linked, SortNodes, Hung;
    var nodes := MakeNodes(pages);
    roots := HangNodes(pages, nodes);
    byId := nodes;
    HungLinked(pages, le, byId, roots);
    ghost var bound := SomeBound(pages, pages);
    RootsAtDepth(pages, le);
    ghost var now;
    roots, now := SortTree(le, roots, pages, byId, bound, SortedKids(pages, le, None), 0, {});
    ForestMembers(pages, le, bound);
    assert {} + InForest(pages) == InForest(pages);
  }

  // ----- Descendants by a stack -----

  datatype Top = Top(page: FlatPage, depth: nat)

  ghost predicate GoodTops(pages: seq<FlatPage>, tops: seq<Top>) {
    forall t :: t in tops ==> t.page in pages && RootedIn(pages, t.page, t.depth)
  }

  function Tops(ps: seq<FlatPage>, k: nat): (r: seq<Top>)
    ensures |r| == |ps| && forall i :: 0 <= i < |ps| ==> r[i] == Top(ps[i], k)
  {
    seq(|ps|, i requires 0 <= i < |ps| => Top(ps[i], k))
  }

  /** Everything below the pages on the stack, these included. */
  ghost function Pile(pages: seq<FlatPage>, le: TitleOrder, bound: nat, tops: seq<Top>): seq<FlatPage>
    requires Setting(pages, le, bound) && GoodTops(pages, tops)
  {
    if tops == [] then []
    else
      var last := tops[|tops| - 1];
      Pile(pages, le, bound, tops[..|tops| - 1]) + Flat(pages, le, bound, [last.page], last.depth)
  }

  lemma PileSnoc(pages: seq<FlatPage>, le: TitleOrder, bound: nat, tops: seq<Top>, p: FlatPage, k: nat)
    requires Setting(pages, le, bound) && GoodTops(pages, tops) && p in pages && RootedIn(pages, p, k)
    ensures GoodTops(pages, tops + [Top(p, k)])
    ensures Pile(pages, le, bound, tops + [Top(p, k)]) == Pile(pages, le, bound, tops) + Flat(pages, le, bound, [p], k)
  {
    hide Setting, RootedIn, Flat;
    assert (tops + [Top(p, k)])[..|tops|] == tops;
  }

  lemma TopsSnoc(tops: seq<Top>, kids: seq<FlatPage>, k: nat)
    requires kids != []
    ensures tops + Tops(kids, k) == (tops + Tops(kids[..|kids| - 1], k)) + [Top(kids[|kids| - 1], k)]
  {}

  lemma DepthSnoc(pages: seq<FlatPage>, kids: seq<FlatPage>, k: nat)
    requires AtDepth(pages, kids, k) && kids != []
    ensures kids[..|kids| - 1] + [kids[|kids| - 1]] == kids && AtDepth(pages, kids[..|kids| - 1], k)
    ensures kids[|kids| - 1] in pages && RootedIn(pages, kids[|kids| - 1], k) && AtDepth(pages, [kids[|kids| - 1]], k)
  {
    hide RootedIn;
  }

  lemma {:induction false} PilePush(pages: seq<FlatPage>, le: TitleOrder, bound: nat, tops: seq<Top>,
                                    kids: seq<FlatPage>, k: nat)
    requires Setting(pages, le, bound) && GoodTops(pages, tops) && AtDepth(pages, kids, k)
    ensures GoodTops(pages, tops + Tops(kids, k))
    ensures Pile(pages, le, bound, tops + Tops(kids, k)) == Pile(pages, le, bound, tops)
            + Flat(pages, le, bound, kids, k)
    decreases |kids|
  {
    hide Setting, RootedIn, GoodTops, Pile;
    if kids == [] {
      assert tops + Tops(kids, k) == tops;
    } else {
      hide Flat, AtDepth, Tops;
      var init, last := kids[..|kids| - 1], kids[|kids| - 1];
      DepthSnoc(pages, kids, k);
      TopsSnoc(tops, kids, k);
      PilePush(pages, le, bound, tops, init, k);
      PileSnoc(pages, le, bound, tops + Tops(init, k), last, k);
      FlatAppend(pages, le, bound, init, [last], k);
      ConcatAssoc(Pile(pages, le, bound, tops), Flat(pages, le, bound, init, k), Flat(pages, le, bound, [last], k));
    }
  }

  function Ids(ps: seq<FlatPage>): seq<string> {
    if ps == [] then [] else Ids(ps[..|ps| - 1]) + [ps[|ps| - 1].id]
  }

  lemma {:induction false} IdsCount(pages: seq<FlatPage>, ps: seq<FlatPage>, id: string)
    requires DistinctIds(pages) && forall p :: p in ps ==> p in pages
    ensures multiset(Ids(ps))[id] == if HasId(pages, id) then multiset(ps)[Find(pages, id)] else 0
  {
    if ps != [] {
      var init, last := ps[..|ps| - 1], ps[|ps| - 1];
      assert ps == init + [last];
      IdsCount(pages, init, id);
      FindSelf(pages, last);
    }
  }

  /** Popping a page and pushing its children takes just that page off the pile. */
  lemma PileStep(pages: seq<FlatPage>, le: TitleOrder, bound: nat, rest: seq<Top>, p: FlatPage, k: nat)
    requires Setting(pages, le, bound) && GoodTops(pages, rest + [Top(p, k)])
    ensures p in pages && GoodTops(pages, rest) && k <= bound
            && AtDepth(pages, SortedKids(pages, le, Some(p.id)), k + 1)
    ensures var pushed := rest + Tops(SortedKids(pages, le, Some(p.id)), k + 1);
            GoodTops(pages, pushed)
            && multiset(Pile(pages, le, bound, rest + [Top(p, k)])) == multiset(Pile(pages, le, bound, pushed))
               + multiset{p}
            && |Pile(pages, le, bound, rest + [Top(p, k)])| == |Pile(pages, le, bound, pushed)| + 1
  {
    hide RootedIn, SortedKids, Pile, Flat, TotalPreorder, DistinctIds, Bounded;
    assert GoodTops(pages, rest) && p in pages && RootedIn(pages, p, k) by {
      var tops := rest + [Top(p, k)];
      assert Top(p, k) in tops;
      assert forall t :: t in rest ==> t in tops;
    }
    KidsDeeper(pages, le, bound, p, k);
    hide GoodTops, Setting, AtDepth;
    PilePush(pages, le, bound, rest, SortedKids(pages, le, Some(p.id)), k + 1);
    PileSnoc(pages, le, bound, rest, p, k);
    FlatOne(pages, le, bound, p, k);
  }

  lemma FlatOne(pages: seq<FlatPage>, le: TitleOrder, bound: nat, p: FlatPage, k: nat)
    requires Setting(pages, le, bound) && p in pages && RootedIn(pages, p, k)
    requires AtDepth(pages, SortedKids(pages, le, Some(p.id)), k + 1)
    ensures AtDepth(pages, [p], k)
    ensures Flat(pages, le, bound, [p], k) == [p] + Flat(pages, le, bound, SortedKids(pages, le, Some(p.id)), k + 1)
  {
    hide Setting, RootedIn, SortedKids;
    assert [p][1..] == [];
  }

  lemma TreeChildren(pages: seq<FlatPage>, le: TitleOrder, byId: Index, p: FlatPage)
    requires TotalPreorder(le) && Indexed(pages, byId) && Linked(pages, le, byId, InForest(pages)) && p in pages
             && Rooted(pages, p)
    ensures forall q :: q in SortedKids(pages, le, Some(p.id)) ==> q.id in byId
    ensures byId[p.id].children == NodesOf(byId, SortedKids(pages, le, Some(p.id)))
  {
    KidsNowIndexed(pages, le, byId, InForest(pages), p);
  }

  /** In a built tree: the ids of the strict descendants, each once. */
  method DescendantIds(node: Node, ghost pages: seq<FlatPage>, ghost le: TitleOrder, ghost byId: Index)
      returns (out: seq<string>)
    requires DistinctIds(pages) && TotalPreorder(le) && Indexed(pages, byId) && Linked(pages, le, byId, InForest(pages))
    requires node.page in pages && Rooted(pages, node.page) && node == byId[node.page.id]
    ensures forall id :: multiset(out)[id]
                         == if HasId(pages, id) && Descends(pages, Find(pages, id), node.page) then 1 else 0
  {
    hide TotalPreorder, DistinctIds, Bounded, RootedIn, SortedKids, Linked, Pile, Flat, Descends;
    ghost var bound := SomeBound(pages, pages);
    ghost var k: nat :| RootedIn(pages, node.page, k);
    KidsDeeper(pages, le, bound, node.page, k);
    ghost var kids := SortedKids(pages, le, Some(node.page.id));
    TreeChildren(pages, le, byId, node.page);
    out := [];
    ghost var seen := [];
    var stack := node.children;
    ghost var tops := Tops(kids, k + 1);
    PilePush(pages, le, bound, [], kids, k + 1);
    EmptyPile(pages, le, bound, []);
    assert [] + tops == tops;
    while stack != []
      invariant |stack| == |tops| && GoodTops(pages, tops)
      invariant forall i :: 0 <= i < |tops| ==> stack[i] == byId[tops[i].page.id]
      invariant out == Ids(seen)
      invariant multiset(seen) + multiset(Pile(pages, le, bound, tops)) == multiset(Flat(pages, le, bound, kids, k + 1))
      decreases |Pile(pages, le, bound, tops)|
    {
      var n := stack[|stack| - 1];
      stack := stack[..|stack| - 1];
      ghost var top := tops[|tops| - 1];
      assert tops == tops[..|tops| - 1] + [top];
      PileStep(pages, le, bound, tops[..|tops| - 1], top.page, top.depth);
      TreeChildren(pages, le, byId, top.page);
      out := out + [n.page.id];
      seen := seen + [top.page];
      stack := stack + n.children;
      tops := tops[..|tops| - 1] + Tops(SortedKids(pages, le, Some(top.page.id)), top.depth + 1);
    }
    EmptyPile(pages, le, bound, tops);
    SeenIds(pages, le, bound, node.page, k, seen);
  }

  lemma EmptyPile(pages: seq<FlatPage>, le: TitleOrder, bound: nat, tops: seq<Top>)
    requires Setting(pages, le, bound) && tops == []
    ensures Pile(pages, le, bound, tops) == []
  {}

  lemma SeenIds(pages: seq<FlatPage>, le: TitleOrder, bound: nat, p: FlatPage, k: nat, seen: seq<FlatPage>)
    requires Setting(pages, le, bound) && p in pages && RootedIn(pages, p, k)
    requires AtDepth(pages, SortedKids(pages, le, Some(p.id)), k + 1)
    requires multiset(seen) == multiset(Flat(pages, le, bound, SortedKids(pages, le, Some(p.id)), k + 1))
    ensures forall id :: multiset(Ids(seen))[id]
                         == if HasId(pages, id) && Descends(pages, Find(pages, id), p) then 1 else 0
  {
    hide TotalPreorder, DistinctIds, Bounded, RootedIn, SortedKids, Flat;
    forall q
      ensures multiset(seen)[q] == if Descends(pages, q, p) then 1 else 0
    {
      SubtreeExact(pages, le, bound, p, k, q);
    }
    assert forall q :: q in seen ==> q in multiset(seen);
    forall id
      ensures multiset(Ids(seen))[id] == if HasId(pages, id) && Descends(pages, Find(pages, id), p) then 1 else 0
    {
      IdsCount(pages, seen, id);
    }
  }
}
