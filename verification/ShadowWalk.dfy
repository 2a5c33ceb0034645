/** Breadth-first traversal of a document and the shadow roots it contains, and the queries built on it. */
module ShadowWalk {
  import opened Common

  type Root = nat
  type Element = nat

  /** The elements under each root, the shadow root (open or closed) each host leads to, and what the query at hand
      returns on each root; a root without a query function has no entry in `matches`. */
  datatype Dom = Dom(elements: map<Root, seq<Element>>, shadow: map<Element, Root>, matches: map<Root, seq<Element>>)

  /** Nothing leads out of the roots; the graph may well be cyclic. */
  predicate Closed(d: Dom) { forall e <- d.shadow :: d.shadow[e] in d.elements }

  ghost predicate Edge(d: Dom, a: Root, b: Root) {
    a in d.elements && exists e <- d.elements[a] :: e in d.shadow && d.shadow[e] == b
  }

  ghost predicate ReachesIn(d: Dom, a: Root, b: Root, n: nat)
    decreases n
  {
    if n == 0 then a == b else exists c: Root :: ReachesIn(d, a, c, n - 1) && Edge(d, c, b)
  }

  ghost predicate Reaches(d: Dom, a: Root, b: Root) { exists n: nat :: ReachesIn(d, a, b, n) }

  predicate NoDup<T(==)>(s: seq<T>) { forall i, j :: 0 <= i < j < |s| ==> s[i] != s[j] }

  /** Roots discovered so far and how deep each was found. */
  ghost predicate Layers(d: Dom, root: Root, all: seq<Root>, level: seq<nat>) {
    && |level| == |all| && all != [] && all[0] == root && level[0] == 0 && NoDup(all)
    && (forall i :: 0 <= i < |all| ==> all[i] in d.elements)
    && (forall i :: 0 <= i < |all| ==> ReachesIn(d, root, all[i], level[i]))
    && (forall i, j :: 0 <= i < j < |all| ==> level[i] <= level[j])
  }

  /** The shadow root `b` has been discovered no deeper than one below depth `n`. */
  ghost predicate Found(all: seq<Root>, level: seq<nat>, b: Root, n: nat) {
    exists j :: 0 <= j < |all| && j < |level| && all[j] == b && level[j] <= n + 1
  }

  /** The first `k` roots have been expanded. */
  ghost predicate Expanded(d: Dom, all: seq<Root>, level: seq<nat>, k: nat)
    requires k <= |all| == |level|
  {
    forall i, b: Root :: 0 <= i < k && Edge(d, all[i], b) ==> Found(all, level, b, level[i])
  }

  lemma FoundGrows(all: seq<Root>, level: seq<nat>, b: Root, n: nat, r: Root, l: nat)
    requires Found(all, level, b, n) && |all| == |level|
    ensures Found(all + [r], level + [l], b, n)
  {
    var j :| 0 <= j < |all| && all[j] == b && level[j] <= n + 1;
    assert (all + [r])[j] == b && (level + [l])[j] == level[j];
  }

  lemma ExpandedGrows(d: Dom, all: seq<Root>, level: seq<nat>, k: nat, r: Root, l: nat)
    requires k <= |all| == |level| && Expanded(d, all, level, k)
    ensures Expanded(d, all + [r], level + [l], k)
  {
    forall i, b: Root | 0 <= i < k && Edge(d, (all + [r])[i], b) ensures Found(all + [r], level + [l], b, (level + [l])[i]) {
      FoundGrows(all, level, b, level[i], r, l);
    }
  }

  lemma LayersGrow(d: Dom, root: Root, all: seq<Root>, level: seq<nat>, i: nat, b: Root)
    requires Layers(d, root, all, level) && i < |all| && Edge(d, all[i], b) && b in d.elements && b !in all
    requires level[|all| - 1] <= level[i] + 1
    ensures Layers(d, root, all + [b], level + [level[i] + 1])
  {
    assert ReachesIn(d, root, b, level[i] + 1);
  }

  /** Once everything discovered has been expanded, every root is found, and no deeper than it lies. */
  lemma {:induction false} ExpandedFindsAll(d: Dom, root: Root, all: seq<Root>, level: seq<nat>, b: Root, n: nat)
    requires Layers(d, root, all, level) && Expanded(d, all, level, |all|) && ReachesIn(d, root, b, n)
    ensures exists j :: 0 <= j < |all| && all[j] == b && level[j] <= n
    decreases n
  {
    if n == 0 {
      assert all[0] == b;
    } else {
      var c :| ReachesIn(d, root, c, n - 1) && Edge(d, c, b);
      ExpandedFindsAll(d, root, all, level, c, n - 1);
      var i :| 0 <= i < |all| && all[i] == c && level[i] <= n - 1;
      assert Found(all, level, b, level[i]);
    }
  }

  // ---------- the order among roots of one level ----------

  /** A place in a walk: the scope's position, and the element's position in that scope. */
  datatype Place = Place(scope: nat, element: nat) {
    predicate Before(p: Place) { scope < p.scope || (scope == p.scope && element < p.element) }
  }

  /** The element there is the host of `b`. */
  predicate Hosts(d: Dom, all: seq<Root>, p: Place, b: Root) {
    && p.scope < |all| && all[p.scope] in d.elements && p.element < |d.elements[all[p.scope]]|
    && var e := d.elements[all[p.scope]][p.element];
       e in d.shadow && d.shadow[e] == b
  }

  /** `at[i]` is the first place that leads to the i-th root, and roots come in the order of these places. */
  ghost predicate InOrder(d: Dom, all: seq<Root>, at: seq<Place>) {
    && |at| == |all|
    && (forall i :: 0 < i < |all| ==> Hosts(d, all, at[i], all[i]))
    && (forall i, p :: 0 < i < |all| && Hosts(d, all, p, all[i]) ==> !p.Before(at[i]))
    && (forall i, j :: 0 < i < j < |all| ==> at[i].Before(at[j]))
  }

  /** Everything found so far was found before this place. */
  ghost predicate Behind(at: seq<Place>, p: Place) { forall i :: 0 < i < |at| ==> at[i].Before(p) }

  /** What lies before this place has been found. */
  ghost predicate AllFound(d: Dom, all: seq<Root>, p: Place) {
    forall q: Place, b: Root :: q.Before(p) && Hosts(d, all, q, b) ==> b in all
  }

  lemma OrderGrows(d: Dom, all: seq<Root>, at: seq<Place>, p: Place, b: Root)
    requires InOrder(d, all, at) && Behind(at, p) && AllFound(d, all, p) && Hosts(d, all, p, b) && b !in all && all != []
    ensures InOrder(d, all + [b], at + [p])
  {
    var more, places := all + [b], at + [p];
    forall i, q | 0 < i < |more| && Hosts(d, more, q, more[i]) ensures !q.Before(places[i]) {
      if q.scope < |all| {
        assert Hosts(d, all, q, more[i]);
      } else if i < |all| {
        assert at[i].Before(p);
      }
    }
    forall i | 0 < i < |more| ensures Hosts(d, more, places[i], more[i]) {
      if i < |all| {
        assert Hosts(d, all, at[i], all[i]);
      }
    }
  }

  /** Discovery in document order: by the first place that leads to a root. */
  ghost predicate InDocumentOrder(d: Dom, visited: seq<Root>) { exists at :: InOrder(d, visited, at) }

  /** What a complete walk is: the reachable roots, each once, nearer roots first. */
  ghost predicate IsWalk(d: Dom, root: Root, visited: seq<Root>) {
    && visited != [] && visited[0] == root && NoDup(visited)
    && (forall r: Root :: r in visited <==> Reaches(d, root, r))
    && (forall i, j, n: nat :: 0 <= i < j < |visited| && ReachesIn(d, root, visited[j], n) ==>
          NoFarther(d, root, visited[i], n))
  }

  ghost predicate NoFarther(d: Dom, root: Root, r: Root, n: nat) { exists m: nat :: m <= n && ReachesIn(d, root, r, m) }

  lemma ExpandedIsWalk(d: Dom, root: Root, all: seq<Root>, level: seq<nat>)
    requires Layers(d, root, all, level) && Expanded(d, all, level, |all|)
    ensures IsWalk(d, root, all)
  {
    forall r: Root ensures r in all <==> Reaches(d, root, r) {
      if r in all {
        var i :| 0 <= i < |all| && all[i] == r;
        assert ReachesIn(d, root, r, level[i]);
      }
      if Reaches(d, root, r) {
        var n: nat :| ReachesIn(d, root, r, n);
        ExpandedFindsAll(d, root, all, level, r, n);
      }
    }
    forall i, j, n: nat | 0 <= i < j < |all| && ReachesIn(d, root, all[j], n) ensures NoFarther(d, root, all[i], n) {
      ExpandedFindsAll(d, root, all, level, all[j], n);
      var k :| 0 <= k < |all| && all[k] == all[j] && level[k] <= n;
      assert k == j;
      assert level[i] <= n && ReachesIn(d, root, all[i], level[i]);
    }
  }

  /** The shadow roots of the first elements of a scope have been found. */
  ghost predicate FoundUnder(d: Dom, all: seq<Root>, level: seq<nat>, elements: seq<Element>, n: nat) {
    forall e :: e in elements && e in d.shadow ==> Found(all, level, d.shadow[e], n)
  }

  lemma FoundUnderGrows(d: Dom, all: seq<Root>, level: seq<nat>, elements: seq<Element>, n: nat, el: Element)
    requires |all| == |level| && FoundUnder(d, all, level, elements, n) && el in d.shadow
    ensures FoundUnder(d, all + [d.shadow[el]], level + [n + 1], elements + [el], n)
  {
    var b := d.shadow[el];
    forall e | e in elements + [el] && e in d.shadow ensures Found(all + [b], level + [n + 1], d.shadow[e], n) {
      if e == el {
        assert (all + [b])[|all|] == b && (level + [n + 1])[|all|] == n + 1;
      } else {
        FoundGrows(all, level, d.shadow[e], n, b, n + 1);
      }
    }
  }

  lemma AlreadyFound(d: Dom, root: Root, all: seq<Root>, level: seq<nat>, b: Root, n: nat)
    requires Layers(d, root, all, level) && b in all && level[|level| - 1] <= n + 1
    ensures Found(all, level, b, n)
  {
    var j :| 0 <= j < |all| && all[j] == b;
    assert level[j] <= level[|level| - 1];
  }

  lemma ScannedIsFound(d: Dom, all: seq<Root>, level: seq<nat>, k: nat, before: seq<Element>)
    requires k < |all| == |level| && Expanded(d, all, level, k) && FoundUnder(d, all, level, before, level[k])
    requires all[k] in d.elements && |before| <= |d.elements[all[k]]| && before == d.elements[all[k]][..|before|]
    ensures AllFound(d, all, Place(k, |before|))
  {
    forall q: Place, b: Root | q.Before(Place(k, |before|)) && Hosts(d, all, q, b) ensures b in all {
      var e := d.elements[all[q.scope]][q.element];
      if q.scope < k {
        assert Edge(d, all[q.scope], b);
        assert Found(all, level, b, level[q.scope]);
      } else {
        assert before[q.element] == e && e in before;
        assert Found(all, level, b, level[k]);
      }
    }
  }

  /** Where the walk stands: `before` are the elements of the k-th scope that have been looked at. */
  ghost predicate Standing(d: Dom, root: Root, all: seq<Root>, level: seq<nat>, at: seq<Place>, k: nat, before: seq<Element>) {
    && k < |all| == |level| && all[k] in d.elements && before <= d.elements[all[k]]
    && Layers(d, root, all, level) && Expanded(d, all, level, k) && level[|level| - 1] <= level[k] + 1
    && FoundUnder(d, all, level, before, level[k])
    && InOrder(d, all, at) && Behind(at, Place(k, |before|))
  }

  lemma NewRootFound(d: Dom, root: Root, all: seq<Root>, level: seq<nat>, at: seq<Place>, k: nat, before: seq<Element>, el: Element)
    requires Standing(d, root, all, level, at, k, before) && Closed(d) && el in d.shadow && d.shadow[el] !in all
    requires before + [el] <= d.elements[all[k]]
    ensures Standing(d, root, all + [d.shadow[el]], level + [level[k] + 1], at + [Place(k, |before|)], k, before + [el])
  {
    var b := d.shadow[el];
    assert d.elements[all[k]][|before|] == el;
    assert Edge(d, all[k], b);
    PlaceGrows(d, all, level, at, k, before, b);
    LayersGrow(d, root, all, level, k, b);
    ExpandedGrows(d, all, level, k, b, level[k] + 1);
    FoundUnderGrows(d, all, level, before, level[k], el);
  }

  lemma PlaceGrows(d: Dom, all: seq<Root>, level: seq<nat>, at: seq<Place>, k: nat, before: seq<Element>, b: Root)
    requires k < |all| == |level| && Expanded(d, all, level, k) && FoundUnder(d, all, level, before, level[k])
    requires all[k] in d.elements && |before| < |d.elements[all[k]]| && before == d.elements[all[k]][..|before|]
    requires InOrder(d, all, at) && Behind(at, Place(k, |before|))
    requires Hosts(d, all, Place(k, |before|), b) && b !in all
    ensures InOrder(d, all + [b], at + [Place(k, |before|)]) && Behind(at + [Place(k, |before|)], Place(k, |before| + 1))
  {
    ScannedIsFound(d, all, level, k, before);
    OrderGrows(d, all, at, Place(k, |before|), b);
    StillBehind(at, k, |before|);
  }

  lemma StillBehind(at: seq<Place>, k: nat, n: nat)
    requires Behind(at, Place(k, n))
    ensures Behind(at + [Place(k, n)], Place(k, n + 1)) && Behind(at, Place(k, n + 1))
  {
  }

  lemma NothingNew(d: Dom, root: Root, all: seq<Root>, level: seq<nat>, at: seq<Place>, k: nat, before: seq<Element>, el: Element)
    requires Standing(d, root, all, level, at, k, before) && before + [el] <= d.elements[all[k]]
    requires el in d.shadow ==> d.shadow[el] in all
    ensures Standing(d, root, all, level, at, k, before + [el])
  {
    StillBehind(at, k, |before|);
    if el in d.shadow {
      AlreadyFound(d, root, all, level, d.shadow[el], level[k]);
    }
  }

  /** One element of the scope at position k: its shadow root, if new, joins the queue. */
  method Discover(d: Dom, ghost root: Root, el: Element, ghost k: nat, ghost visited: seq<Root>, queue: seq<Root>,
                  seen: set<Root>, ghost level: seq<nat>, ghost before: seq<Element>, ghost at: seq<Place>)
    returns (queue': seq<Root>, seen': set<Root>, ghost level': seq<nat>, ghost at': seq<Place>)
    requires Closed(d) && k < |visited| && Standing(d, root, visited + queue, level, at, k, before)
    requires visited[k] in d.elements && before + [el] <= d.elements[visited[k]]
    requires forall r :: r in seen <==> r in visited + queue
    ensures Standing(d, root, visited + queue', level', at', k, before + [el]) && level'[k] == level[k]
    ensures forall r :: r in seen' <==> r in visited + queue'
  {
    queue', seen', level', at' := queue, seen, level, at;
    ghost var all := visited + queue;
    assert all[k] == visited[k];
    if el in d.shadow && d.shadow[el] !in seen {
      var shadowRoot := d.shadow[el];
      NewRootFound(d, root, all, level, at, k, before, el);
      assert visited + (queue + [shadowRoot]) == all + [shadowRoot];
      seen' := seen + {shadowRoot};
      queue' := queue + [shadowRoot];
      level' := level + [level[k] + 1];
      at' := at + [Place(k, |before|)];
    } else {
      NothingNew(d, root, all, level, at, k, before, el);
    }
  }

  /** One round of the walk's outer loop: the shadow roots under `scope` that are new join the queue. */
  method Expand(d: Dom, ghost root: Root, scope: Root, ghost visited: seq<Root>, queue: seq<Root>, seen: set<Root>,
                ghost level: seq<nat>, ghost at: seq<Place>)
    returns (queue': seq<Root>, seen': set<Root>, ghost level': seq<nat>, ghost at': seq<Place>)
    requires Closed(d) && scope in d.elements && visited != [] && visited[|visited| - 1] == scope
    requires Layers(d, root, visited + queue, level) && Expanded(d, visited + queue, level, |visited| - 1)
    requires forall r :: r in seen <==> r in visited + queue
    requires level[|level| - 1] <= level[|visited| - 1] + 1
    requires InOrder(d, visited + queue, at) && Behind(at, Place(|visited| - 1, 0))
    ensures InOrder(d, visited + queue', at') && Behind(at', Place(|visited|, 0))
    ensures Layers(d, root, visited + queue', level') && Expanded(d, visited + queue', level', |visited|)
    ensures forall r :: r in seen' <==> r in visited + queue'
    ensures level'[|level'| - 1] <= level'[|visited| - 1] + 1
  {
    queue', seen', level', at' := queue, seen, level, at;
    ghost var k := |visited| - 1;
    var elements := d.elements[scope];
    for i := 0 to |elements|
      invariant Standing(d, root, visited + queue', level', at', k, elements[..i])
      invariant forall r :: r in seen' <==> r in visited + queue'
    {
      assert elements[..i + 1] == elements[..i] + [elements[i]];
      queue', seen', level', at' := Discover(d, root, elements[i], k, visited, queue', seen', level', elements[..i], at');
    }
    assert elements[..|elements|] == elements;
    ScopeDone(d, root, visited + queue', level', at', k, elements);
  }

  lemma ScopeDone(d: Dom, root: Root, all: seq<Root>, level: seq<nat>, at: seq<Place>, k: nat, elements: seq<Element>)
    requires Standing(d, root, all, level, at, k, elements) && elements == d.elements[all[k]]
    ensures Expanded(d, all, level, k + 1) && Behind(at, Place(k + 1, 0))
  {
    ScopeExpanded(d, all, level, k);
  }

  lemma ScopeExpanded(d: Dom, all: seq<Root>, level: seq<nat>, k: nat)
    requires k < |all| == |level| && Expanded(d, all, level, k) && all[k] in d.elements
    requires FoundUnder(d, all, level, d.elements[all[k]], level[k])
    ensures Expanded(d, all, level, k + 1)
  {
  }

  ghost function Unvisited(d: Dom, visited: seq<Root>): set<Root> { set r | r in d.elements && r !in visited }

  /** The walk visits exactly the reachable roots, each once, and terminates on any finite graph. */
  method Walk(d: Dom, root: Root) returns (visited: seq<Root>)
    requires Closed(d) && root in d.elements
    ensures IsWalk(d, root, visited) && InDocumentOrder(d, visited)
  {
    visited := [];
    var seen, queue := {root}, [root];
    ghost var level, at := [0], [Place(0, 0)];
    while |queue| > 0
      invariant Layers(d, root, visited + queue, level)
      invariant forall r :: r in seen <==> r in visited + queue
      invariant Expanded(d, visited + queue, level, |visited|)
      invariant InOrder(d, visited + queue, at) && Behind(at, Place(|visited|, 0))
      invariant queue != [] ==> level[|level| - 1] <= level[|visited|] + 1
      decreases Unvisited(d, visited)
    {
      var scope := queue[0];
      ghost var k, all := |visited|, visited + queue;
      assert all[k] == scope && forall i :: 0 <= i < k ==> visited[i] == all[i];
      assert scope in d.elements.Keys && scope !in visited;
      ghost var before := visited;
      visited, queue := visited + [scope], queue[1..];
      assert visited + queue == all;
      queue, seen, level, at := Expand(d, root, scope, visited, queue, seen, level, at);
      assert scope in Unvisited(d, before) && scope !in Unvisited(d, visited);
      assert Unvisited(d, visited) <= Unvisited(d, before);
      NextLevel(d, root, visited + queue, level, k);
    }
    assert visited + queue == visited;
    ExpandedIsWalk(d, root, visited, level);
  }

  lemma NextLevel(d: Dom, root: Root, all: seq<Root>, level: seq<nat>, k: nat)
    requires Layers(d, root, all, level) && k < |all| && level[|level| - 1] <= level[k] + 1
    ensures k + 1 < |all| ==> level[|level| - 1] <= level[k + 1] + 1
  {
  }

  // ---------- queries ----------

  function Hits(d: Dom, r: Root): seq<Element> { if r in d.matches then d.matches[r] else [] }

  function Flatten(d: Dom, rs: seq<Root>): seq<Element> {
    if rs == [] then [] else Flatten(d, rs[..|rs| - 1]) + Hits(d, rs[|rs| - 1])
  }

  lemma {:induction false} FlattenHas(d: Dom, rs: seq<Root>)
    ensures forall e :: e in Flatten(d, rs) <==> exists r <- rs :: e in Hits(d, r)
  {
    if rs != [] {
      var init, last := rs[..|rs| - 1], rs[|rs| - 1];
      FlattenHas(d, init);
      assert forall r :: r in rs <==> r in init || r == last by { assert rs == init + [last]; }
    }
  }

  /** The elements of `es` in order of first occurrence. */
  function FirstOccurrences(es: seq<Element>): seq<Element> {
    if es == [] then []
    else
      var before, last := FirstOccurrences(es[..|es| - 1]), es[|es| - 1];
      if last in before then before else before + [last]
  }

  lemma {:induction false} FirstOccurrencesIsUnion(es: seq<Element>)
    ensures NoDup(FirstOccurrences(es))
    ensures forall e :: e in FirstOccurrences(es) <==> e in es
  {
    if es != [] {
      FirstOccurrencesIsUnion(es[..|es| - 1]);
      assert es == es[..|es| - 1] + [es[|es| - 1]];
    }
  }

  /** They come in the order in which they occur first. */
  lemma {:induction false} FirstOccurrencesInOrder(es: seq<Element>, i: nat, j: nat)
    requires i < j < |FirstOccurrences(es)|
    ensures exists p :: 0 <= p < |es| && es[p] == FirstOccurrences(es)[i] && FirstOccurrences(es)[j] !in es[..p + 1]
  {
    var before, f := FirstOccurrences(es[..|es| - 1]), FirstOccurrences(es);
    if j < |before| {
      FirstOccurrencesInOrder(es[..|es| - 1], i, j);
      var p :| 0 <= p < |es| - 1 && es[..|es| - 1][p] == before[i] && before[j] !in es[..|es| - 1][..p + 1];
      assert es[..|es| - 1][..p + 1] == es[..p + 1];
    } else {
      FirstOccurrencesIsUnion(es[..|es| - 1]);
      assert before[i] in before && before[i] in es[..|es| - 1];
      var p :| 0 <= p < |es| - 1 && es[p] == before[i];
      assert es[..p + 1] <= es[..|es| - 1];
    }
  }

  ghost predicate Matches(d: Dom, root: Root, e: Element) { exists r: Root :: Reaches(d, root, r) && e in Hits(d, r) }

  lemma FlattenOfWalk(d: Dom, root: Root, visited: seq<Root>)
    requires IsWalk(d, root, visited)
    ensures forall e :: e in Flatten(d, visited) <==> Matches(d, root, e)
  {
    FlattenHas(d, visited);
    forall e: Element ensures (exists r <- visited :: e in Hits(d, r)) <==> Matches(d, root, e) {
      if Matches(d, root, e) {
        var r :| Reaches(d, root, r) && e in Hits(d, r);
        assert r in visited;
      }
    }
  }

  /** The matches of every reachable root, without duplicates, in the order in which the walk meets them first. */
  method QueryAllAcrossRoots(d: Dom, root: Root) returns (out: seq<Element>, visited: seq<Root>)
    requires Closed(d) && root in d.elements
    ensures IsWalk(d, root, visited) && InDocumentOrder(d, visited) && out == FirstOccurrences(Flatten(d, visited))
    ensures NoDup(out)
    ensures forall e :: e in out <==> Matches(d, root, e)
  {
    visited := Walk(d, root);
    out := Collect(d, visited);
    FlattenOfWalk(d, root, visited);
    FirstOccurrencesIsUnion(Flatten(d, visited));
  }

  method Collect(d: Dom, scopes: seq<Root>) returns (out: seq<Element>)
    ensures out == FirstOccurrences(Flatten(d, scopes))
  {
    out := [];
    var seen: set<Element> := {};
    for i := 0 to |scopes|
      invariant out == FirstOccurrences(Flatten(d, scopes[..i]))
      invariant forall e :: e in seen <==> e in out
    {
      assert scopes[..i + 1][..i] == scopes[..i];
      var hits := Hits(d, scopes[i]);
      ghost var before := Flatten(d, scopes[..i]);
      assert before + hits[..0] == before;
      for k := 0 to |hits|
        invariant out == FirstOccurrences(before + hits[..k])
        invariant forall e :: e in seen <==> e in out
      {
        assert (before + hits[..k + 1])[..|before| + k] == before + hits[..k];
        if hits[k] !in seen {
          seen := seen + {hits[k]};
          out := out + [hits[k]];
        }
      }
      assert hits[..|hits|] == hits;
    }
    assert scopes[..|scopes|] == scopes;
  }

  /** `e` is the first match of a root, and no root with a match lies nearer. */
  ghost predicate NearestMatch(d: Dom, root: Root, e: Element) {
    exists r: Root, n: nat :: ReachesIn(d, root, r, n) && Hits(d, r) != [] && Hits(d, r)[0] == e && NothingNearer(d, root, n)
  }

  ghost predicate NothingNearer(d: Dom, root: Root, n: nat) {
    forall r: Root, m: nat :: m < n && ReachesIn(d, root, r, m) ==> Hits(d, r) == []
  }

  /** Of the roots with a match, the one visited first is nearest. */
  lemma FirstHitIsNearest(d: Dom, root: Root, visited: seq<Root>, k: nat)
    requires IsWalk(d, root, visited) && k < |visited| && Hits(d, visited[k]) != []
    requires forall i :: 0 <= i < k ==> Hits(d, visited[i]) == []
    ensures NearestMatch(d, root, Hits(d, visited[k])[0])
  {
    assert visited[k] in visited;
    var n := Depth(d, root, visited[k]);
    forall r: Root, m: nat | m < n && ReachesIn(d, root, r, m) ensures Hits(d, r) == [] {
      assert Reaches(d, root, r);
      var j :| 0 <= j < |visited| && visited[j] == r;
    }
    assert NothingNearer(d, root, n);
  }

  /** The length of a shortest path. */
  ghost function Depth(d: Dom, root: Root, r: Root): (n: nat)
    requires Reaches(d, root, r)
    ensures ReachesIn(d, root, r, n)
    ensures forall m: nat :: ReachesIn(d, root, r, m) ==> n <= m
  {
    var n: nat :| ReachesIn(d, root, r, n);
    Least(d, root, r, 0, n)
  }

  ghost function Least(d: Dom, root: Root, r: Root, from: nat, n: nat): (k: nat)
    requires from <= n && ReachesIn(d, root, r, n) && forall m: nat :: ReachesIn(d, root, r, m) ==> from <= m
    ensures ReachesIn(d, root, r, k)
    ensures forall m: nat :: ReachesIn(d, root, r, m) ==> k <= m
    decreases n - from
  {
    if ReachesIn(d, root, r, from) then from else Least(d, root, r, from + 1, n)
  }

  /** The first match of the first root of a walk that has one. */
  ghost predicate FirstMatchOf(d: Dom, root: Root, visited: seq<Root>, e: Element) {
    && IsWalk(d, root, visited) && InDocumentOrder(d, visited)
    && exists k :: 0 <= k < |visited| && Hits(d, visited[k]) != [] && Hits(d, visited[k])[0] == e
         && forall i :: 0 <= i < k ==> Hits(d, visited[i]) == []
  }

  /** A find is null if and only if nothing reachable matches; otherwise it is a match in a nearest root. */
  method QueryDeep(d: Dom, root: Root) returns (found: Option<Element>)
    requires Closed(d) && root in d.elements
    ensures found.None? <==> forall e: Element :: !Matches(d, root, e)
    ensures found.Some? ==> Matches(d, root, found.value) && NearestMatch(d, root, found.value)
    ensures found.Some? ==> exists visited :: FirstMatchOf(d, root, visited, found.value)
  {
    assert ReachesIn(d, root, root, 0) && Reaches(d, root, root);
    if Hits(d, root) != [] {
      assert Matches(d, root, Hits(d, root)[0]);
      found := Some(Hits(d, root)[0]);
      assert NothingNearer(d, root, 0);
      ghost var walk := Walk(d, root);
      assert FirstMatchOf(d, root, walk, found.value);
      return;
    }
    found := None;
    var scopes := Walk(d, root);
    ghost var at := 0;
    for i := 0 to |scopes|
      invariant found.None? ==> forall k :: 0 <= k < i ==> Hits(d, scopes[k]) == []
      invariant found.Some? ==>
          && at < |scopes| && Hits(d, scopes[at]) != [] && found.value == Hits(d, scopes[at])[0]
          && forall k :: 0 <= k < at ==> Hits(d, scopes[k]) == []
    {
      if found.Some? || scopes[i] == root {
        continue;
      }
      var hits := Hits(d, scopes[i]);
      if hits != [] {
        found := Some(hits[0]);
        at := i;
      }
    }
    if found.Some? {
      FirstHitIsNearest(d, root, scopes, at);
      assert FirstMatchOf(d, root, scopes, found.value);
      assert scopes[at] in scopes;
      assert Matches(d, root, found.value);
    } else {
      forall r | Reaches(d, root, r) ensures Hits(d, r) == [] { assert r in scopes; }
    }
  }

  /** The matches in the light tree if there are any, else the matches of all shadow roots in walk order. */
  method QueryAllDeep(d: Dom, root: Root) returns (out: seq<Element>)
    requires Closed(d) && root in d.elements
    ensures Hits(d, root) != [] ==> out == Hits(d, root)
    ensures Hits(d, root) == [] ==>
        && (exists visited :: IsWalk(d, root, visited) && InDocumentOrder(d, visited) && out == Flatten(d, visited))
        && forall e :: e in out <==> Matches(d, root, e)
    ensures out == [] <==> forall e: Element :: !Matches(d, root, e)
  {
    assert ReachesIn(d, root, root, 0) && Reaches(d, root, root);
    out := Hits(d, root);
    if out != [] {
      assert Matches(d, root, out[0]);
      return;
    }
    var scopes := Walk(d, root);
    for i := 0 to |scopes|
      invariant out == Flatten(d, scopes[..i])
    {
      assert scopes[..i + 1][..i] == scopes[..i];
      if scopes[i] == root {
        continue;
      }
      out := out + Hits(d, scopes[i]);
    }
    assert scopes[..|scopes|] == scopes;
    FlattenOfWalk(d, root, scopes);
    if out != [] {
      assert out[0] in out;
    }
  }
}
