/** The three maps through which the broker finds a registered request lease. */
module LeaseIndex {
  import opened Common

  datatype LeaseRef = LeaseRef(leaseId: string, requestId: string)

  datatype Index = Index(
    byKey: map<string, LeaseRef>,
    byId: map<string, LeaseRef>,
    keysByRequest: map<string, set<string>>)

  const EMPTY := Index(map[], map[], map[])

  function LeaseKey(requestId: string, leaseId: string): string { requestId + ":" + leaseId }

  function KeyOf(l: LeaseRef): string { LeaseKey(l.requestId, l.leaseId) }

  /** Lease ids are UUIDs or "lease-<time>-<base 36>": never a colon. */
  predicate ValidLeaseId(id: string) { ':' !in id }

  /** Request ids may hold colons; the composed key is injective all the same. */
  lemma LeaseKeyIsInjective(a: LeaseRef, b: LeaseRef)
    requires ValidLeaseId(a.leaseId) && ValidLeaseId(b.leaseId)
    requires KeyOf(a) == KeyOf(b)
    ensures a == b
  {
    var k := KeyOf(a);
    var i, j := |a.requestId|, |b.requestId|;
    assert k[i] == ':' && k[j] == ':';
    assert forall x :: i < x < |k| ==> k[x] == a.leaseId[x - i - 1];
    assert forall x :: j < x < |k| ==> k[x] == b.leaseId[x - j - 1];
    assert i == j;
    assert a.requestId == k[..i] && b.requestId == k[..i];
    assert a.leaseId == k[i + 1..] && b.leaseId == k[i + 1..];
  }

  // ---------- operations ----------

  function Add(ix: Index, l: LeaseRef): Index {
    var keys := if l.requestId in ix.keysByRequest then ix.keysByRequest[l.requestId] else {};
    Index(ix.byKey[KeyOf(l) := l], ix.byId[l.leaseId := l],
          ix.keysByRequest[l.requestId := keys + {KeyOf(l)}])
  }

  function Remove(ix: Index, l: LeaseRef): Index {
    var k := KeyOf(l);
    Index(
      if k in ix.byKey && ix.byKey[k] == l then ix.byKey - {k} else ix.byKey,
      if l.leaseId in ix.byId && ix.byId[l.leaseId] == l then ix.byId - {l.leaseId} else ix.byId,
      if l.requestId !in ix.keysByRequest then ix.keysByRequest
      else if ix.keysByRequest[l.requestId] - {k} == {} then ix.keysByRequest - {l.requestId}
      else ix.keysByRequest[l.requestId := ix.keysByRequest[l.requestId] - {k}])
  }

  /** The leases a correlation id leads to, through the key set. */
  function Active(ix: Index, requestId: string): set<LeaseRef> {
    if requestId !in ix.keysByRequest then {}
    else set k | k in ix.keysByRequest[requestId] && k in ix.byKey :: ix.byKey[k]
  }

  /** Which lease a reply belongs to: its lease id if that is registered, else a lone match by correlation id. */
  ghost function Resolve(ix: Index, correlation: Option<string>, leaseId: string): Option<LeaseRef> {
    if leaseId != "" && leaseId in ix.byId then Some(ix.byId[leaseId])
    else if correlation.None? then None
    else
      var found := Active(ix, correlation.value);
      if |found| == 1 then Some(Only(found)) else None
  }

  ghost function Only(s: set<LeaseRef>): (l: LeaseRef)
    requires |s| == 1
    ensures s == {l}
  {
    var l :| l in s;
    assert |s - {l}| == 0;
    assert s == {l} + (s - {l});
    l
  }

  // ---------- coherence ----------

  ghost predicate IdsMatch(ix: Index) {
    forall id <- ix.byId :: ValidLeaseId(id) && ix.byId[id].leaseId == id
  }

  ghost predicate KeysMatchIds(ix: Index) {
    && (forall id <- ix.byId :: KeyOf(ix.byId[id]) in ix.byKey && ix.byKey[KeyOf(ix.byId[id])] == ix.byId[id])
    && (forall k <- ix.byKey :: KeyOf(ix.byKey[k]) == k && ix.byKey[k].leaseId in ix.byId
                                && ix.byId[ix.byKey[k].leaseId] == ix.byKey[k])
  }

  ghost predicate RequestsMatchKeys(ix: Index) {
    && (forall k <- ix.byKey :: HasKey(ix, ix.byKey[k].requestId, k))
    && (forall r <- ix.keysByRequest :: ix.keysByRequest[r] != {})
    && (forall r, k | HasKey(ix, r, k) :: k in ix.byKey && ix.byKey[k].requestId == r)
  }

  predicate HasKey(ix: Index, requestId: string, key: string) {
    requestId in ix.keysByRequest && key in ix.keysByRequest[requestId]
  }

  /** All three maps describe the leases of byId; no key dangles and no key set is empty. */
  ghost predicate Coherent(ix: Index) {
    IdsMatch(ix) && KeysMatchIds(ix) && RequestsMatchKeys(ix)
  }

  ghost function Registered(ix: Index): set<LeaseRef> { ix.byId.Values }

  lemma AddKeepsCoherent(ix: Index, l: LeaseRef)
    requires Coherent(ix) && ValidLeaseId(l.leaseId) && l.leaseId !in ix.byId
    ensures Coherent(Add(ix, l))
    ensures Registered(Add(ix, l)) == Registered(ix) + {l}
  {
    assert KeyOf(l) !in ix.byKey by { UnregisteredHasNoKey(ix, l); }
    AddRequests(ix, l);
    AddKeys(ix, l);
  }

  lemma UnregisteredHasNoKey(ix: Index, l: LeaseRef)
    requires Coherent(ix) && ValidLeaseId(l.leaseId)
    requires l.leaseId in ix.byId ==> ix.byId[l.leaseId] != l
    ensures KeyOf(l) !in ix.byKey
  {
    if KeyOf(l) in ix.byKey {
      LeaseKeyIsInjective(l, ix.byKey[KeyOf(l)]);
    }
  }

  lemma AddKeys(ix: Index, l: LeaseRef)
    requires IdsMatch(ix) && KeysMatchIds(ix)
    requires ValidLeaseId(l.leaseId) && l.leaseId !in ix.byId && KeyOf(l) !in ix.byKey
    ensures IdsMatch(Add(ix, l)) && KeysMatchIds(Add(ix, l))
    ensures Registered(Add(ix, l)) == Registered(ix) + {l}
  {
    var r := Add(ix, l);
    forall x | x in Registered(ix) + {l} ensures x in Registered(r) {
      assert x.leaseId in r.byId && r.byId[x.leaseId] == x;
    }
  }

  lemma AddRequests(ix: Index, l: LeaseRef)
    requires RequestsMatchKeys(ix) && KeyOf(l) !in ix.byKey
    ensures RequestsMatchKeys(Add(ix, l))
  {
    var a := Add(ix, l);
    forall r, k | HasKey(a, r, k) ensures k in a.byKey && a.byKey[k].requestId == r {
      assert HasKey(ix, r, k) || (r == l.requestId && k == KeyOf(l));
    }
    forall k | k in a.byKey ensures HasKey(a, a.byKey[k].requestId, k) {
      assert k == KeyOf(l) || HasKey(ix, ix.byKey[k].requestId, k);
    }
  }

  lemma RemoveKeepsCoherent(ix: Index, l: LeaseRef)
    requires Coherent(ix) && l.leaseId in ix.byId && ix.byId[l.leaseId] == l
    ensures Coherent(Remove(ix, l))
    ensures Registered(Remove(ix, l)) == Registered(ix) - {l}
  {
    RemoveKeys(ix, l);
    RemoveRequests(ix, l);
  }

  lemma RemoveDropsId(ix: Index, l: LeaseRef)
    requires Coherent(ix) && l.leaseId in ix.byId && ix.byId[l.leaseId] == l
    ensures Coherent(Remove(ix, l)) && Remove(ix, l).byId == ix.byId - {l.leaseId}
  {
    RemoveKeepsCoherent(ix, l);
  }

  lemma RemoveKeys(ix: Index, l: LeaseRef)
    requires IdsMatch(ix) && KeysMatchIds(ix) && l.leaseId in ix.byId && ix.byId[l.leaseId] == l
    ensures IdsMatch(Remove(ix, l)) && KeysMatchIds(Remove(ix, l))
    ensures Registered(Remove(ix, l)) == Registered(ix) - {l}
  {
    var r := Remove(ix, l);
    forall x | x in Registered(ix) - {l} ensures x in Registered(r) {
      assert x.leaseId in r.byId && r.byId[x.leaseId] == x;
    }
  }

  lemma RemoveRequests(ix: Index, l: LeaseRef)
    requires RequestsMatchKeys(ix) && KeyOf(l) in ix.byKey && ix.byKey[KeyOf(l)] == l
    ensures RequestsMatchKeys(Remove(ix, l))
  {
    var a := Remove(ix, l);
    assert HasKey(ix, l.requestId, KeyOf(l));
    forall r, k | HasKey(a, r, k) ensures k in a.byKey && a.byKey[k].requestId == r {
      assert HasKey(ix, r, k) && k != KeyOf(l);
    }
    forall k | k in a.byKey ensures HasKey(a, a.byKey[k].requestId, k) {
      assert HasKey(ix, ix.byKey[k].requestId, k);
    }
  }

  /** What a lookup leaves of the key set: it drops keys that lead nowhere. */
  function DropDangling(ix: Index, requestId: string): Index {
    if requestId !in ix.keysByRequest then ix
    else
      var live := set k | k in ix.keysByRequest[requestId] && k in ix.byKey;
      ix.(keysByRequest :=
        if live == {} then ix.keysByRequest - {requestId} else ix.keysByRequest[requestId := live])
  }

  lemma NothingDangles(ix: Index, requestId: string)
    requires Coherent(ix)
    ensures DropDangling(ix, requestId) == ix
  {
    if requestId in ix.keysByRequest {
      assert forall k <- ix.keysByRequest[requestId] :: HasKey(ix, requestId, k);
      assert (set k | k in ix.keysByRequest[requestId] && k in ix.byKey) == ix.keysByRequest[requestId];
      assert ix.keysByRequest[requestId := ix.keysByRequest[requestId]] == ix.keysByRequest;
    }
  }

  lemma ActiveIsByRequest(ix: Index, requestId: string)
    requires Coherent(ix)
    ensures Active(ix, requestId) == set l | l in Registered(ix) && l.requestId == requestId
  {
    forall l | l in Registered(ix) && l.requestId == requestId ensures l in Active(ix, requestId) {
      assert ix.byKey[KeyOf(l)] == l && HasKey(ix, requestId, KeyOf(l));
    }
    forall l | l in Active(ix, requestId) ensures l in Registered(ix) && l.requestId == requestId {
      assert HasKey(ix, requestId, KeyOf(l)) && ix.byId[l.leaseId] == l;
    }
  }

  /** A reply that carries no registered lease id reaches a lease exactly when its correlation id
      names one registered lease and no other. */
  lemma ResolveByCorrelationIsUnique(ix: Index, correlation: string, leaseId: string, l: LeaseRef)
    requires Coherent(ix)
    requires leaseId == "" || leaseId !in ix.byId
    ensures Resolve(ix, Some(correlation), leaseId) == Some(l)
        <==> (set x | x in Registered(ix) && x.requestId == correlation) == {l}
  {
    ActiveIsByRequest(ix, correlation);
  }

  /** The in-memory index, updated in place. */
  class LeaseRegistry {
    var byKey: map<string, LeaseRef>
    var byId: map<string, LeaseRef>
    var keysByRequest: map<string, set<string>>

    ghost function Maps(): Index reads this { Index(byKey, byId, keysByRequest) }

    constructor ()
      ensures Maps() == EMPTY && Coherent(Maps())
    {
      byKey, byId, keysByRequest := map[], map[], map[];
    }

    method IndexLease(l: LeaseRef)
      requires Coherent(Maps()) && ValidLeaseId(l.leaseId) && l.leaseId !in byId
      modifies this
      ensures Maps() == Add(old(Maps()), l)
      ensures Coherent(Maps()) && Registered(Maps()) == old(Registered(Maps())) + {l}
    {
      AddKeepsCoherent(Maps(), l);
      byKey := byKey[KeyOf(l) := l];
      byId := byId[l.leaseId := l];
      if l.requestId !in keysByRequest {
        keysByRequest := keysByRequest[l.requestId := {}];
      }
      keysByRequest := keysByRequest[l.requestId := keysByRequest[l.requestId] + {KeyOf(l)}];
    }

    method ClearLease(l: LeaseRef)
      requires Coherent(Maps()) && ValidLeaseId(l.leaseId)
      modifies this
      ensures Maps() == Remove(old(Maps()), l)
      ensures Coherent(Maps()) && Registered(Maps()) == old(Registered(Maps())) - {l}
    {
      ClearKeepsCoherent(Maps(), l);
      var k := KeyOf(l);
      if k in byKey && byKey[k] == l {
        byKey := byKey - {k};
      }
      if l.requestId in keysByRequest {
        keysByRequest := keysByRequest[l.requestId := keysByRequest[l.requestId] - {k}];
        if keysByRequest[l.requestId] == {} {
          keysByRequest := keysByRequest - {l.requestId};
        }
      }
      if l.leaseId in byId && byId[l.leaseId] == l {
        byId := byId - {l.leaseId};
      }
    }

    method ActiveForRequest(requestId: string) returns (leases: seq<LeaseRef>)
      modifies this
      ensures Maps() == DropDangling(old(Maps()), requestId)
      ensures (set l | l in leases) == Active(old(Maps()), requestId)
      ensures old(KeysMatchIds(Maps())) ==> forall i, j :: 0 <= i < j < |leases| ==> leases[i] != leases[j]
    {
      leases := [];
      if requestId !in keysByRequest {
        return;
      }
      ghost var keys := keysByRequest[requestId];
      var todo := keysByRequest[requestId];
      while todo != {}
        invariant todo <= keys
        invariant byKey == old(byKey) && byId == old(byId)
        invariant requestId in keysByRequest
        invariant keysByRequest[requestId] == set k | k in keys && (k in todo || k in byKey)
        invariant keysByRequest == old(keysByRequest)[requestId := keysByRequest[requestId]]
        invariant forall l :: l in leases <==> exists k :: k in keys - todo && k in byKey && l == byKey[k]
        invariant old(KeysMatchIds(Maps())) ==> forall i, j :: 0 <= i < j < |leases| ==> leases[i] != leases[j]
        decreases |todo|
      {
        var k :| k in todo;
        if k in byKey {
          assert old(KeysMatchIds(Maps())) ==> forall l <- leases :: KeyOf(l) != k;
          leases := leases + [byKey[k]];
        } else {
          keysByRequest := keysByRequest[requestId := keysByRequest[requestId] - {k}];
        }
        todo := todo - {k};
      }
      ghost var live := set k | k in keys && k in byKey;
      assert keysByRequest[requestId] == live;
      if keysByRequest[requestId] == {} {
        keysByRequest := keysByRequest - {requestId};
        assert keysByRequest == old(keysByRequest) - {requestId};
      }
      assert DropDangling(old(Maps()), requestId).keysByRequest == keysByRequest;
    }

    method ResolveForResponse(correlation: Option<string>, leaseId: string) returns (l: Option<LeaseRef>)
      requires Coherent(Maps())
      modifies this
      ensures Maps() == old(Maps())
      ensures l == Resolve(Maps(), correlation, leaseId)
    {
      if leaseId != "" && leaseId in byId {
        return Some(byId[leaseId]);
      }
      if correlation.None? {
        return None;
      }
      NothingDangles(Maps(), correlation.value);
      var leases := ActiveForRequest(correlation.value);
      ghost var found := Active(Maps(), correlation.value);
      DistinctSize(leases);
      if |leases| == 1 {
        assert leases[0] in found && |found| == 1;
        return Some(leases[0]);
      }
      return None;
    }
  }

  lemma DistinctSize(s: seq<LeaseRef>)
    requires forall i, j :: 0 <= i < j < |s| ==> s[i] != s[j]
    ensures |set l | l in s| == |s|
  {
    if s != [] {
      DistinctSize(s[1..]);
      assert (set l | l in s) == (set l | l in s[1..]) + {s[0]};
    }
  }

  /** Clearing a lease that is not registered changes nothing. */
  lemma ClearKeepsCoherent(ix: Index, l: LeaseRef)
    requires Coherent(ix) && ValidLeaseId(l.leaseId)
    ensures Coherent(Remove(ix, l))
    ensures Registered(Remove(ix, l)) == Registered(ix) - {l}
    ensures l !in Registered(ix) ==> Remove(ix, l) == ix
  {
    if l.leaseId in ix.byId && ix.byId[l.leaseId] == l {
      RemoveKeepsCoherent(ix, l);
    } else {
      UnregisteredHasNoKey(ix, l);
      if l.requestId in ix.keysByRequest {
        assert !HasKey(ix, l.requestId, KeyOf(l));
        assert ix.keysByRequest[l.requestId] - {KeyOf(l)} == ix.keysByRequest[l.requestId];
        assert ix.keysByRequest == ix.keysByRequest[l.requestId := ix.keysByRequest[l.requestId]];
      }
    }
  }
}
