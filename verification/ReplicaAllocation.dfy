/** Allocation of replicas for a flow: target arithmetic, reuse and creation against a store, and what is deployed or removed. */
module ReplicaAllocation {
  import opened Dependencies
  import opened Graphs
  import opened Grouping

  /** A replica record. Its unique id stands for its name as well. */
  datatype Replica = Replica(uid: string, timestamp: int, deployed: bool)

  // ---------- order ----------

  /** By creation time, then by unique id. */
  predicate Older(a: Replica, b: Replica) {
    a.timestamp < b.timestamp || (a.timestamp == b.timestamp && Before(a.uid, b.uid))
  }

  ghost predicate OldestFirst(s: seq<Replica>) {
    forall i, j :: 0 <= i < j < |s| ==> Older(s[i], s[j])
  }

  ghost predicate DistinctUids(s: set<Replica>) {
    forall a, b :: a in s && b in s && a.uid == b.uid ==> a == b
  }

  lemma OlderTransitive(a: Replica, b: Replica, c: Replica)
    requires Older(a, b) && Older(b, c)
    ensures Older(a, c)
  {
    if a.timestamp == b.timestamp == c.timestamp { BeforeTransitive(a.uid, b.uid, c.uid); }
  }

  lemma OlderIrreflexive(a: Replica)
    ensures !Older(a, a)
  {
    BeforeIrreflexive(a.uid);
  }

  lemma OlderAsymmetric(a: Replica, b: Replica)
    ensures !(Older(a, b) && Older(b, a))
  {
    if Older(a, b) && Older(b, a) {
      OlderTransitive(a, b, a);
      OlderIrreflexive(a);
    }
  }

  lemma OlderTotal(a: Replica, b: Replica)
    requires a.uid != b.uid
    ensures Older(a, b) || Older(b, a)
  {
    BeforeTotal(a.uid, b.uid);
  }

  function InsertByAge(s: seq<Replica>, r: Replica): seq<Replica> {
    if s == [] || Older(r, s[0]) then [r] + s else [s[0]] + InsertByAge(s[1..], r)
  }

  function SortByAge(s: seq<Replica>): seq<Replica> {
    if s == [] then [] else InsertByAge(SortByAge(s[..|s| - 1]), s[|s| - 1])
  }

  lemma {:induction false} InsertByAgeContents(s: seq<Replica>, r: Replica)
    ensures Elements(InsertByAge(s, r)) == Elements(s) + {r} && |InsertByAge(s, r)| == |s| + 1
  {
    if s != [] && !Older(r, s[0]) {
      InsertByAgeContents(s[1..], r);
      assert s == [s[0]] + s[1..];
      var t := InsertByAge(s, r);
      assert t == [s[0]] + InsertByAge(s[1..], r);
      forall x | x in t ensures x in Elements(s) + {r} {
        if x != s[0] { assert x in Elements(InsertByAge(s[1..], r)); }
      }
      forall x | x in Elements(s) + {r} ensures x in t {
        if x != s[0] { assert x in Elements(InsertByAge(s[1..], r)); }
      }
    }
  }

  lemma {:induction false} InsertByAgeSorted(s: seq<Replica>, r: Replica)
    requires OldestFirst(s) && forall x :: x in s ==> x.uid != r.uid
    ensures OldestFirst(InsertByAge(s, r))
  {
    var t := InsertByAge(s, r);
    if s == [] {
    } else if Older(r, s[0]) {
      forall j | 1 <= j < |t| ensures Older(r, t[j]) {
        if j > 1 { OlderTransitive(r, s[0], s[j - 1]); }
      }
    } else {
      InsertByAgeSorted(s[1..], r);
      InsertByAgeContents(s[1..], r);
      assert s[0] in s;
      OlderTotal(r, s[0]);
      forall j | 1 <= j < |t| ensures Older(t[0], t[j]) {
        assert t[j] in Elements(InsertByAge(s[1..], r));
        if t[j] != r {
          var k :| 0 <= k < |s[1..]| && s[1..][k] == t[j];
          assert s[k + 1] == t[j];
        }
      }
      assert forall i, j :: 1 <= i < j < |t| ==> t[i] == InsertByAge(s[1..], r)[i - 1] && t[j] == InsertByAge(s[1..], r)[j - 1];
    }
  }

  lemma {:induction false} SortByAgeSorts(s: seq<Replica>)
    requires Distinct(s) && DistinctUids(Elements(s))
    ensures OldestFirst(SortByAge(s)) && Elements(SortByAge(s)) == Elements(s) && |SortByAge(s)| == |s|
  {
    if s != [] {
      var front, r := s[..|s| - 1], s[|s| - 1];
      assert s == front + [r];
      assert Elements(s) == Elements(front) + {r};
      SortByAgeSorts(front);
      forall x | x in SortByAge(front) ensures x.uid != r.uid {
        assert x in Elements(SortByAge(front)) && x in Elements(front);
        assert x in Elements(s) && r in Elements(s);
        var i :| 0 <= i < |front| && front[i] == x;
        assert s[i] == x;
      }
      InsertByAgeSorted(SortByAge(front), r);
      InsertByAgeContents(SortByAge(front), r);
    }
  }

  /** `list` is the one listing of a set of records from oldest to newest. */
  ghost predicate Lists(list: seq<Replica>, s: set<Replica>) {
    OldestFirst(list) && Elements(list) == s
  }

  lemma {:induction false} ListingUnique(a: seq<Replica>, b: seq<Replica>, s: set<Replica>)
    requires Lists(a, s) && Lists(b, s)
    ensures a == b
    decreases |a|
  {
    if a == [] {
      OldestFirstDistinct(b);
      assert s == {};
    } else {
      assert a[0] in Elements(b);
      assert b[0] in b && b[0] in Elements(a);
      FirstIsOldest(a, b[0]);
      FirstIsOldest(b, a[0]);
      if a[0] != b[0] {
        OlderTransitive(a[0], b[0], a[0]);
        OlderIrreflexive(a[0]);
      }
      RestLists(a, s);
      RestLists(b, s);
      ListingUnique(a[1..], b[1..], s - {a[0]});
      assert a == [a[0]] + a[1..] && b == [b[0]] + b[1..];
    }
  }

  lemma FirstIsOldest(a: seq<Replica>, x: Replica)
    requires OldestFirst(a) && x in a
    ensures x == a[0] || Older(a[0], x)
  {
  }

  lemma RestLists(a: seq<Replica>, s: set<Replica>)
    requires Lists(a, s) && a != []
    ensures Lists(a[1..], s - {a[0]})
  {
    forall x | x in a[1..] ensures x in s && x != a[0] {
      var i :| 0 <= i < |a[1..]| && a[1..][i] == x;
      assert a[i + 1] == x && x in Elements(a);
      OlderIrreflexive(x);
    }
    forall x | x in s - {a[0]} ensures x in a[1..] {
      assert x in Elements(a);
      var i :| 0 <= i < |a| && a[i] == x;
      assert a[1..][i - 1] == x;
    }
  }

  lemma OldestFirstDistinct(a: seq<Replica>)
    requires OldestFirst(a)
    ensures Distinct(a) && |Elements(a)| == |a|
  {
    forall i, j | 0 <= i < j < |a| ensures a[i] != a[j] {
      OlderIrreflexive(a[i]);
    }
    DistinctCount(a);
  }

  // ---------- the store ----------

  ghost function Deployed(s: set<Replica>): set<Replica> {
    set r | r in s && r.deployed
  }

  ghost function Waiting(s: set<Replica>): set<Replica> {
    set r | r in s && !r.deployed
  }

  /** The records of one replica space, the clock that stamps new ones, and the server's choice of new ids. */
  class Store {
    var records: set<Replica>
    var clock: int
    const pickUid: set<string> -> string

    ghost predicate Valid()
      reads this
    {
      DistinctUids(records) && forall used :: pickUid(used) !in used
    }

    constructor (pickUid: set<string> -> string)
      requires forall used :: pickUid(used) !in used
      ensures records == {} && Valid()
    {
      records, clock, this.pickUid := {}, 0, pickUid;
    }

    method List() returns (items: seq<Replica>)
      requires Valid()
      ensures Distinct(items) && Elements(items) == records
    {
      items := [];
      var todo := records;
      while todo != {}
        invariant todo <= records
        invariant Distinct(items) && Elements(items) == records - todo
        decreases todo
      {
        var r :| r in todo;
        todo := todo - {r};
        DistinctAppend(items, r);
        items := items + [r];
      }
    }

    /** Creates a record with a new id, stamped with a time that may have moved on; or fails. */
    method Create() returns (r: Option<Replica>)
      requires Valid()
      modifies this
      ensures Valid() && clock >= old(clock)
      ensures r.None? ==> records == old(records)
      ensures r.Some? ==> r.value.timestamp == clock && !r.value.deployed && records == old(records) + {r.value}
      ensures r.Some? ==> forall x :: x in old(records) ==> x.uid != r.value.uid
    {
      var elapsed: nat, fails: bool := *, *;
      clock := clock + elapsed;
      if fails {
        r := None;
      } else {
        var used := set x | x in records :: x.uid;
        r := Some(Replica(pickUid(used), clock, false));
        records := records + {r.value};
      }
    }

    /** Deletes a record, or fails. */
    method Delete(uid: string) returns (ok: bool)
      requires Valid()
      modifies this`records
      ensures Valid() && records == if ok then set r | r in old(records) && r.uid != uid else old(records)
    {
      ok := *;
      if ok {
        records := set r | r in records && r.uid != uid;
      }
    }

    /** Replaces a record, or fails. */
    method Update(r: Replica, r': Replica) returns (ok: bool)
      requires Valid() && r in records && r'.uid == r.uid
      modifies this`records
      ensures Valid() && records == if ok then old(records) - {r} + {r'} else old(records)
    {
      ok := *;
      if ok {
        records := records - {r} + {r'};
      }
    }

    /** Sleeping for a second moves the clock on by at least one. */
    method Sleep()
      modifies this`clock
      ensures clock > old(clock)
    {
      var more: int := *;
      clock := clock + if more > 0 then more + 1 else 1;
    }
  }

  // ---------- creating what is missing ----------

  /** What bringing a store up to `desired` records leaves behind. Deployed records stay. Undeployed ones are reused oldest
      first before any is created, the rest are dropped, and a created one is later than everything there was. */
  ghost predicate BroughtUpTo(before: set<Replica>, desired: int, after: set<Replica>) {
    && Deployed(after) == Deployed(before)
    && |after| == (if desired > |Deployed(before)| then desired else |Deployed(before)|)
    && (forall r :: r in Waiting(after) && r !in before ==> LaterThanAll(r, before))
    && ((exists r :: r in after && r !in before) ==> before <= after)
    && (forall u, v :: u in Waiting(before) && u in after && v in Waiting(before) && v !in after ==> Older(u, v))
  }

  ghost predicate LaterThanAll(r: Replica, s: set<Replica>) {
    forall x :: x in s ==> x.timestamp < r.timestamp && x.uid != r.uid
  }

  /** The latest creation time, or `floor` when there is none later. */
  method LatestTime(items: seq<Replica>) returns (latest: int)
    ensures latest >= 0 && forall r :: r in items ==> r.timestamp <= latest
  {
    latest := 0;
    for i := 0 to |items|
      invariant latest >= 0 && forall j :: 0 <= j < i ==> items[j].timestamp <= latest
    {
      if items[i].timestamp > latest {
        latest := items[i].timestamp;
      }
    }
  }

  method Split(items: seq<Replica>) returns (deployed: seq<Replica>, unused: seq<Replica>)
    requires Distinct(items)
    ensures Distinct(deployed) && Elements(deployed) == Deployed(Elements(items))
    ensures Distinct(unused) && Elements(unused) == Waiting(Elements(items))
  {
    deployed, unused := [], [];
    for i := 0 to |items|
      invariant Distinct(deployed) && Elements(deployed) == Deployed(Elements(items[..i]))
      invariant Distinct(unused) && Elements(unused) == Waiting(Elements(items[..i]))
    {
      var r := items[i];
      assert Elements(items[..i + 1]) == Elements(items[..i]) + {r};
      assert r !in Elements(items[..i]) by {
        assert forall j :: 0 <= j < i ==> items[..i][j] != r;
      }
      if r.deployed {
        DistinctAppend(deployed, r);
        deployed := deployed + [r];
      } else {
        DistinctAppend(unused, r);
        unused := unused + [r];
      }
    }
    assert items[..|items|] == items;
  }

  /** The state of the creation loop: `list` has the deployed records, the reused ones, and the created ones; `unused` the
      rest of the undeployed ones, oldest first; `stale` those created too early that could not be taken back. */
  ghost predicate Creating(before: set<Replica>, latest: int, list: seq<Replica>, unused: seq<Replica>,
                           stale: set<Replica>, records: set<Replica>) {
    && Distinct(list) && Distinct(unused) && OldestFirst(unused)
    && records == Elements(list) + Elements(unused) + stale && Elements(list) !! Elements(unused) && Elements(list) !! stale
    && DistinctUids(records)
    && before <= records && before !! stale
    && (forall r :: r in before ==> r.timestamp <= latest)
    && (forall r :: r in stale ==> r.timestamp <= latest && !r.deployed)
    && Deployed(Elements(list)) == Deployed(before) && Deployed(Elements(unused)) == {}
    && (forall r :: r in Elements(list) && r !in before ==> r.timestamp > latest)
    && Elements(unused) <= before
    && ((exists r :: r in Elements(list) && r !in before) ==> unused == [])
    && (forall u, v :: u in Elements(list) && !u.deployed && u in before && v in Elements(unused) ==> Older(u, v))
  }

  lemma CreatingBegins(before: set<Replica>, latest: int, list: seq<Replica>, unused: seq<Replica>)
    requires DistinctUids(before) && forall r :: r in before ==> r.timestamp <= latest
    requires Distinct(list) && Elements(list) == Deployed(before)
    requires Distinct(unused) && Elements(unused) == Waiting(before) && OldestFirst(unused)
    ensures Creating(before, latest, list, unused, {}, before)
  {
  }

  lemma CreatingReuses(before: set<Replica>, latest: int, list: seq<Replica>, unused: seq<Replica>,
                       stale: set<Replica>, records: set<Replica>)
    requires Creating(before, latest, list, unused, stale, records) && unused != []
    ensures Creating(before, latest, list + [unused[0]], unused[1..], stale, records)
  {
    hide OldestFirst;
    var r, rest := unused[0], unused[1..];
    assert r in Elements(unused);
    DistinctAppend(list, r);
    RestListed(unused);
    assert Elements(list + [r]) == Elements(list) + {r};
    assert !r.deployed by { assert r !in Deployed(Elements(unused)); }
    assert Deployed(Elements(list) + {r}) == Deployed(Elements(list));
    assert Deployed(Elements(rest)) == {};
  }

  lemma RestListed(unused: seq<Replica>)
    requires OldestFirst(unused) && unused != []
    ensures OldestFirst(unused[1..]) && Distinct(unused[1..]) && Elements(unused[1..]) == Elements(unused) - {unused[0]}
    ensures forall v :: v in Elements(unused[1..]) ==> Older(unused[0], v)
  {
    RestLists(unused, Elements(unused));
    OldestFirstDistinct(unused[1..]);
    forall v | v in Elements(unused[1..]) ensures Older(unused[0], v) {
      TailHolds(unused, 1, v);
    }
  }

  lemma CreatingCreates(before: set<Replica>, latest: int, list: seq<Replica>, stale: set<Replica>,
                        records: set<Replica>, r: Replica)
    requires Creating(before, latest, list, [], stale, records)
    requires !r.deployed && r.timestamp > latest && forall x :: x in records ==> x.uid != r.uid
    ensures Creating(before, latest, list + [r], [], stale, records + {r})
  {
    assert r !in records;
    DistinctAppend(list, r);
    assert Deployed(Elements(list + [r])) == Deployed(Elements(list));
  }

  lemma CreatingStale(before: set<Replica>, latest: int, list: seq<Replica>, stale: set<Replica>,
                      records: set<Replica>, r: Replica)
    requires Creating(before, latest, list, [], stale, records)
    requires !r.deployed && r.timestamp <= latest && forall x :: x in records ==> x.uid != r.uid
    ensures Creating(before, latest, list, [], stale + {r}, records + {r})
  {
    assert r !in records;
  }

  /** What the loop has chosen once it ends. */
  lemma CreatingEnds(before: set<Replica>, latest: int, desired: int, list: seq<Replica>, unused: seq<Replica>,
                     stale: set<Replica>, records: set<Replica>)
    requires Creating(before, latest, list, unused, stale, records) && DistinctUids(before)
    requires |list| >= desired && (|list| == |Deployed(before)| || |list| <= desired)
    ensures BroughtUpTo(before, desired, Elements(list))
    ensures Lists(SortByAge(list), Elements(list))
    ensures Surplus(before, Elements(list), Elements(unused) + stale)
  {
    SortByAgeSorts(list);
    DistinctCount(list);
    var after := Elements(list);
    SubsetNotLarger(Deployed(after), after);
    forall r | r in Waiting(after) && r !in before ensures LaterThanAll(r, before) {
      forall x | x in before ensures x.timestamp < r.timestamp && x.uid != r.uid {
        assert x in records && r in records;
      }
    }
    if r :| r in after && r !in before {
      assert unused == [] && Elements(unused) == {};
      assert before <= after;
    }
    forall u, v | u in Waiting(before) && u in after && v in Waiting(before) && v !in after ensures Older(u, v) {
      assert v in records && v in Elements(unused);
    }
    SurplusIsUndeployed(before, latest, list, unused, stale, records);
  }

  lemma SurplusIsUndeployed(before: set<Replica>, latest: int, list: seq<Replica>, unused: seq<Replica>,
                            stale: set<Replica>, records: set<Replica>)
    requires Creating(before, latest, list, unused, stale, records)
    ensures Surplus(before, Elements(list), Elements(unused) + stale)
  {
    hide Older;
    forall r | r in Elements(unused) + stale
      ensures !r.deployed && r !in Elements(list)
      ensures r in before || forall x :: x in Elements(list) && x !in before ==> r.timestamp < x.timestamp
    {
      if r in Elements(unused) { assert r !in Deployed(Elements(unused)); }
    }
  }

  /** Records beside the chosen ones that may be left when deleting fails: undeployed, and either there before or created
      before everything that was chosen among the new. */
  ghost predicate Surplus(before: set<Replica>, chosen: set<Replica>, surplus: set<Replica>) {
    forall r :: r in surplus ==>
      !r.deployed && r !in chosen && (r in before || forall x :: x in chosen && x !in before ==> r.timestamp < x.timestamp)
  }

  lemma SurplusShrinks(before: set<Replica>, chosen: set<Replica>, surplus: set<Replica>, rest: set<Replica>)
    requires Surplus(before, chosen, surplus) && rest <= surplus
    ensures Surplus(before, chosen, rest)
  {
  }

  /** Deletes the unused records as far as that succeeds. */
  method DropUnused(store: Store, unused: seq<Replica>, ghost keep: set<Replica>) returns (clean: bool)
    requires store.Valid() && store.records == keep + Elements(unused) && keep !! Elements(unused)
    modifies store`records
    ensures store.Valid() && keep <= store.records <= old(store.records)
    ensures clean ==> store.records == keep
  {
    ghost var all := store.records;
    clean := true;
    for i := 0 to |unused|
      invariant store.Valid() && keep <= store.records <= all
      invariant clean ==> forall r :: r in store.records && r !in keep ==> r !in unused[..i]
    {
      assert unused[i] in Elements(unused);
      var ok := store.Delete(unused[i].uid);
      clean := clean && ok;
      assert unused[..i + 1] == unused[..i] + [unused[i]];
    }
    assert unused[..|unused|] == unused;
    forall r | clean && r in store.records ensures r in keep {
      assert r in keep || r in Elements(unused);
    }
  }

  /** Creates missing replicas up to `desiredCount` and drops the undeployed ones not needed. A created record that is not
      later than everything there was is deleted again after a pause. Failed deletions go unnoticed; `clean` says whether
      there was none. */
  method CreateReplicas(store: Store, existing: seq<Replica>, desiredCount: int) returns (ok: bool, list: seq<Replica>,
                        ghost clean: bool)
    requires store.Valid() && Distinct(existing) && Elements(existing) == store.records
    modifies store
    ensures store.Valid()
    ensures !ok ==> old(store.records) <= store.records && Deployed(store.records) == Deployed(old(store.records))
    ensures ok ==> BroughtUpTo(old(store.records), desiredCount, Elements(list)) && Lists(list, Elements(list))
    ensures ok ==> Elements(list) <= store.records && Surplus(old(store.records), Elements(list), store.records - Elements(list))
    ensures ok && clean ==> store.records == Elements(list)
  {
    hide Creating;
    hide SortByAge;
    hide BroughtUpTo;
    hide Distinct;
    hide Lists;
    hide Surplus;
    ghost var before, stale := store.records, {};
    var maxCurrentTime, unused;
    clean := true;
    maxCurrentTime, list, unused := Prepare(existing);
    while |list| < desiredCount
      invariant store.Valid() && Creating(before, maxCurrentTime, list, unused, stale, store.records)
      invariant |list| == |Deployed(before)| || |list| <= desiredCount
      invariant clean ==> stale == {}
      decreases desiredCount - |list|, maxCurrentTime - store.clock
    {
      if |unused| > 0 {
        CreatingReuses(before, maxCurrentTime, list, unused, stale, store.records);
        list, unused := list + [unused[0]], unused[1..];
      } else {
        var replica := CreateLater(store, maxCurrentTime, before, list, stale);
        match replica {
          case NoReplica =>
            CreatingKeeps(before, maxCurrentTime, list, unused, stale, store.records);
            return false, [], clean;
          case TooEarly(left) =>
            stale, clean := stale + left, clean && left == {};
            continue;
          case Created(r) =>
            list := list + [r];
        }
      }
    }
    CreatingKeeps(before, maxCurrentTime, list, unused, stale, store.records);
    CreatingEnds(before, maxCurrentTime, desiredCount, list, unused, stale, store.records);
    ghost var all := store.records;
    var dropped := DropUnused(store, unused, Elements(list) + stale);
    SurplusShrinks(before, Elements(list), Elements(unused) + stale, store.records - Elements(list));
    clean := clean && dropped;
    ok := true;
    SortKeeps(list);
    list := SortByAge(list);
  }

  lemma SortKeeps(list: seq<Replica>)
    requires Lists(SortByAge(list), Elements(list))
    ensures Elements(SortByAge(list)) == Elements(list)
  {
  }

  method Prepare(existing: seq<Replica>) returns (maxCurrentTime: int, list: seq<Replica>, unused: seq<Replica>)
    requires Distinct(existing) && DistinctUids(Elements(existing))
    ensures Creating(Elements(existing), maxCurrentTime, list, unused, {}, Elements(existing))
    ensures |list| == |Deployed(Elements(existing))|
  {
    hide Creating;
    maxCurrentTime := LatestTime(existing);
    list, unused := Split(existing);
    SortByAgeSorts(unused);
    OldestFirstDistinct(SortByAge(unused));
    unused := SortByAge(unused);
    CreatingBegins(Elements(existing), maxCurrentTime, list, unused);
    DistinctCount(list);
  }

  /** A record created too early is in `left` if it could not be taken back. */
  datatype Attempted = NoReplica | TooEarly(left: set<Replica>) | Created(replica: Replica)

  /** Creates one record, and takes it back after a pause unless it is later than `latest`. */
  method CreateLater(store: Store, latest: int, ghost before: set<Replica>, ghost list: seq<Replica>,
                     ghost stale: set<Replica>)
    returns (result: Attempted)
    requires store.Valid() && Creating(before, latest, list, [], stale, store.records)
    modifies store
    ensures store.Valid()
    ensures result.NoReplica? ==> Creating(before, latest, list, [], stale, store.records)
    ensures result.TooEarly? ==> Creating(before, latest, list, [], stale + result.left, store.records)
    ensures result.TooEarly? ==> old(store.clock) <= latest && old(store.clock) < store.clock
    ensures result.Created? ==> Creating(before, latest, list + [result.replica], [], stale, store.records)
  {
    hide Creating;
    var replica := store.Create();
    if replica.None? {
      return NoReplica;
    }
    if replica.value.timestamp <= latest {
      store.Sleep();
      var deleted := store.Delete(replica.value.uid);
      if deleted {
        assert store.records == old(store.records);
        assert stale + {} == stale;
        return TooEarly({});
      }
      CreatingStale(before, latest, list, stale, old(store.records), replica.value);
      return TooEarly({replica.value});
    }
    CreatingCreates(before, latest, list, stale, old(store.records), replica.value);
    result := Created(replica.value);
  }

  lemma CreatingKeeps(before: set<Replica>, latest: int, list: seq<Replica>, unused: seq<Replica>, stale: set<Replica>,
                      records: set<Replica>)
    requires Creating(before, latest, list, unused, stale, records)
    ensures before <= records && Deployed(records) == Deployed(before)
    ensures records == Elements(list) + stale + Elements(unused) && Elements(list) + stale !! Elements(unused)
  {
    assert Deployed(stale) == {};
    assert Deployed(records) == Deployed(Elements(list)) + Deployed(Elements(unused)) + Deployed(stale);
  }

  // ---------- allocation ----------

  /** The number of replicas aimed at, when `initial` are deployed. A maximum counts only above zero and above the minimum. */
  function TargetCount(o: GraphOptions, initial: nat): int {
    var wanted := if o.fixedNumberOfReplicas then o.replicaCount else o.replicaCount + initial;
    var raised := if wanted < o.minReplicaCount then o.minReplicaCount else wanted;
    if raised > o.maxReplicaCount && o.maxReplicaCount > o.minReplicaCount && o.maxReplicaCount > 0 then o.maxReplicaCount
    else raised
  }

  /** The result of an allocation; slicing below zero stops the program. */
  datatype Allocation = CreateFailed | OutOfBounds | Allocated(replicas: seq<Replica>, deleteReplicas: seq<Replica>)

  /** How the sorted records are handed out. */
  function HandOut(o: GraphOptions, initial: nat, sorted: seq<Replica>): Allocation
    requires TargetCount(o, initial) <= |sorted| && initial <= |sorted|
  {
    var target := TargetCount(o, initial);
    if target < 0 then OutOfBounds
    else if target < initial then Allocated([], sorted[target..])
    else if !o.fixedNumberOfReplicas && target > initial then Allocated(sorted[initial..target], [])
    else Allocated(sorted[..target], [])
  }

  /** One allocation, as a relation between the records before and after it and its result. */
  ghost predicate AllocationStep(before: set<Replica>, o: GraphOptions, after: set<Replica>, result: Allocation) {
    && BroughtUpTo(before, TargetCount(o, |Deployed(before)|), after)
    && exists sorted ::
         Lists(sorted, after) && |sorted| >= |Deployed(before)| && |sorted| >= TargetCount(o, |Deployed(before)|) &&
         result == HandOut(o, |Deployed(before)|, sorted)
  }

  method CountDeployed(items: seq<Replica>) returns (count: nat)
    requires Distinct(items)
    ensures count == |Deployed(Elements(items))|
  {
    count := 0;
    ghost var seen := {};
    for i := 0 to |items|
      invariant count == |seen| && seen == Deployed(Elements(items[..i]))
    {
      assert Elements(items[..i + 1]) == Elements(items[..i]) + {items[i]};
      assert forall j :: 0 <= j < i ==> items[..i][j] != items[i];
      if items[i].deployed {
        assert items[i] !in seen;
        count := count + 1;
        seen := seen + {items[i]};
      }
    }
    assert items[..|items|] == items;
  }

  /** What an allocation leaves in a store: the chosen records, and beside them only surplus that could not be deleted. */
  ghost predicate Leaves(before: set<Replica>, chosen: set<Replica>, clean: bool, after: set<Replica>) {
    && chosen <= after && Surplus(before, chosen, after - chosen)
    && (clean ==> after == chosen)
  }

  method AllocateReplicas(store: Store, o: GraphOptions) returns (result: Allocation, ghost chosen: set<Replica>,
                          ghost clean: bool)
    requires store.Valid()
    modifies store
    ensures store.Valid()
    ensures result.CreateFailed? ==> Deployed(store.records) == Deployed(old(store.records))
    ensures !result.CreateFailed? ==>
      AllocationStep(old(store.records), o, chosen, result) && Leaves(old(store.records), chosen, clean, store.records)
  {
    hide BroughtUpTo;
    hide Surplus;
    var existing := store.List();
    var initialCount := CountDeployed(existing);
    var targetCount := o.replicaCount;
    if !o.fixedNumberOfReplicas {
      targetCount := targetCount + initialCount;
    }
    if targetCount < o.minReplicaCount {
      targetCount := o.minReplicaCount;
    }
    if targetCount > o.maxReplicaCount && o.maxReplicaCount > o.minReplicaCount && o.maxReplicaCount > 0 {
      targetCount := o.maxReplicaCount;
    }
    var ok, adjusted;
    ok, adjusted, clean := CreateReplicas(store, existing, targetCount);
    chosen := Elements(adjusted);
    if !ok {
      return CreateFailed, chosen, clean;
    }
    ListingLength(old(store.records), targetCount, chosen, adjusted);
    if targetCount < 0 {
      result := OutOfBounds;
    } else if targetCount < initialCount {
      result := Allocated([], adjusted[targetCount..]);
    } else if !o.fixedNumberOfReplicas && targetCount > initialCount {
      result := Allocated(adjusted[initialCount..targetCount], []);
    } else {
      result := Allocated(adjusted[..targetCount], []);
    }
    assert result == HandOut(o, initialCount, adjusted);
  }

  /** The replicas a build works on: a fixed negative count stands for all there are. */
  method SelectReplicas(store: Store, o: GraphOptions) returns (result: Allocation, ghost chosen: set<Replica>,
                        ghost clean: bool)
    requires store.Valid()
    modifies store
    ensures store.Valid()
    ensures o.replicaCount < 0 && o.fixedNumberOfReplicas ==>
      && store.records == old(store.records) && result.Allocated? && result.deleteReplicas == []
      && Lists(result.replicas, store.records)
    ensures !(o.replicaCount < 0 && o.fixedNumberOfReplicas) ==>
      if result.CreateFailed? then Deployed(store.records) == Deployed(old(store.records))
      else AllocationStep(old(store.records), o, chosen, result) && Leaves(old(store.records), chosen, clean, store.records)
  {
    if o.replicaCount < 0 && o.fixedNumberOfReplicas {
      var existing := AllReplicas(store);
      result, chosen, clean := Allocated(existing, []), store.records, true;
    } else {
      result, chosen, clean := AllocateReplicas(store, o);
    }
  }

  /** All records, oldest first. */
  method AllReplicas(store: Store) returns (list: seq<Replica>)
    requires store.Valid()
    ensures Lists(list, store.records)
  {
    var existing := store.List();
    SortByAgeSorts(existing);
    list := SortByAge(existing);
  }

  lemma ListingLength(before: set<Replica>, desired: int, after: set<Replica>, list: seq<Replica>)
    requires BroughtUpTo(before, desired, after) && Lists(list, after)
    ensures |list| == if desired > |Deployed(before)| then desired else |Deployed(before)|
  {
    OldestFirstDistinct(list);
  }

  lemma TailHolds(s: seq<Replica>, n: nat, r: Replica)
    requires n <= |s|
    ensures r in s[n..] <==> exists i :: n <= i < |s| && s[i] == r
  {
    if r in s[n..] {
      var i :| 0 <= i < |s[n..]| && s[n..][i] == r;
      assert s[n + i] == r;
    }
    if i :| n <= i < |s| && s[i] == r {
      assert s[n..][i - n] == r;
    }
  }

  // ---------- sizes and bounds ----------

  /** The slices stay in bounds exactly when the target is not negative, for which a minimum of at least zero is enough and,
      in a store with few enough deployed replicas, also needed. */
  lemma InBoundsIffTargetNotNegative(before: set<Replica>, o: GraphOptions, after: set<Replica>, result: Allocation)
    requires AllocationStep(before, o, after, result)
    ensures result.OutOfBounds? <==> TargetCount(o, |Deployed(before)|) < 0
    ensures TargetCount(o, |Deployed(before)|) < 0 <==>
      o.minReplicaCount < 0 && o.replicaCount + (if o.fixedNumberOfReplicas then 0 else |Deployed(before)|) < 0
  {
  }

  /** The store ends with as many records as the larger of target and deployed count; exactly the surplus is to be removed, or
      exactly the growth or the target to be deployed. */
  lemma AllocationSizes(before: set<Replica>, o: GraphOptions, after: set<Replica>, result: Allocation)
    requires AllocationStep(before, o, after, result) && result.Allocated?
    ensures var d, t := |Deployed(before)|, TargetCount(o, |Deployed(before)|);
      && |after| == (if t > d then t else d)
      && |result.deleteReplicas| == (if t < d then d - t else 0)
      && |result.replicas| == (if t < d then 0 else if !o.fixedNumberOfReplicas && t > d then t - d else t)
  {
    hide TargetCount;
    var d, t := |Deployed(before)|, TargetCount(o, |Deployed(before)|);
    var sorted :| Lists(sorted, after) && |sorted| >= d && |sorted| >= t && result == HandOut(o, d, sorted);
    ListingLength(before, t, after, sorted);
  }

  /** What is to be removed is deployed, and newer than everything that stays. */
  lemma RemovedAreNewest(before: set<Replica>, o: GraphOptions, after: set<Replica>, result: Allocation)
    requires AllocationStep(before, o, after, result) && result.Allocated? && result.deleteReplicas != []
    ensures forall r :: r in result.deleteReplicas ==> r in before && r.deployed
    ensures forall r, x :: r in result.deleteReplicas && x in after && x !in result.deleteReplicas ==> Older(x, r)
  {
    hide Older;
    hide TargetCount;
    var d, t := |Deployed(before)|, TargetCount(o, |Deployed(before)|);
    var sorted :| Lists(sorted, after) && |sorted| >= d && |sorted| >= t && result == HandOut(o, d, sorted);
    AllDeployed(before, t, after);
    forall r | r in result.deleteReplicas ensures r in after {
      TailHolds(sorted, t, r);
      assert r in Elements(sorted);
    }
    forall r, x | r in result.deleteReplicas && x in after && x !in result.deleteReplicas ensures Older(x, r) {
      TailHolds(sorted, t, r);
      TailHolds(sorted, t, x);
      assert x in Elements(sorted);
    }
  }

  lemma AllDeployed(before: set<Replica>, desired: int, after: set<Replica>)
    requires BroughtUpTo(before, desired, after) && desired <= |Deployed(before)|
    ensures after == Deployed(before)
  {
    assert Deployed(after) <= after;
    FullSubset(Deployed(after), after);
  }

  // ---------- relative growth hands out the undeployed ----------

  /** No undeployed record sorts before a deployed one. */
  ghost predicate DeployedFirst(s: set<Replica>) {
    forall u, v :: u in s && v in s && !u.deployed && v.deployed ==> Older(v, u)
  }

  /** Bringing a store up to a count never puts an undeployed record before a deployed one. */
  lemma DeployedFirstIsKept(before: set<Replica>, desired: int, after: set<Replica>)
    requires BroughtUpTo(before, desired, after) && DeployedFirst(before)
    ensures DeployedFirst(after)
  {
    forall u, v | u in after && v in after && !u.deployed && v.deployed ensures Older(v, u) {
      assert v in Deployed(after) && v in before;
      assert u in Waiting(after);
    }
  }

  /** When something undeployed is kept, that also holds the other way round. */
  lemma DeployedFirstBefore(before: set<Replica>, desired: int, after: set<Replica>)
    requires BroughtUpTo(before, desired, after) && desired > |Deployed(before)| && DeployedFirst(after)
    ensures DeployedFirst(before)
  {
    var w := Undeployed(before, desired, after);
    forall u, v | u in before && v in before && !u.deployed && v.deployed ensures Older(v, u) {
      assert v in Deployed(before) && v in Deployed(after);
      assert u in Waiting(before);
      if u !in after {
        assert w in Waiting(before);
        OlderTransitive(v, w, u);
      }
    }
  }

  lemma Undeployed(before: set<Replica>, desired: int, after: set<Replica>) returns (w: Replica)
    requires BroughtUpTo(before, desired, after) && desired > |Deployed(before)|
    ensures w in Waiting(after)
  {
    assert after != Deployed(after);
    w :| w in after && w !in Deployed(after);
  }

  /** Sorted by age, the deployed records are then exactly the first ones. */
  lemma DeployedPrefix(sorted: seq<Replica>, s: set<Replica>)
    requires Lists(sorted, s) && DeployedFirst(s)
    ensures |Deployed(s)| <= |sorted| && forall i :: 0 <= i < |sorted| ==> (sorted[i].deployed <==> i < |Deployed(s)|)
  {
    OldestFirstDistinct(sorted);
    forall i, j | 0 <= i < j < |sorted| && sorted[j].deployed ensures sorted[i].deployed {
      assert sorted[i] in Elements(sorted) && sorted[j] in Elements(sorted);
      if !sorted[i].deployed {
        OlderTransitive(sorted[i], sorted[j], sorted[i]);
        OlderIrreflexive(sorted[i]);
      }
    }
    var n := DownwardClosed(sorted);
    DeployedInPrefix(sorted, s, n);
  }

  lemma {:induction false} DownwardClosed(sorted: seq<Replica>) returns (n: nat)
    requires forall i, j :: 0 <= i < j < |sorted| && sorted[j].deployed ==> sorted[i].deployed
    ensures n <= |sorted| && forall i :: 0 <= i < |sorted| ==> (sorted[i].deployed <==> i < n)
  {
    n := 0;
    while n < |sorted| && sorted[n].deployed
      invariant n <= |sorted| && forall i :: 0 <= i < n ==> sorted[i].deployed
    {
      n := n + 1;
    }
  }

  lemma DeployedInPrefix(sorted: seq<Replica>, s: set<Replica>, n: nat)
    requires Elements(sorted) == s && Distinct(sorted) && n <= |sorted|
    requires forall i :: 0 <= i < |sorted| ==> (sorted[i].deployed <==> i < n)
    ensures |Deployed(s)| == n
  {
    DistinctCount(sorted[..n]);
    forall r | r in Deployed(s) ensures r in Elements(sorted[..n]) {
      assert r in Elements(sorted);
      var i :| 0 <= i < |sorted| && sorted[i] == r;
      assert sorted[..n][i] == r;
    }
    forall r | r in Elements(sorted[..n]) ensures r in Deployed(s) {
      var i :| 0 <= i < n && sorted[..n][i] == r;
      assert sorted[i] in Elements(sorted);
    }
    assert Deployed(s) == Elements(sorted[..n]);
  }

  /** Growing by a relative count hands out exactly the undeployed records that are kept, if and only if no undeployed record
      sorted before a deployed one to begin with. */
  lemma GrowthHandsOutUndeployed(before: set<Replica>, o: GraphOptions, after: set<Replica>, result: Allocation)
    requires AllocationStep(before, o, after, result) && DistinctUids(after)
    requires !o.fixedNumberOfReplicas && TargetCount(o, |Deployed(before)|) > |Deployed(before)|
    ensures result.Allocated? && (Elements(result.replicas) == Waiting(after) <==> DeployedFirst(before))
  {
    hide TargetCount;
    hide Older;
    var d, t := |Deployed(before)|, TargetCount(o, |Deployed(before)|);
    var sorted :| Lists(sorted, after) && |sorted| >= d && |sorted| >= t && result == HandOut(o, d, sorted);
    ListingLength(before, t, after, sorted);
    assert sorted[d..t] == sorted[d..];
    if DeployedFirst(before) {
      DeployedFirstIsKept(before, t, after);
      DeployedPrefix(sorted, after);
      UndeployedTail(sorted, after, d);
    }
    if Elements(result.replicas) == Waiting(after) {
      TailWaitingMeansDeployedFirst(sorted, after, d);
      DeployedFirstBefore(before, t, after);
    }
  }

  lemma TailWaitingMeansDeployedFirst(sorted: seq<Replica>, s: set<Replica>, n: nat)
    requires Lists(sorted, s) && n <= |sorted| && Elements(sorted[n..]) == Waiting(s)
    ensures DeployedFirst(s)
  {
    hide Older;
    forall u, v | u in s && v in s && !u.deployed && v.deployed ensures Older(v, u) {
      assert u in Elements(sorted) && v in Elements(sorted);
      assert u in Elements(sorted[n..]) && v !in Elements(sorted[n..]);
      TailHolds(sorted, n, u);
      TailHolds(sorted, n, v);
    }
  }

  lemma UndeployedTail(sorted: seq<Replica>, s: set<Replica>, n: nat)
    requires Elements(sorted) == s && n <= |sorted| && forall i :: 0 <= i < |sorted| ==> (sorted[i].deployed <==> i < n)
    ensures Elements(sorted[n..]) == Waiting(s)
  {
    forall r ensures r in Waiting(s) <==> r in Elements(sorted[n..]) {
      TailHolds(sorted, n, r);
      assert r in s <==> r in sorted;
    }
  }

  // ---------- repeating and undoing ----------

  /** A relative count with limits that do not bite. */
  ghost predicate Unclamped(o: GraphOptions, initial: nat) {
    !o.fixedNumberOfReplicas && TargetCount(o, initial) == o.replicaCount + initial
  }

  /** No undeployed record among the surplus comes before one that was chosen. */
  ghost predicate SurplusComesLast(chosen: set<Replica>, surplus: set<Replica>) {
    forall u, v :: u in Waiting(chosen) && v in surplus ==> Older(u, v)
  }

  lemma BroughtUpTwice(s0: set<Replica>, desired: int, s1: set<Replica>, surplus: set<Replica>, s2: set<Replica>)
    requires BroughtUpTo(s0, desired, s1) && BroughtUpTo(s1 + surplus, desired, s2)
    requires Surplus(s0, s1, surplus) && DistinctUids(s1 + surplus)
    ensures s2 == s1 <==> SurplusComesLast(s1, surplus)
  {
    hide Older;
    assert Deployed(s1 + surplus) == Deployed(s1);
    assert |Deployed(s1)| == |Deployed(s0)| && |s2| == |s1|;
    if s2 == s1 {
      forall u, v | u in Waiting(s1) && v in surplus ensures Older(u, v) {
        assert u in Waiting(s1 + surplus) && v in Waiting(s1 + surplus) && v !in s2;
      }
    }
    if SurplusComesLast(s1, surplus) {
      NoSurplusChosen(desired, s1, surplus, s2);
      FullSubset(s2, s1);
    }
  }

  lemma NoSurplusChosen(desired: int, s1: set<Replica>, surplus: set<Replica>, s2: set<Replica>)
    requires BroughtUpTo(s1 + surplus, desired, s2) && |s2| == |s1| && SurplusComesLast(s1, surplus)
    requires DistinctUids(s1 + surplus)
    requires forall r :: r in surplus ==> !r.deployed && r !in s1
    ensures s2 <= s1
  {
    if r :| r in s2 && r !in s1 + surplus {
      SubsetSmaller(s1, s2, r);
    }
    if v :| v in s2 && v in surplus {
      var u := Missing(s1, s2, v);
      assert u !in Deployed(s2) && !u.deployed;
      assert v in Waiting(s1 + surplus) && u in Waiting(s1 + surplus);
      OlderAsymmetric(u, v);
    }
  }

  lemma Missing(a: set<Replica>, b: set<Replica>, v: Replica) returns (u: Replica)
    requires |a| == |b| && v in b && v !in a
    ensures u in a && u !in b
  {
    if a <= b { SubsetSmaller(a, b, v); }
    u :| u in a && u !in b;
  }

  /** Repeating an allocation before it is acknowledged, on the store as it was left, chooses the same records if and only if
      no surplus that could not be deleted comes before a chosen record; and then the result is the same list. Without
      surplus nothing is created or dropped either. */
  lemma RepeatIsIdempotent(s0: set<Replica>, o: GraphOptions, s1: set<Replica>, r1: Allocation, surplus: set<Replica>,
                           s2: set<Replica>, r2: Allocation)
    requires AllocationStep(s0, o, s1, r1) && Surplus(s0, s1, surplus) && DistinctUids(s1 + surplus)
    requires AllocationStep(s1 + surplus, o, s2, r2)
    ensures s2 == s1 <==> SurplusComesLast(s1, surplus)
    ensures s2 == s1 ==> r2 == r1
    ensures surplus == {} ==> s2 == s1
  {
    hide TargetCount;
    hide Older;
    var d, t := |Deployed(s0)|, TargetCount(o, |Deployed(s0)|);
    assert Deployed(s1 + surplus) == Deployed(s1) == Deployed(s0);
    BroughtUpTwice(s0, t, s1, surplus, s2);
    var a :| Lists(a, s1) && |a| >= d && |a| >= t && r1 == HandOut(o, d, a);
    var b :| Lists(b, s2) && |b| >= d && |b| >= t && r2 == HandOut(o, d, b);
    if s2 == s1 { ListingUnique(a, b, s1); }
  }

  /** The record once its deployment is acknowledged. */
  function Acked(r: Replica): Replica {
    r.(deployed := true)
  }

  function AckedList(s: seq<Replica>): seq<Replica> {
    seq(|s|, i requires 0 <= i < |s| => Acked(s[i]))
  }

  /** The records after those of `list` were acknowledged. */
  ghost function Acknowledged(s: set<Replica>, list: seq<Replica>): set<Replica> {
    (s - Elements(list)) + Elements(AckedList(list))
  }

  /** Acknowledging everything from position `n` on leaves the listing in place, with all of it deployed. */
  lemma AckedListing(sorted: seq<Replica>, s: set<Replica>, n: nat)
    requires Lists(sorted, s) && n <= |sorted|
    requires forall i :: 0 <= i < |sorted| ==> (sorted[i].deployed <==> i < n)
    ensures Lists(AckedList(sorted), Acknowledged(s, sorted[n..]))
  {
    hide Older;
    var acked, tail := AckedList(sorted), sorted[n..];
    assert forall i :: 0 <= i < n ==> acked[i] == sorted[i];
    forall i, j | 0 <= i < j < |acked| ensures Older(acked[i], acked[j]) {
      SameAge(sorted[i], sorted[j]);
    }
    assert AckedList(tail) == acked[n..];
    forall r ensures r in Acknowledged(s, tail) <==> r in Elements(acked) {
      TailHolds(acked, n, r);
      TailHolds(sorted, n, r);
      assert r in s <==> r in sorted;
      assert r in AckedList(tail) <==> exists i :: n <= i < |acked| && acked[i] == r;
      if i :| 0 <= i < n && acked[i] == r {
        assert sorted[i] == r && r.deployed;
      }
      if r in sorted && r !in tail {
        var i :| 0 <= i < |sorted| && sorted[i] == r;
        assert acked[i] == r;
      }
    }
  }

  lemma SameAge(a: Replica, b: Replica)
    ensures Older(Acked(a), Acked(b)) == Older(a, b)
  {
  }

  lemma AllAcked(sorted: seq<Replica>, s: set<Replica>)
    requires Elements(AckedList(sorted)) == s
    ensures Deployed(s) == s
  {
    forall r | r in s ensures r.deployed {
      assert r in AckedList(sorted);
    }
  }

  /** Growing by `n`, acknowledging, and shrinking by `n` removes exactly the replicas the growth handed out, as long as no
      undeployed record sorted before a deployed one to begin with. What failed deletions left over goes as well. */
  lemma ScaleUpThenDown(s0: set<Replica>, n: nat, up: GraphOptions, s1: set<Replica>, grown: Allocation,
                        surplus: set<Replica>,
                        down: GraphOptions, s2: set<Replica>, shrunk: Allocation)
    requires n > 0 && up.replicaCount == n && down.replicaCount + n == 0
    requires Unclamped(up, |Deployed(s0)|) && AllocationStep(s0, up, s1, grown) && DeployedFirst(s0)
    requires grown.Allocated? && Unclamped(down, |Deployed(s0)| + n) && Surplus(s0, s1, surplus)
    requires AllocationStep(Acknowledged(s1 + surplus, grown.replicas), down, s2, shrunk)
    ensures shrunk.Allocated? && shrunk.replicas == [] && shrunk.deleteReplicas == AckedList(grown.replicas)
    ensures |grown.replicas| == n && s2 == Acknowledged(s1, grown.replicas)
  {
    hide Older;
    hide TargetCount;
    hide Lists;
    hide AllocationStep;
    hide Acknowledged;
    hide AckedList;
    hide Unclamped;
    hide Surplus;
    var d := |Deployed(s0)|;
    var a := GrownListing(s0, n, up, s1, grown);
    AcknowledgedGrowth(s0, s1, surplus, a, d);
    hide Deployed;
    TailAcked(a, d);
    ShrinkRemovesTail(AckedList(a), Acknowledged(s1 + surplus, grown.replicas), d, n, down, s2, shrunk);
  }

  /** After a growth is acknowledged, what is deployed is the old listing, all of it acknowledged, whatever was left over. */
  lemma AcknowledgedGrowth(s0: set<Replica>, s1: set<Replica>, surplus: set<Replica>, a: seq<Replica>, d: nat)
    requires Surplus(s0, s1, surplus) && Lists(a, s1) && d <= |a|
    requires forall i :: 0 <= i < |a| ==> (a[i].deployed <==> i < d)
    ensures var s := Acknowledged(s1 + surplus, a[d..]);
      Deployed(s) == Acknowledged(s1, a[d..]) && Lists(AckedList(a), Deployed(s)) && |Deployed(s)| == |a|
  {
    hide Older;
    hide Lists;
    hide Acknowledged;
    AckedListing(a, s1, d);
    SurplusUnacknowledged(s0, s1, surplus, a, d);
    ListsContents(AckedList(a), Acknowledged(s1, a[d..]));
    AllAcked(a, Acknowledged(s1, a[d..]));
    DeployedBesides(Acknowledged(s1, a[d..]), surplus);
  }

  lemma TailAcked(a: seq<Replica>, d: nat)
    requires d <= |a|
    ensures |AckedList(a)| == |a| && AckedList(a)[d..] == AckedList(a[d..])
  {
  }

  lemma DeployedBesides(s: set<Replica>, surplus: set<Replica>)
    requires Deployed(s) == s && forall r :: r in surplus ==> !r.deployed
    ensures Deployed(s + surplus) == s
  {
  }

  /** Leftovers are not on the list that is acknowledged. */
  lemma SurplusUnacknowledged(s0: set<Replica>, s1: set<Replica>, surplus: set<Replica>, a: seq<Replica>, d: nat)
    requires Surplus(s0, s1, surplus) && Lists(a, s1) && d <= |a|
    ensures Acknowledged(s1 + surplus, a[d..]) == Acknowledged(s1, a[d..]) + surplus
  {
    ListsContents(a, s1);
    hide Lists;
    forall r | r in surplus ensures r !in a[d..] {
      assert r !in Elements(a);
    }
  }

  lemma ListsContents(list: seq<Replica>, s: set<Replica>)
    requires Lists(list, s)
    ensures Elements(list) == s && |s| == |list|
  {
    OldestFirstDistinct(list);
  }

  /** What a relative growth by `n` hands out when the deployed records come first. */
  lemma GrownListing(s0: set<Replica>, n: nat, up: GraphOptions, s1: set<Replica>,
                     grown: Allocation) returns (a: seq<Replica>)
    requires n > 0 && up.replicaCount == n && Unclamped(up, |Deployed(s0)|)
    requires AllocationStep(s0, up, s1, grown) && DeployedFirst(s0)
    ensures Lists(a, s1) && |a| == |Deployed(s0)| + n && grown == Allocated(a[|Deployed(s0)|..], [])
    ensures forall i :: 0 <= i < |a| ==> (a[i].deployed <==> i < |Deployed(s0)|)
  {
    hide Older;
    hide TargetCount;
    var d := |Deployed(s0)|;
    a :| Lists(a, s1) && |a| >= d && |a| >= d + n && grown == HandOut(up, d, a);
    ListingLength(s0, d + n, s1, a);
    assert a[d..d + n] == a[d..];
    DeployedFirstIsKept(s0, d + n, s1);
    DeployedPrefix(a, s1);
  }

  /** A relative shrink by `n` removes the last `n` of the deployed records, and drops the others. */
  lemma ShrinkRemovesTail(list: seq<Replica>, s: set<Replica>, d: nat, n: nat, down: GraphOptions, s2: set<Replica>,
                          shrunk: Allocation)
    requires Lists(list, Deployed(s)) && |Deployed(s)| == |list| == d + n && n > 0
    requires down.replicaCount + n == 0 && Unclamped(down, d + n) && AllocationStep(s, down, s2, shrunk)
    ensures s2 == Deployed(s) && shrunk == Allocated([], list[d..])
  {
    hide TargetCount;
    hide Lists;
    AllDeployed(s, d, s2);
    var b :| Lists(b, s2) && |b| >= d + n && |b| >= d && shrunk == HandOut(down, d + n, b);
    ListingUnique(list, b, s2);
  }

  /** The acknowledging finalizer marks every replica of a list that is not yet deployed, as far as updates succeed. */
  method Acknowledge(store: Store, replicas: seq<Replica>) returns (ok: bool, ghost done: seq<Replica>)
    requires store.Valid() && Distinct(replicas) && forall r :: r in replicas ==> r in store.records
    modifies store`records
    ensures store.Valid() && store.records == Acknowledged(old(store.records), done)
    ensures (forall r :: r in done ==> r in replicas)
    ensures (ok <==> forall r :: r in replicas && !r.deployed ==> r in done)
    ensures ok ==> store.records == Acknowledged(old(store.records), replicas)
  {
    ghost var all := store.records;
    ok, done := true, [];
    for i := 0 to |replicas|
      invariant store.Valid()
      invariant forall r :: r in done ==> r in replicas[..i]
      invariant ok <==> forall r :: r in replicas[..i] && !r.deployed ==> r in done
      invariant ok ==> forall r :: r in done <==> r in replicas[..i]
      invariant forall r :: r in store.records <==> (r in all && r !in done) || exists x :: x in done && r == Acked(x)
    {
      var replica := replicas[i];
      assert replica in replicas;
      assert replicas[..i + 1] == replicas[..i] + [replica];
      assert replica !in done;
      if !replica.deployed {
        var updated := store.Update(replica, Acked(replica));
        ok := ok && updated;
        if updated { done := done + [replica]; }
      } else {
        done := done + [replica];
      }
    }
    assert replicas[..|replicas|] == replicas;
    forall r ensures r in store.records <==> r in Acknowledged(all, done) {
      AckedHolds(done, r);
    }
    if ok { SameAcknowledged(all, done, replicas); }
  }

  lemma SameAcknowledged(all: set<Replica>, a: seq<Replica>, b: seq<Replica>)
    requires forall r :: r in a <==> r in b
    ensures Acknowledged(all, a) == Acknowledged(all, b)
  {
    forall r ensures r in Acknowledged(all, a) <==> r in Acknowledged(all, b) {
      AckedHolds(a, r);
      AckedHolds(b, r);
    }
  }

  lemma AckedHolds(list: seq<Replica>, r: Replica)
    ensures r in AckedList(list) <==> exists x :: x in list && r == Acked(x)
  {
    if x :| x in list && r == Acked(x) {
      var i :| 0 <= i < |list| && list[i] == x;
      assert AckedList(list)[i] == r;
    }
  }
}
