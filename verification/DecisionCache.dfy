/** The list filter's cache of authorization answers: bounded, with a time to live, shared by
    concurrent calls that each take the lock twice, once to look up and once to store. */
module DecisionCache {
  import opened Domain

  /** Object ids, of which only the order matters here. */
  type Id = nat

  datatype Query = Query(subject: string, resourceType: string, action: string)

  datatype Decision = Decision(allowed: seq<Id>, empty: bool, bypassAll: bool, failOpen: bool, fromCache: bool)

  const NOTHING := Decision([], false, false, false, false)

  /** What the authorization service answers: an error, unbounded reach, or a list. */
  datatype Reply = Failed | Wildcard | Objects(ids: seq<Id>)

  datatype Error = Unauthenticated | Invalid | Unavailable

  datatype Entry = Entry(decision: Decision, expires: nat)

  // ---- the ordering of ids ----

  predicate Ascending(ids: seq<Id>) {
    forall i, j :: 0 <= i < j < |ids| ==> ids[i] <= ids[j]
  }

  function Inserted(id: Id, ids: seq<Id>): seq<Id> {
    if ids == [] || id <= ids[0] then [id] + ids else [ids[0]] + Inserted(id, ids[1..])
  }

  function Sorted(ids: seq<Id>): seq<Id> {
    if ids == [] then [] else Inserted(ids[0], Sorted(ids[1..]))
  }

  lemma Prepended(id: Id, ids: seq<Id>)
    requires Ascending(ids) && forall x :: x in ids ==> id <= x
    ensures Ascending([id] + ids)
  {
    var all := [id] + ids;
    forall i, j | 0 <= i < j < |all| ensures all[i] <= all[j] {
      assert all[j] == ids[j - 1] && all[j] in ids;
      assert i > 0 ==> all[i] == ids[i - 1];
    }
  }

  lemma {:induction false} InsertedIsSorted(id: Id, ids: seq<Id>)
    requires Ascending(ids)
    ensures Ascending(Inserted(id, ids)) && multiset(Inserted(id, ids)) == multiset{id} + multiset(ids)
  {
    if ids != [] && id > ids[0] {
      var rest := ids[1..];
      InsertedIsSorted(id, rest);
      assert ids == [ids[0]] + rest;
      forall x | x in Inserted(id, rest) ensures ids[0] <= x {
        assert x in multiset(Inserted(id, rest));
        assert x == id || x in rest;
      }
      Prepended(ids[0], Inserted(id, rest));
    } else {
      assert Inserted(id, ids) == [id] + ids;
    }
  }

  lemma {:induction false} SortedIsSorted(ids: seq<Id>)
    ensures Ascending(Sorted(ids)) && multiset(Sorted(ids)) == multiset(ids) && |Sorted(ids)| == |ids|
  {
    if ids != [] {
      SortedIsSorted(ids[1..]);
      InsertedIsSorted(ids[0], Sorted(ids[1..]));
      assert ids == [ids[0]] + ids[1..];
    }
    assert |multiset(Sorted(ids))| == |multiset(ids)|;
  }

  /** The decision for an answer without error. */
  function Decide(reply: Reply): Decision
    requires !reply.Failed?
  {
    if reply.Wildcard? then NOTHING.(bypassAll := true)
    else NOTHING.(allowed := Sorted(reply.ids), empty := |reply.ids| == 0)
  }

  /** What a decision has to say about an answer: a wildcard lets everything through; a list lets
      through its ids and no other, in order, and is empty exactly when it names none. */
  ghost predicate Means(reply: Reply, d: Decision) {
    match reply
    case Failed => false
    case Wildcard => d.bypassAll && !d.empty && !d.failOpen && d.allowed == []
    case Objects(ids) =>
      && !d.bypassAll && !d.failOpen && (d.empty <==> ids == [])
      && Ascending(d.allowed) && multiset(d.allowed) == multiset(ids)
  }

  lemma DecideMeans(reply: Reply)
    requires !reply.Failed?
    ensures Means(reply, Decide(reply)) && !Decide(reply).fromCache
  {
    if reply.Objects? { SortedIsSorted(reply.ids); }
  }

  // ---- keys ----

  function CacheKey(q: Query): string {
    q.subject + "|" + q.resourceType + "|" + q.action
  }

  predicate BarFree(q: Query) {
    '|' !in q.subject && '|' !in q.resourceType
  }

  function FirstBar(s: string): (i: nat)
    ensures i <= |s| && (i < |s| ==> s[i] == '|') && forall j :: 0 <= j < i ==> s[j] != '|'
  {
    if s == "" || s[0] == '|' then 0 else 1 + FirstBar(s[1..])
  }

  lemma FirstBarIs(a: string, b: string)
    requires '|' !in a
    ensures FirstBar(a + "|" + b) == |a|
  {
    var s := a + "|" + b;
    assert s[|a|] == '|';
    assert forall j :: 0 <= j < |a| ==> s[j] == a[j] && s[j] != '|';
  }

  /** The first bar of the key ends the subject. */
  lemma KeySubject(q: Query)
    requires '|' !in q.subject
    ensures var k := CacheKey(q);
      FirstBar(k) == |q.subject| && k[..|q.subject|] == q.subject
      && k[|q.subject| + 1..] == q.resourceType + "|" + q.action
  {
    var k := CacheKey(q);
    assert k == q.subject + "|" + (q.resourceType + "|" + q.action);
    FirstBarIs(q.subject, q.resourceType + "|" + q.action);
  }

  /** Keys tell apart queries whose subject and type have no bar in them. */
  lemma KeysDiffer(p: Query, q: Query)
    requires BarFree(p) && BarFree(q) && CacheKey(p) == CacheKey(q)
    ensures p == q
  {
    KeySubject(p);
    KeySubject(q);
    var a, b := p.resourceType + "|" + p.action, q.resourceType + "|" + q.action;
    assert a == b;
    FirstBarIs(p.resourceType, p.action);
    FirstBarIs(q.resourceType, q.action);
    assert a[..|p.resourceType|] == p.resourceType && b[..|q.resourceType|] == q.resourceType;
    assert a[|p.resourceType| + 1..] == p.action && b[|q.resourceType| + 1..] == q.action;
  }

  /** What a key holds at each place. */
  lemma KeyAt(q: Query)
    ensures var k, i, j := CacheKey(q), |q.subject|, |q.subject| + 1 + |q.resourceType|;
      && |k| == j + 1 + |q.action| && k[i] == '|' && k[j] == '|'
      && k[..i] == q.subject && k[i + 1..j] == q.resourceType && k[j + 1..] == q.action
  {}

  /** The query read from a string with the given two bars as separators. */
  function Cut(k: string, i: nat, j: nat): Query
    requires i < j < |k|
  {
    Query(k[..i], k[i + 1..j], k[j + 1..])
  }

  /** Every pair of bars is a way to read the key, and there is no other. */
  lemma CutsAreTheReadings(k: string, i: nat, j: nat, q: Query)
    requires i < j < |k|
    ensures k[i] == '|' && k[j] == '|' ==> CacheKey(Cut(k, i, j)) == k
    ensures CacheKey(q) == k && i == |q.subject| && j == i + 1 + |q.resourceType| ==>
      k[i] == '|' && k[j] == '|' && Cut(k, i, j) == q
  {
    KeyAt(q);
    if k[i] == '|' && k[j] == '|' {
      assert k == k[..i] + "|" + k[i + 1..j] + "|" + k[j + 1..];
    }
  }

  /** Some other query has the same key. */
  ghost predicate HasTwin(p: Query) {
    exists q :: q != p && CacheKey(q) == CacheKey(p)
  }

  /** Some other query has the same key and all three parts that the filter asks for. */
  ghost predicate HasAskableTwin(p: Query) {
    exists q :: q != p && Askable(q) && CacheKey(q) == CacheKey(p)
  }

  predicate Askable(q: Query) {
    q.subject != "" && q.resourceType != "" && q.action != ""
  }

  predicate NoBars(q: Query) {
    '|' !in q.subject && '|' !in q.resourceType && '|' !in q.action
  }

  /** A bar that can stand as separator with something on both its sides. */
  predicate Splittable(q: Query)
    requires Askable(q)
  {
    || '|' in q.subject[1..]
    || ('|' in q.resourceType && q.resourceType != "|")
    || '|' in q.action[..|q.action| - 1]
  }

  /** Another reading of the key of p, from another pair of its bars. */
  lemma AnotherCut(p: Query, i: nat, j: nat)
    requires i < j < |CacheKey(p)| && CacheKey(p)[i] == '|' && CacheKey(p)[j] == '|'
    requires i != |p.subject| || j != |p.subject| + 1 + |p.resourceType|
    ensures CacheKey(Cut(CacheKey(p), i, j)) == CacheKey(p) && Cut(CacheKey(p), i, j) != p
  {
    var q := Cut(CacheKey(p), i, j);
    CutsAreTheReadings(CacheKey(p), i, j, q);
    assert |q.subject| == i && |q.resourceType| == j - i - 1;
  }

  /** In which part of the key a bar stands. */
  lemma BarIn(p: Query, n: nat)
    requires n < |CacheKey(p)|
    ensures var i, j := |p.subject|, |p.subject| + 1 + |p.resourceType|;
      CacheKey(p)[n] == '|' <==>
        || n == i || n == j
        || (n < i && p.subject[n] == '|')
        || (i < n < j && p.resourceType[n - i - 1] == '|')
        || (j < n && p.action[n - j - 1] == '|')
  {}

  /** A bar of a part gives another reading: of the subject ... */
  lemma TwinBySubject(p: Query, b: nat)
    requires b < |p.subject| && p.subject[b] == '|'
    ensures HasTwin(p)
  {
    KeyAt(p);
    BarIn(p, b);
    hide CacheKey;
    AnotherCut(p, b, |p.subject|);
  }

  /** ... of the type ... */
  lemma TwinByType(p: Query, b: nat)
    requires b < |p.resourceType| && p.resourceType[b] == '|'
    ensures HasTwin(p)
  {
    KeyAt(p);
    BarIn(p, |p.subject| + 1 + b);
    hide CacheKey;
    AnotherCut(p, |p.subject|, |p.subject| + 1 + b);
  }

  /** ... and of the action. */
  lemma TwinByAction(p: Query, b: nat)
    requires b < |p.action| && p.action[b] == '|'
    ensures HasTwin(p)
  {
    KeyAt(p);
    BarIn(p, |p.subject| + 2 + |p.resourceType| + b);
    hide CacheKey;
    AnotherCut(p, |p.subject|, |p.subject| + 2 + |p.resourceType| + b);
  }

  lemma OnlyReading(p: Query, q: Query)
    requires NoBars(p) && CacheKey(p) == CacheKey(q)
    ensures p == q
  {
    KeyAt(p);
    KeyAt(q);
    BarIn(p, |q.subject|);
    BarIn(p, |q.subject| + 1 + |q.resourceType|);
    hide CacheKey;
  }

  /** A key is one query's own exactly when no part of that query has a bar in it. */
  lemma TwinExact(p: Query)
    ensures HasTwin(p) <==> !NoBars(p)
  {
    hide CacheKey;
    if '|' in p.subject {
      var b :| 0 <= b < |p.subject| && p.subject[b] == '|';
      TwinBySubject(p, b);
    } else if '|' in p.resourceType {
      var b :| 0 <= b < |p.resourceType| && p.resourceType[b] == '|';
      TwinByType(p, b);
    } else if '|' in p.action {
      var b :| 0 <= b < |p.action| && p.action[b] == '|';
      TwinByAction(p, b);
    } else {
      forall q | CacheKey(q) == CacheKey(p) ensures q == p { OnlyReading(p, q); }
    }
  }

  /** The cut has something in each part. */
  lemma AskableCut(p: Query, i: nat, j: nat)
    requires 0 < i && i + 1 < j < |CacheKey(p)| - 1 && CacheKey(p)[i] == '|' && CacheKey(p)[j] == '|'
    requires i != |p.subject| || j != |p.subject| + 1 + |p.resourceType|
    ensures HasAskableTwin(p)
  {
    hide CacheKey;
    AnotherCut(p, i, j);
    var q := Cut(CacheKey(p), i, j);
    assert |q.subject| == i && |q.resourceType| == j - i - 1 && |q.action| == |CacheKey(p)| - j - 1;
  }

  lemma SplitSubject(p: Query, b: nat)
    requires Askable(p) && 0 < b < |p.subject| && p.subject[b] == '|'
    ensures HasAskableTwin(p)
  {
    KeyAt(p);
    BarIn(p, b);
    hide CacheKey;
    AskableCut(p, b, |p.subject| + 1 + |p.resourceType|);
  }

  lemma SplitType(p: Query, b: nat)
    requires Askable(p) && b < |p.resourceType| && p.resourceType[b] == '|' && p.resourceType != "|"
    ensures HasAskableTwin(p)
  {
    KeyAt(p);
    BarIn(p, |p.subject| + 1 + b);
    assert p.resourceType[..1] == "|" ==> |p.resourceType| > 1;
    hide CacheKey;
    if b > 0 {
      AskableCut(p, |p.subject|, |p.subject| + 1 + b);
    } else {
      AskableCut(p, |p.subject| + 1, |p.subject| + 1 + |p.resourceType|);
    }
  }

  lemma SplitAction(p: Query, b: nat)
    requires Askable(p) && b < |p.action| - 1 && p.action[b] == '|'
    ensures HasAskableTwin(p)
  {
    KeyAt(p);
    BarIn(p, |p.subject| + 2 + |p.resourceType| + b);
    hide CacheKey;
    AskableCut(p, |p.subject|, |p.subject| + 2 + |p.resourceType| + b);
  }

  lemma SplitHasTwin(p: Query)
    requires Askable(p) && Splittable(p)
    ensures HasAskableTwin(p)
  {
    hide CacheKey;
    var s, a := p.subject[1..], p.action[..|p.action| - 1];
    if '|' in s {
      var b :| 0 <= b < |s| && s[b] == '|';
      SplitSubject(p, b + 1);
    } else if '|' in a {
      var b :| 0 <= b < |a| && a[b] == '|';
      SplitAction(p, b);
    } else {
      var b :| 0 <= b < |p.resourceType| && p.resourceType[b] == '|';
      SplitType(p, b);
    }
  }

  /** The bars of an unsplittable query's key that have something on both sides. */
  lemma UnsplitBars(p: Query, n: nat)
    requires Askable(p) && !Splittable(p) && 0 < n < |CacheKey(p)| - 1 && CacheKey(p)[n] == '|'
    ensures || n == |p.subject| || n == |p.subject| + 1 + |p.resourceType|
            || (n == |p.subject| + 1 && |p.resourceType| == 1)
  {
    KeyAt(p);
    BarIn(p, n);
    hide CacheKey;
    var s, a := p.subject[1..], p.action[..|p.action| - 1];
    assert forall m :: 0 < m < |p.subject| ==> p.subject[m] == s[m - 1];
    assert forall m :: 0 <= m < |p.action| - 1 ==> p.action[m] == a[m];
  }

  lemma UnsplitIsOwn(p: Query, q: Query)
    requires Askable(p) && Askable(q) && !Splittable(p) && CacheKey(p) == CacheKey(q)
    ensures p == q
  {
    KeyAt(p);
    KeyAt(q);
    UnsplitBars(p, |q.subject|);
    UnsplitBars(p, |q.subject| + 1 + |q.resourceType|);
    hide CacheKey;
  }

  /** Among the queries the filter stores, it is exactly when no bar of the query can be read as
      a separator. */
  lemma AskableTwinExact(p: Query)
    requires Askable(p)
    ensures HasAskableTwin(p) <==> Splittable(p)
  {
    hide CacheKey;
    if Splittable(p) {
      SplitHasTwin(p);
    } else {
      forall q | Askable(q) && CacheKey(q) == CacheKey(p) ensures q == p { UnsplitIsOwn(p, q); }
    }
  }

  predicate HasPrefix(k: string, prefix: string) {
    |k| >= |prefix| && k[..|prefix|] == prefix
  }

  /** The invalidation prefix of a subject fits exactly the keys of its queries. */
  lemma PrefixIsSubject(subject: string, q: Query)
    requires '|' !in subject && '|' !in q.subject
    ensures HasPrefix(CacheKey(q), subject + "|") <==> q.subject == subject
  {
    KeySubject(q);
    var k, p := CacheKey(q), subject + "|";
    if HasPrefix(k, p) {
      assert k == p + k[|p|..];
      assert k == subject + "|" + k[|p|..];
      FirstBarIs(subject, k[|p|..]);
      assert k[..|subject|] == p[..|subject|] == subject;
    }
    if q.subject == subject {
      assert k == p + (q.resourceType + "|" + q.action);
    }
  }

  /** It does so for the subjects without a bar and for no other. */
  lemma PrefixExact(subject: string)
    ensures (forall q: Query :: '|' !in q.subject ==> (HasPrefix(CacheKey(q), subject + "|") <==> q.subject == subject))
      <==> '|' !in subject
  {
    if '|' in subject {
      var b := FirstBar(subject);
      var q := Query(subject[..b], subject[b + 1..], "");
      assert subject == subject[..b] + "|" + subject[b + 1..];
      assert CacheKey(q) == subject + "|";
    } else {
      forall q: Query | '|' !in q.subject ensures HasPrefix(CacheKey(q), subject + "|") <==> q.subject == subject {
        PrefixIsSubject(subject, q);
      }
    }
  }

  // ---- the filter ----

  /** One stored answer, for the record. */
  datatype Stored = Stored(query: Query, reply: Reply, at: nat)

  datatype Lookup = Answered(decision: Decision) | Rejected(error: Error) | AskOracle

  class FGAFilter {
    const enabled: bool
    const failOpen: bool
    const ttl: nat
    const maxEntries: nat
    var cache: map<string, Entry>
    ghost var answers: set<Stored>

    /** Every entry is an answer the oracle gave for a query with that key, expiring one time to
        live after it was stored; never an error and never a fail-open bypass. */
    ghost predicate Valid()
      reads this
    {
      && ttl > 0 && maxEntries > 0 && |cache| <= maxEntries
      && forall k :: k in cache ==> exists a :: a in answers && EntryOf(k, cache[k], a, ttl)
    }

    static ghost predicate EntryOf(k: string, e: Entry, a: Stored, ttl: nat) {
      && !a.reply.Failed? && Askable(a.query)
      && CacheKey(a.query) == k && e.decision == Decide(a.reply) && e.expires == a.at + ttl
    }

    /** Non-positive settings fall back to 5 seconds and 10000 entries. */
    constructor (enabled: bool, failOpen: bool, ttl: int, maxEntries: int)
      ensures cache == map[] && answers == {} && this.enabled == enabled && this.failOpen == failOpen
      ensures this.ttl == (if ttl <= 0 then 5000 else ttl)
      ensures this.maxEntries == (if maxEntries <= 0 then 10000 else maxEntries)
      ensures Valid()
    {
      this.enabled, this.failOpen := enabled, failOpen;
      this.ttl := if ttl <= 0 then 5000 else ttl;
      this.maxEntries := if maxEntries <= 0 then 10000 else maxEntries;
      cache, answers := map[], {};
    }

    method GetCache(key: string, now: nat) returns (r: Option<Decision>)
      requires Valid()
      modifies this`cache
      ensures Valid()
      ensures cache == if key in old(cache) && now > old(cache)[key].expires then old(cache) - {key} else old(cache)
      ensures r == if key in cache then Some(cache[key].decision) else None
      ensures r.Some? ==> now <= cache[key].expires
    {
      if key !in cache { return None; }
      if now > cache[key].expires {
        Shrinks(cache, {key});
        cache := cache - {key};
        return None;
      }
      return Some(cache[key].decision);
    }

    /** When the bound is reached some entry goes, whichever the map yields. */
    method Evict()
      requires Valid()
      modifies this`cache
      ensures Valid() && |cache| < maxEntries
      ensures forall k :: k in cache ==> k in old(cache) && cache[k] == old(cache)[k]
      ensures |old(cache)| < maxEntries ==> cache == old(cache)
      ensures |old(cache)| >= maxEntries ==> exists k :: k in old(cache) && cache == old(cache) - {k}
    {
      if |cache| >= maxEntries {
        FullIsNotEmpty(cache, maxEntries);
        var k :| k in cache;
        OneLess(cache, k);
        cache := cache - {k};
      }
    }

    method PutCache(query: Query, reply: Reply, now: nat)
      requires Valid() && !reply.Failed? && Askable(query)
      modifies this`cache, this`answers
      ensures Valid() && answers == old(answers) + {Stored(query, reply, now)}
      ensures CacheKey(query) in cache && cache[CacheKey(query)] == Entry(Decide(reply), now + ttl)
      ensures Puts(old(cache), cache, CacheKey(query), maxEntries)
    {
      hide CacheKey, Decide, Askable, Puts;
      Evict();
      var key, e := CacheKey(query), Entry(Decide(reply), now + ttl);
      Grows(cache, key, e);
      PutsAfter(old(cache), cache, key, e, maxEntries);
      cache := cache[key := e];
      answers := answers + {Stored(query, reply, now)};
      assert EntryOf(key, e, Stored(query, reply, now), ttl);
    }

    /** The first half of ListAllowedIDs: everything up to the remote call. */
    method Look(query: Query, now: nat) returns (r: Lookup)
      requires Valid()
      modifies this`cache
      ensures Valid()
      ensures cache == old(cache) ||
        (enabled && Askable(query) && Expired(old(cache), CacheKey(query), now)
         && cache == old(cache) - {CacheKey(query)})
      ensures !enabled ==> r == Answered(NOTHING.(bypassAll := true)) && cache == old(cache)
      ensures enabled && query.subject == "" ==> r == Rejected(Unauthenticated) && cache == old(cache)
      ensures enabled && query.subject != "" && (query.resourceType == "" || query.action == "") ==>
        r == Rejected(Invalid) && cache == old(cache)
      ensures enabled && query.subject != "" && query.resourceType != "" && query.action != "" ==>
        && !r.Rejected?
        && (r.Answered? <==> CacheKey(query) in old(cache) && !Expired(old(cache), CacheKey(query), now))
      ensures r == AskOracle ==> Askable(query)
      ensures enabled && r.Answered? ==>
        && r.decision.fromCache
        && exists a :: a in answers && FreshAnswer(a, query, now, ttl) && Means(a.reply, r.decision)
    {
      if !enabled { return Answered(NOTHING.(bypassAll := true)); }
      if query.subject == "" { return Rejected(Unauthenticated); }
      if query.resourceType == "" || query.action == "" { return Rejected(Invalid); }
      var d := GetCache(CacheKey(query), now);
      if d.Some? {
        ghost var a :| a in answers && EntryOf(CacheKey(query), cache[CacheKey(query)], a, ttl);
        assert FreshAnswer(a, query, now, ttl);
        DecideMeans(a.reply);
        return Answered(d.value.(fromCache := true));
      }
      return AskOracle;
    }

    /** The second half: what the oracle's reply becomes, and what of it is stored. */
    method Learn(query: Query, reply: Reply, now: nat) returns (r: Result<Decision, Error>)
      requires Valid() && Askable(query)
      modifies this`cache, this`answers
      ensures Valid()
      ensures reply.Failed? ==> cache == old(cache) && answers == old(answers)
      ensures reply.Failed? ==>
        r == if failOpen then Ok(NOTHING.(bypassAll := true, failOpen := true)) else Err(Unavailable)
      ensures !reply.Failed? ==>
        && r.Ok? && Means(reply, r.value) && !r.value.fromCache
        && answers == old(answers) + {Stored(query, reply, now)}
      ensures !reply.Failed? ==>
        && CacheKey(query) in cache && cache[CacheKey(query)] == Entry(r.value, now + ttl)
        && Puts(old(cache), cache, CacheKey(query), maxEntries)
    {
      if reply.Failed? {
        return if failOpen then Ok(NOTHING.(bypassAll := true, failOpen := true)) else Err(Unavailable);
      }
      PutCache(query, reply, now);
      DecideMeans(reply);
      return Ok(Decide(reply));
    }

    /** Removes the entries whose key starts with the subject and a bar, and only those. */
    method Invalidate(subject: string)
      requires Valid()
      modifies this`cache
      ensures Valid()
      ensures cache == map k | k in old(cache) && !HasPrefix(k, subject + "|") :: old(cache)[k]
    {
      var gone := set k | k in cache && HasPrefix(k, subject + "|");
      Shrinks(cache, gone);
      cache := cache - gone;
    }
  }

  predicate Expired(cache: map<string, Entry>, key: string, now: nat) {
    key in cache && cache[key].expires < now
  }

  /** An answer for a query with the same key, stored no longer than the time to live ago. */
  ghost predicate FreshAnswer(a: Stored, query: Query, now: nat, ttl: nat) {
    !a.reply.Failed? && Askable(a.query) && CacheKey(a.query) == CacheKey(query) && now <= a.at + ttl
  }

  /** A hit is an answer to the very query, whatever was stored before, exactly when the asking
      query cannot be split. */
  lemma HitIsOwnAnswer(query: Query, reply: Reply, now: nat, ttl: nat)
    requires Askable(query) && !reply.Failed?
    ensures (forall a :: FreshAnswer(a, query, now, ttl) ==> a.query == query) <==> !Splittable(query)
  {
    if Splittable(query) {
      SplitHasTwin(query);
      var q :| q != query && Askable(q) && CacheKey(q) == CacheKey(query);
      assert FreshAnswer(Stored(q, reply, now), query, now, ttl);
    } else {
      forall a | FreshAnswer(a, query, now, ttl) ensures a.query == query { UnsplitIsOwn(query, a.query); }
    }
  }

  /** Besides the entry of `key`, at most one other goes, and only from a full cache. */
  ghost predicate Puts(before: map<string, Entry>, after: map<string, Entry>, key: string, bound: nat) {
    && (forall k :: k in after && k != key ==> k in before && after[k] == before[k])
    && (|before| < bound ==> before.Keys <= after.Keys)
    && (|before| >= bound ==> exists k :: k in before && before.Keys - {k} <= after.Keys)
  }

  lemma PutsAfter(before: map<string, Entry>, evicted: map<string, Entry>, key: string, e: Entry, bound: nat)
    requires |before| < bound ==> evicted == before
    requires |before| >= bound ==> exists k :: k in before && evicted == before - {k}
    ensures Puts(before, evicted[key := e], key, bound)
  {
    if |before| >= bound {
      var k :| k in before && evicted == before - {k};
      assert before.Keys - {k} <= evicted[key := e].Keys;
    }
  }

  lemma OneLess(m: map<string, Entry>, k: string)
    requires k in m
    ensures |m - {k}| == |m| - 1
  {
    assert (m - {k}).Keys == m.Keys - {k};
    assert |m| == |m.Keys| && |m - {k}| == |(m - {k}).Keys|;
  }

  lemma Shrinks(m: map<string, Entry>, gone: set<string>)
    ensures |m - gone| <= |m|
  {}

  lemma Grows(m: map<string, Entry>, k: string, e: Entry)
    ensures |m[k := e]| <= |m| + 1
  {}

  lemma FullIsNotEmpty(m: map<string, Entry>, bound: nat)
    requires |m| >= bound > 0
    ensures exists k :: k in m
  {}

  /** With no call in flight and no bars, Invalidate forgets exactly the subject's answers. */
  method InvalidateForgets(f: FGAFilter, subject: string, q: Query)
    requires f.Valid() && '|' !in subject && '|' !in q.subject
    modifies f`cache
    ensures f.Valid()
    ensures q.subject == subject ==> CacheKey(q) !in f.cache
    ensures q.subject != subject && CacheKey(q) in old(f.cache) ==>
      CacheKey(q) in f.cache && f.cache[CacheKey(q)] == old(f.cache)[CacheKey(q)]
  {
    f.Invalidate(subject);
    PrefixIsSubject(subject, q);
  }

  /** With a call in flight it does not: the call asked before the invalidation and stores its
      answer after it. */
  method InFlightAnswerSurvives(f: FGAFilter, q: Query, reply: Reply, now: nat, later: nat) returns (missed: bool)
    requires f.Valid() && f.enabled && !reply.Failed? && CacheKey(q) !in f.cache
    requires q.subject != "" && q.resourceType != "" && q.action != ""
    modifies f
    ensures missed ==> CacheKey(q) in f.cache && Means(reply, f.cache[CacheKey(q)].decision)
    ensures missed
  {
    var look := f.Look(q, now);
    missed := look == AskOracle;
    f.Invalidate(q.subject);
    var result := f.Learn(q, reply, later);
  }
}
