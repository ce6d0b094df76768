/** Keyset pagination in (created_at, id) order, from the token a call is given to the token it
    prints. */
module Paging {
  import opened Domain
  import PageToken

  type Time = PageToken.Time
  type Id = PageToken.Bytes

  datatype Key = Key(createdAt: Time, id: Id)

  datatype Row = Row(key: Key, project: string, name: string)

  /** `allowed` is the authorization filter's answer; None when it does not apply. */
  datatype Filter = Filter(project: string, name: string, allowed: Option<set<Id>>)

  datatype Error = InvalidArgument

  // ---- the order of keys ----

  predicate Earlier(a: Time, b: Time) {
    || a.year < b.year
    || (a.year == b.year && a.month < b.month)
    || (a.year == b.year && a.month == b.month && a.day < b.day)
    || (a.year == b.year && a.month == b.month && a.day == b.day && InDay(a) < InDay(b))
  }

  /** Nanoseconds since midnight, as far as a valid time goes. */
  function InDay(t: Time): nat {
    ((t.hour * 60 + t.minute) * 60 + t.second) * 1_000_000_000 + t.nanos
  }

  predicate Before(a: Id, b: Id) {
    b != [] && (a == [] || a[0] < b[0] || (a[0] == b[0] && Before(a[1..], b[1..])))
  }

  predicate Less(a: Key, b: Key) {
    Earlier(a.createdAt, b.createdAt) || (a.createdAt == b.createdAt && Before(a.id, b.id))
  }

  lemma {:induction false} BeforeIsOrder(a: Id, b: Id, c: Id)
    ensures !Before(a, a)
    ensures Before(a, b) && Before(b, c) ==> Before(a, c)
    decreases |a|
  {
    if a != [] {
      BeforeIsOrder(a[1..], if b == [] then [] else b[1..], if c == [] then [] else c[1..]);
    }
  }

  lemma EarlierIsOrder(a: Time, b: Time, c: Time)
    ensures !Earlier(a, a)
    ensures Earlier(a, b) && Earlier(b, c) ==> Earlier(a, c)
  {
    hide InDay;
  }

  lemma LessIsOrder(a: Key, b: Key, c: Key)
    ensures !Less(a, a)
    ensures Less(a, b) && Less(b, c) ==> Less(a, c)
  {
    hide Earlier, Before;
    EarlierIsOrder(a.createdAt, b.createdAt, c.createdAt);
    BeforeIsOrder(a.id, b.id, c.id);
  }

  lemma NotLessItself(a: Key)
    ensures !Less(a, a)
  {
    LessIsOrder(a, a, a);
  }

  /** A table's rows as `ORDER BY created_at, id` lists them. */
  predicate Ordered(rows: seq<Row>) {
    forall i, j :: 0 <= i < j < |rows| ==> Less(rows[i].key, rows[j].key)
  }

  // ---- pageSizeOrDefault ----

  const DEFAULT_PAGE_SIZE := 50
  const MAX_PAGE_SIZE := 1000

  function PageSizeOrDefault(p: int): Result<nat, Error> {
    if p == 0 then Ok(DEFAULT_PAGE_SIZE)
    else if p < 0 || p > MAX_PAGE_SIZE then Err(InvalidArgument)
    else Ok(p)
  }

  lemma PageSizeInRange(p: int)
    ensures PageSizeOrDefault(p).Ok? <==> 0 <= p <= 1000
    ensures PageSizeOrDefault(p).Ok? ==> 1 <= PageSizeOrDefault(p).value <= 1000
    ensures 0 < p <= 1000 ==> PageSizeOrDefault(p).value == p
    ensures PageSizeOrDefault(0) == Ok(50)
  {}

  // ---- the query ----

  predicate Selected(f: Filter, after: Option<Key>, r: Row) {
    && (f.project != "" ==> r.project == f.project)
    && (f.name != "" ==> r.name == f.name)
    && (f.allowed.Some? ==> r.key.id in f.allowed.value)
    && (after.Some? ==> Less(after.value, r.key))
  }

  /** The rows the WHERE clause keeps, in order. */
  function Matching(table: seq<Row>, f: Filter, after: Option<Key>): seq<Row> {
    if table == [] then []
    else (if Selected(f, after, table[0]) then [table[0]] else []) + Matching(table[1..], f, after)
  }

  lemma {:induction false} MatchingHas(table: seq<Row>, f: Filter, after: Option<Key>)
    ensures forall r :: r in Matching(table, f, after) <==> r in table && Selected(f, after, r)
  {
    if table != [] {
      MatchingHas(table[1..], f, after);
      assert table == [table[0]] + table[1..];
    }
  }

  datatype Page = Page(rows: seq<Row>, next: Option<Key>)

  function PageOf(table: seq<Row>, f: Filter, after: Option<Key>, size: nat): Page
    requires size > 0
  {
    var m := Matching(table, f, after);
    if |m| > size then Page(m[..size], Some(m[size - 1].key)) else Page(m, None)
  }

  lemma {:induction false} MatchingConcat(a: seq<Row>, b: seq<Row>, f: Filter, after: Option<Key>)
    ensures Matching(a + b, f, after) == Matching(a, f, after) + Matching(b, f, after)
  {
    if a == [] {
      assert a + b == b;
    } else {
      var rest := a[1..];
      var head := if Selected(f, after, a[0]) then [a[0]] else [];
      assert (a + b)[0] == a[0] && (a + b)[1..] == rest + b;
      MatchingConcat(rest, b, f, after);
      assert Matching(a + b, f, after) == head + (Matching(rest, f, after) + Matching(b, f, after));
      assert Matching(a, f, after) == head + Matching(rest, f, after);
    }
  }

  lemma MatchingSnoc(table: seq<Row>, r: Row, f: Filter, after: Option<Key>)
    ensures Matching(table + [r], f, after) == Matching(table, f, after) + (if Selected(f, after, r) then [r] else [])
  {
    MatchingConcat(table, [r], f, after);
    assert [r][1..] == [] && Matching([], f, after) == [];
  }

  lemma MatchingPrefix(table: seq<Row>, i: nat, f: Filter, after: Option<Key>)
    requires i <= |table|
    ensures |Matching(table[..i], f, after)| <= |Matching(table, f, after)|
    ensures Matching(table[..i], f, after) == Matching(table, f, after)[..|Matching(table[..i], f, after)|]
  {
    MatchingConcat(table[..i], table[i..], f, after);
    assert table[..i] + table[i..] == table;
  }

  // ---- the list call ----

  /** Where a token says to go on: None at the start. */
  function CursorOf(token: string): Result<Option<Key>, Error> {
    if token == "" then Ok(None)
    else
      match PageToken.DecodePageToken(token)
      case Err(_) => Err(InvalidArgument)
      case Ok(c) => Ok(Some(Key(c.createdAt, c.id)))
  }

  /** The keys that come back from their token. */
  predicate Printable(k: Key) {
    PageToken.Valid(k.createdAt) && 0 <= k.createdAt.year <= 9999 && !(k.createdAt == PageToken.ZERO_TIME && k.id == [])
  }

  /** A key comes back from its token exactly when it is printable. */
  lemma TokenExact(k: Key)
    requires PageToken.Valid(k.createdAt)
    ensures CursorOf(PageToken.EncodePageToken(k.createdAt, k.id)) == Ok(Some(k)) <==> Printable(k)
    ensures PageToken.EncodePageToken(k.createdAt, k.id) == "" ==> !Printable(k)
    ensures !(0 <= k.createdAt.year <= 9999) ==>
      CursorOf(PageToken.EncodePageToken(k.createdAt, k.id)) == Err(InvalidArgument)
  {
    PageToken.EmptyTokenIsStart(k.createdAt, k.id);
    PageToken.PageTokenRoundTrip(k.createdAt, k.id);
    hide PageToken.EncodePageToken, PageToken.DecodePageToken, PageToken.Valid;
  }

  predicate ValidTimes(rows: seq<Row>) {
    forall r :: r in rows ==> PageToken.Valid(r.key.createdAt)
  }

  datatype Reply = Reply(rows: seq<Row>, next: string)

  function TokenOf(next: Option<Key>): string
    requires next.Some? ==> PageToken.Valid(next.value.createdAt)
  {
    match next
    case None => ""
    case Some(k) => PageToken.EncodePageToken(k.createdAt, k.id)
  }

  lemma NextIsRow(table: seq<Row>, f: Filter, after: Option<Key>, size: nat)
    requires size > 0 && ValidTimes(table)
    ensures var page := PageOf(table, f, after, size);
      page.next.Some? ==>
        && PageToken.Valid(page.next.value.createdAt)
        && exists r :: r in table && r.key == page.next.value
  {
    MatchingHas(table, f, after);
    hide PageToken.Valid;
    var m := Matching(table, f, after);
    if |m| > size { assert m[size - 1] in m; }
  }

  /** What the call answers. */
  function ListReply(table: seq<Row>, f: Filter, requested: int, token: string): Result<Reply, Error>
    requires ValidTimes(table)
  {
    var size := PageSizeOrDefault(requested);
    if size.Err? then Err(size.error)
    else if f.allowed == Some({}) then Ok(Reply([], ""))
    else
      match CursorOf(token)
      case Err(e) => Err(e)
      case Ok(after) =>
        PageSizeInRange(requested);
        NextIsRow(table, f, after, size.value);
        var page := PageOf(table, f, after, size.value);
        Ok(Reply(page.rows, TokenOf(page.next)))
  }

  /** A row the call may return: of the project and name asked for, allowed, and past the token. */
  predicate Wanted(f: Filter, after: Option<Key>, r: Row) {
    && f.project in {"", r.project} && f.name in {"", r.name}
    && (f.allowed == None || r.key.id in f.allowed.value)
    && (after == None || Less(after.value, r.key))
  }

  /** The call is refused exactly for a size out of range or, unless nothing is allowed anyway, a
      token that does not decode. Otherwise it returns wanted rows of the table only, as many as
      asked for (50 unless a size is given) or all there are, and a token only with a full page. */
  lemma PageFills(table: seq<Row>, f: Filter, requested: int, token: string)
    requires ValidTimes(table)
    ensures var reply := ListReply(table, f, requested, token);
      && (reply.Err? <==> !(0 <= requested <= 1000) || (f.allowed != Some({}) && CursorOf(token).Err?))
      && (reply.Ok? && CursorOf(token).Ok? ==>
            var rows, size := reply.value.rows, if requested == 0 then 50 else requested;
            && |rows| <= size && (reply.value.next != "" ==> |rows| == size)
            && (forall r :: r in rows ==> r in table && Wanted(f, CursorOf(token).value, r))
            && (|rows| < size ==> forall r :: r in table && Wanted(f, CursorOf(token).value, r) ==> r in rows))
  {
    hide PageToken.EncodePageToken, PageToken.DecodePageToken, PageToken.Valid, Less, CursorOf;
    PageSizeInRange(requested);
    if CursorOf(token).Ok? {
      MatchingHas(table, f, CursorOf(token).value);
    }
  }

  /** The list call: `LIMIT size + 1`, the extra row only tells that there are more. */
  method List(table: seq<Row>, f: Filter, requested: int, token: string) returns (r: Result<Reply, Error>)
    requires ValidTimes(table)
    ensures r == ListReply(table, f, requested, token)
  {
    hide PageToken.EncodePageToken, PageToken.DecodePageToken, PageToken.Valid, Less;
    var size := PageSizeOrDefault(requested);
    PageSizeInRange(requested);
    if size.Err? { return Err(size.error); }
    if f.allowed == Some({}) { return Ok(Reply([], "")); }
    var after := CursorOf(token);
    if after.Err? { return Err(after.error); }
    NextIsRow(table, f, after.value, size.value);
    var result := Query(table, f, after.value, size.value + 1);
    if |result| > size.value {
      assert result[..size.value] == Matching(table, f, after.value)[..size.value];
      var last := result[size.value - 1];
      return Ok(Reply(result[..size.value], PageToken.EncodePageToken(last.key.createdAt, last.key.id)));
    }
    return Ok(Reply(result, ""));
  }

  /** The rows the query returns: the first that match, up to the limit. */
  method Query(table: seq<Row>, f: Filter, after: Option<Key>, limit: nat) returns (result: seq<Row>)
    ensures var m := Matching(table, f, after);
      result == if |m| > limit then m[..limit] else m
  {
    result := [];
    var i := 0;
    while i < |table| && |result| < limit
      invariant i <= |table| && |result| <= limit
      invariant result == Matching(table[..i], f, after)
    {
      assert table[..i + 1] == table[..i] + [table[i]];
      MatchingSnoc(table[..i], table[i], f, after);
      if Selected(f, after, table[i]) {
        result := result + [table[i]];
      }
      i := i + 1;
    }
    MatchingPrefix(table, i, f, after);
    if i == |table| { assert table[..i] == table; }
  }

  lemma {:induction false} NothingMatches(table: seq<Row>, f: Filter, after: Option<Key>)
    requires f.allowed == Some({})
    ensures Matching(table, f, after) == []
  {
    if table != [] { NothingMatches(table[1..], f, after); }
  }

  // ---- a fixed table ----

  lemma HeadIsLeast(table: seq<Row>, f: Filter, after: Option<Key>)
    requires Ordered(table) && table != []
    ensures forall r :: r in Matching(table[1..], f, after) ==> Less(table[0].key, r.key)
  {
    MatchingHas(table[1..], f, after);
    forall r | r in Matching(table[1..], f, after) ensures Less(table[0].key, r.key) {
      var j :| 0 <= j < |table[1..]| && table[1..][j] == r;
      assert table[j + 1] == r;
    }
  }

  lemma {:induction false} MatchingOrdered(table: seq<Row>, f: Filter, after: Option<Key>)
    requires Ordered(table)
    ensures Ordered(Matching(table, f, after))
  {
    if table != [] {
      assert Ordered(table[1..]);
      MatchingOrdered(table[1..], f, after);
      HeadIsLeast(table, f, after);
    }
  }

  lemma RestIsPast(table: seq<Row>)
    requires Ordered(table) && table != []
    ensures forall r :: r in table[1..] ==> Less(table[0].key, r.key)
  {}

  /** A cursor past the head skips it. */
  lemma SkipHead(table: seq<Row>, f: Filter, after: Option<Key>, cur: Key)
    requires table != [] && Less(table[0].key, cur)
    ensures Matching(table, f, Some(cur)) == Matching(table[1..], f, Some(cur))
  {
    LessIsOrder(table[0].key, cur, table[0].key);
    NotLessItself(table[0].key);
  }

  /** Rows after a cursor are the rest of the ordered match. */
  lemma {:induction false} MatchingAfter(table: seq<Row>, f: Filter, after: Option<Key>, k: nat)
    requires Ordered(table) && k < |Matching(table, f, after)|
    ensures Matching(table, f, Some(Matching(table, f, after)[k].key)) == Matching(table, f, after)[k + 1..]
    decreases |table|
  {
    var head, rest := table[0], table[1..];
    var n := Matching(rest, f, after);
    assert Ordered(rest);
    RestIsPast(table);
    MatchingHas(rest, f, after);
    hide Ordered, Less, Selected;
    if Selected(f, after, head) && k == 0 {
      SameAfter(rest, f, after, head.key);
      NotPastItself(f, head);
      assert Matching(table, f, after) == [head] + n;
    } else {
      var l := if Selected(f, after, head) then k - 1 else k;
      assert Matching(table, f, after)[k] == n[l] && n[l] in n;
      MatchingAfter(rest, f, after, l);
      SkipHead(table, f, after, n[l].key);
      assert Matching(table, f, after)[k + 1..] == n[l + 1..];
    }
  }

  lemma NotPastItself(f: Filter, r: Row)
    ensures !Selected(f, Some(r.key), r)
  {
    NotLessItself(r.key);
  }

  /** When every row is past the cursor anyway, the cursor does not matter. */
  lemma {:induction false} SameAfter(table: seq<Row>, f: Filter, after: Option<Key>, cur: Key)
    requires forall r :: r in table ==> Less(cur, r.key)
    requires after.Some? ==> after.value == cur || Less(after.value, cur)
    ensures Matching(table, f, Some(cur)) == Matching(table, f, after)
  {
    hide Less;
    if table != [] {
      SameAfter(table[1..], f, after, cur);
      if after.Some? { LessIsOrder(after.value, cur, table[0].key); }
    }
  }

  /** Following next tokens on an unchanging table. */
  function Walk(table: seq<Row>, f: Filter, after: Option<Key>, size: nat): seq<Row>
    requires Ordered(table) && size > 0
    decreases |Matching(table, f, after)|
  {
    var page := PageOf(table, f, after, size);
    if page.next == None then page.rows
    else
      MatchingAfter(table, f, after, size - 1);
      page.rows + Walk(table, f, page.next, size)
  }

  /** The walk ends, and its pages join to exactly the filtered rows, in order. */
  lemma {:induction false} WalkIsComplete(table: seq<Row>, f: Filter, after: Option<Key>, size: nat)
    requires Ordered(table) && size > 0
    ensures Walk(table, f, after, size) == Matching(table, f, after)
    ensures PageOf(table, f, after, size).next == None <==>
      |Matching(table, f, after)| == |PageOf(table, f, after, size).rows|
    decreases |Matching(table, f, after)|
  {
    hide Ordered, Less, Matching;
    var m := Matching(table, f, after);
    if |m| > size {
      MatchingAfter(table, f, after, size - 1);
      WalkIsComplete(table, f, Some(m[size - 1].key), size);
      assert m == m[..size] + m[size..];
    }
  }

  // ---- following the printed tokens ----

  predicate AllPrintable(rows: seq<Row>) {
    forall r :: r in rows ==> Printable(r.key)
  }

  /** The cursor of a token the server printed. */
  function After(token: string): Option<Key>
    requires CursorOf(token).Ok?
  {
    CursorOf(token).value
  }

  /** What a client gets that passes each reply's token to the next call, until it is empty. */
  function Follow(table: seq<Row>, f: Filter, requested: int, token: string): seq<Row>
    requires Ordered(table) && ValidTimes(table) && AllPrintable(table)
    requires PageSizeOrDefault(requested).Ok? && CursorOf(token).Ok?
    decreases |Matching(table, f, After(token))|
  {
    var reply := ListReply(table, f, requested, token).value;
    if reply.next == "" then reply.rows
    else
      NextPageIsSmaller(table, f, requested, token);
      reply.rows + Follow(table, f, requested, reply.next)
  }

  /** The printed token leads to the next page, and to nothing else. */
  lemma NextPageIsSmaller(table: seq<Row>, f: Filter, requested: int, token: string)
    requires Ordered(table) && ValidTimes(table) && AllPrintable(table)
    requires PageSizeOrDefault(requested).Ok? && CursorOf(token).Ok?
    ensures ListReply(table, f, requested, token).Ok?
    ensures var size := PageSizeOrDefault(requested).value;
      var reply := ListReply(table, f, requested, token).value;
      && (f.allowed == Some({}) ==> reply == Reply([], ""))
      && (f.allowed != Some({}) ==>
            var page := PageOf(table, f, After(token), size);
            && reply.rows == page.rows && (reply.next == "" <==> page.next == None)
            && (page.next.Some? ==>
                  && CursorOf(reply.next) == Ok(page.next)
                  && |Matching(table, f, page.next)| < |Matching(table, f, After(token))|))
  {
    hide PageToken.EncodePageToken, PageToken.DecodePageToken, PageToken.Valid, Less, Matching, Printable, Ordered,
      Selected;
    PageSizeInRange(requested);
    var size, after := PageSizeOrDefault(requested).value, After(token);
    NextIsRow(table, f, after, size);
    var page := PageOf(table, f, after, size);
    if page.next.Some? {
      TokenExact(page.next.value);
      MatchingAfter(table, f, after, size - 1);
    }
  }

  lemma {:induction false} FollowIsWalk(table: seq<Row>, f: Filter, requested: int, token: string)
    requires Ordered(table) && ValidTimes(table) && AllPrintable(table)
    requires PageSizeOrDefault(requested).Ok? && CursorOf(token).Ok?
    ensures Follow(table, f, requested, token) == Matching(table, f, After(token))
    decreases |Matching(table, f, After(token))|
  {
    hide ListReply, CursorOf, Less, Ordered, ValidTimes, AllPrintable, Matching;
    NextPageIsSmaller(table, f, requested, token);
    PageSizeInRange(requested);
    var reply := ListReply(table, f, requested, token).value;
    if f.allowed == Some({}) {
      NothingMatches(table, f, After(token));
    } else if reply.next == "" {
      LastPageIsRest(table, f, After(token), PageSizeOrDefault(requested).value);
    } else {
      FollowIsWalk(table, f, requested, reply.next);
      PageAndRest(table, f, After(token), PageSizeOrDefault(requested).value);
    }
  }

  lemma LastPageIsRest(table: seq<Row>, f: Filter, after: Option<Key>, size: nat)
    requires size > 0 && PageOf(table, f, after, size).next == None
    ensures PageOf(table, f, after, size).rows == Matching(table, f, after)
  {}

  lemma PageAndRest(table: seq<Row>, f: Filter, after: Option<Key>, size: nat)
    requires Ordered(table) && size > 0 && PageOf(table, f, after, size).next.Some?
    ensures var page := PageOf(table, f, after, size);
      page.rows + Matching(table, f, page.next) == Matching(table, f, after)
  {
    MatchingAfter(table, f, after, size - 1);
  }

  /** From the empty token, following the tokens the server printed gives exactly the filtered
      rows of an unchanging table, in order, whatever the page size, as long as every row's key
      survives its token: a time in the years 0 to 9999, and not the cursor before all rows. */
  lemma FollowingTokensIsComplete(table: seq<Row>, f: Filter, requested: int)
    requires Ordered(table) && ValidTimes(table) && AllPrintable(table) && PageSizeOrDefault(requested).Ok?
    ensures Follow(table, f, requested, "") == Matching(table, f, None)
    ensures Ordered(Follow(table, f, requested, ""))
    ensures forall r :: r in Follow(table, f, requested, "") <==> r in table && Selected(f, None, r)
  {
    FollowIsWalk(table, f, requested, "");
    MatchingOrdered(table, f, None);
    MatchingHas(table, f, None);
  }

  /** A page that ends with a row of another year prints a token that every further call refuses:
      the client cannot go on. */
  lemma OtherYearStopsTheWalk(table: seq<Row>, f: Filter, requested: int, k: Key)
    requires ValidTimes(table) && PageToken.Valid(k.createdAt) && !(0 <= k.createdAt.year <= 9999)
    requires PageSizeOrDefault(requested).Ok? && f.allowed != Some({})
    ensures ListReply(table, f, requested, TokenOf(Some(k))) == Err(InvalidArgument)
  {
    TokenExact(k);
  }

  // ---- tables that change between the pages ----

  /** Page i is read from tables[i]; the walk may stop early when a token is empty. */
  function WalkThrough(tables: seq<seq<Row>>, f: Filter, after: Option<Key>, size: nat): seq<Row>
    requires size > 0
  {
    if tables == [] then []
    else
      var page := PageOf(tables[0], f, after, size);
      if page.next == None then page.rows else page.rows + WalkThrough(tables[1..], f, page.next, size)
  }

  predicate Finished(tables: seq<seq<Row>>, f: Filter, after: Option<Key>, size: nat)
    requires size > 0
  {
    tables != [] &&
    var page := PageOf(tables[0], f, after, size);
    page.next == None || Finished(tables[1..], f, page.next, size)
  }

  predicate Past(after: Option<Key>, rows: seq<Row>) {
    after.Some? ==> forall r :: r in rows ==> Less(after.value, r.key)
  }

  /** Whatever is inserted or deleted between the pages, no row is returned twice: keys only
      grow along the walk. */
  lemma {:induction false} WalkNeverRepeats(tables: seq<seq<Row>>, f: Filter, after: Option<Key>, size: nat)
    requires size > 0 && forall i :: 0 <= i < |tables| ==> Ordered(tables[i])
    ensures Ordered(WalkThrough(tables, f, after, size)) && Past(after, WalkThrough(tables, f, after, size))
  {
    if tables != [] {
      var m := Matching(tables[0], f, after);
      var page := PageOf(tables[0], f, after, size);
      MatchingOrdered(tables[0], f, after);
      MatchingHas(tables[0], f, after);
      assert forall r :: r in page.rows ==> r in m;
      if page.next != None {
        var rest := WalkThrough(tables[1..], f, page.next, size);
        WalkNeverRepeats(tables[1..], f, page.next, size);
        assert m[size - 1] in m;
        JoinOrdered(page.rows, rest);
        forall r | after.Some? && r in page.rows + rest ensures Less(after.value, r.key) {
          if r !in page.rows {
            assert r in rest && Less(page.next.value, r.key);
            LessIsOrder(after.value, page.next.value, r.key);
          }
        }
      }
    }
  }

  lemma JoinOrdered(a: seq<Row>, b: seq<Row>)
    requires Ordered(a) && Ordered(b) && a != [] && Past(Some(a[|a| - 1].key), b)
    ensures Ordered(a + b)
  {
    hide Less;
    forall i, j | 0 <= i < j < |a + b| ensures Less((a + b)[i].key, (a + b)[j].key) {
      if i < |a| <= j {
        assert (a + b)[j] in b;
        LessIsOrder(a[i].key, a[|a| - 1].key, (a + b)[j].key);
      }
    }
  }

  /** And a finished walk has every row that was there, and selected, throughout. */
  lemma {:induction false} WalkMissesNothing(tables: seq<seq<Row>>, f: Filter, after: Option<Key>, size: nat, r: Row)
    requires size > 0 && (forall i :: 0 <= i < |tables| ==> Ordered(tables[i]) && r in tables[i])
    requires Selected(f, after, r) && Finished(tables, f, after, size)
    ensures r in WalkThrough(tables, f, after, size)
  {
    var m := Matching(tables[0], f, after);
    var page := PageOf(tables[0], f, after, size);
    MatchingHas(tables[0], f, after);
    assert r in tables[0] && r in m;
    if page.next != None && r !in page.rows {
      MatchingOrdered(tables[0], f, after);
      var k :| 0 <= k < |m| && m[k] == r;
      assert forall i :: 0 <= i < size ==> page.rows[i] == m[i];
      assert k >= size;
      assert Less(m[size - 1].key, r.key);
      WalkMissesNothing(tables[1..], f, page.next, size, r);
    }
  }
}
