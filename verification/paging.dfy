/** What the two mock list endpoints of the frontend share
    (frontend/src/app/api/orders/route.ts and
    frontend/src/app/api/customers/route.ts): records held as JSON objects,
    the case-insensitive search over two string fields, page slicing and the
    page count, and the record a POST builds by spreading the request body
    over a generated id. */
module Paging {
  import opened Wrappers
  import opened Text
  import opened Json
  import Records

  /** A record of a mock collection: a JSON object's properties. */
  type Entry = map<string, Json>

  /** The reply of a list request. */
  datatype ListReply = ListReply(
    items: seq<Entry>,
    total: nat,
    totalPages: nat,
    currentPage: int,
    limit: int)

  function Min(a: int, b: int): int { if a <= b then a else b }

  /** The string value of a property; `None` when it is missing or not a
      string, where `.toLowerCase()` would throw a TypeError. */
  function Field(e: Entry, name: string): (r: Option<string>)
    ensures r.Some? <==> name in e && e[name].JStr?
    ensures r.Some? ==> e[name] == JStr(r.value)
  {
    if name in e && e[name].JStr? then Some(e[name].s) else None
  }

  /** `a.toLowerCase().includes(q.toLowerCase()) || b.toLowerCase().includes(q.toLowerCase())`
      for the properties `first` and `second`: `None` when evaluation throws.
      The second property is read only when the first does not match. */
  function MatchEntry(e: Entry, query: string, first: string, second: string): (r: Option<bool>)
    ensures r.None? <==>
      Field(e, first).None? ||
      (!Contains(LowerAscii(Field(e, first).value), LowerAscii(query)) && Field(e, second).None?)
    ensures r == Some(true) <==>
      Field(e, first).Some? &&
      (Contains(LowerAscii(Field(e, first).value), LowerAscii(query)) ||
       (Field(e, second).Some? && Contains(LowerAscii(Field(e, second).value), LowerAscii(query))))
  {
    match Field(e, first)
    case None => None
    case Some(a) =>
      if Contains(LowerAscii(a), LowerAscii(query)) then Some(true)
      else
        match Field(e, second)
        case None => None
        case Some(b) => Some(Contains(LowerAscii(b), LowerAscii(query)))
  }

  /** `s.filter(...)` with a condition that may throw: the kept elements in
      order, or `None` when the condition throws for some element. */
  function Filter(m: Entry -> Option<bool>, s: seq<Entry>): (r: Option<seq<Entry>>)
    ensures r.Some? ==> |r.value| <= |s|
  {
    if |s| == 0 then Some([])
    else
      var rest := Filter(m, s[1..]);
      if m(s[0]).None? || rest.None? then None
      else if m(s[0]).value then Some([s[0]] + rest.value)
      else rest
  }

  lemma {:induction false} FilterFacts(m: Entry -> Option<bool>, s: seq<Entry>)
    ensures Filter(m, s).None? <==> exists k :: 0 <= k < |s| && m(s[k]).None?
    ensures Filter(m, s).Some? ==> forall x :: x in Filter(m, s).value <==> x in s && m(x) == Some(true)
  {
    if |s| > 0 {
      FilterFacts(m, s[1..]);
      assert forall x :: x in s <==> x == s[0] || x in s[1..];
      assert forall k :: 0 < k < |s| ==> s[k] == s[1..][k - 1];
    }
  }

  lemma {:induction false} FilterAppend(m: Entry -> Option<bool>, a: seq<Entry>, b: seq<Entry>)
    requires Filter(m, a + b).Some?
    ensures Filter(m, a).Some? && Filter(m, b).Some?
    ensures Filter(m, a + b).value == Filter(m, a).value + Filter(m, b).value
  {
    if |a| == 0 {
      assert a + b == b;
    } else {
      assert (a + b)[0] == a[0];
      assert (a + b)[1..] == a[1..] + b;
      FilterAppend(m, a[1..], b);
    }
  }

  lemma {:induction false} FilterKeepsAll(m: Entry -> Option<bool>, s: seq<Entry>)
    requires forall k :: 0 <= k < |s| ==> m(s[k]) == Some(true)
    ensures Filter(m, s) == Some(s)
  {
    if |s| > 0 {
      FilterKeepsAll(m, s[1..]);
      assert [s[0]] + s[1..] == s;
    }
  }

  /** The search condition over all entries. */
  function Search(entries: seq<Entry>, query: string, first: string, second: string): (r: Option<seq<Entry>>)
    ensures r.None? <==> exists k :: 0 <= k < |entries| && MatchEntry(entries[k], query, first, second).None?
    ensures r.Some? ==> |r.value| <= |entries|
    ensures r.Some? ==> forall e :: e in r.value <==>
      e in entries && MatchEntry(e, query, first, second) == Some(true)
  {
    FilterFacts(e => MatchEntry(e, query, first, second), entries);
    Filter(e => MatchEntry(e, query, first, second), entries)
  }

  /** Filtering keeps the order of the entries: it distributes over
      concatenation. */
  lemma SearchAppend(a: seq<Entry>, b: seq<Entry>, query: string, first: string, second: string)
    requires Search(a + b, query, first, second).Some?
    ensures Search(a, query, first, second).Some? && Search(b, query, first, second).Some?
    ensures Search(a + b, query, first, second).value ==
            Search(a, query, first, second).value + Search(b, query, first, second).value
  {
    FilterAppend(e => MatchEntry(e, query, first, second), a, b);
  }

  /** An empty query matches every entry whose first property is a string. */
  lemma EmptyQueryMatchesAll(entries: seq<Entry>, first: string, second: string)
    requires forall k :: 0 <= k < |entries| ==> Field(entries[k], first).Some?
    ensures Search(entries, "", first, second) == Some(entries)
  {
    assert LowerAscii("") == "";
    forall k | 0 <= k < |entries|
      ensures MatchEntry(entries[k], "", first, second) == Some(true)
    {
      ContainsEmpty(LowerAscii(Field(entries[k], first).value));
    }
    FilterKeepsAll(e => MatchEntry(e, "", first, second), entries);
  }

  function Max(a: int, b: int): int { if a >= b then a else b }

  /** `s.slice(start, end)`: a negative bound counts from the end, and both
      bounds are clamped to the sequence. */
  function Slice<T>(s: seq<T>, start: int, end: int): (r: seq<T>)
    ensures 0 <= start <= end ==> r == s[Min(start, |s|)..Min(end, |s|)]
    ensures 0 <= end <= start ==> r == []
    ensures |r| <= |s|
  {
    var from := if start < 0 then Max(|s| + start, 0) else Min(start, |s|);
    var to := if end < 0 then Max(|s| + end, 0) else Min(end, |s|);
    if from >= to then [] else s[from..to]
  }

  /** The first position of a page, `(page - 1) * limit`. */
  function PageOffset(page: int, limit: int): (o: int)
    requires limit >= 1
    ensures page == 0 ==> o == -limit
    ensures page >= 1 ==> 0 <= o && o + limit == page * limit
    ensures page < 0 ==> o + limit < 0
  {
    assert page * limit == (page - 1) * limit + limit;
    var m := if page < 0 then -page else 1;
    MulMonotone(1, m, limit);
    assert page < 0 ==> m * limit == -(page * limit);
    (page - 1) * limit
  }

  /** A negative bound of `slice` counts from the end of the sequence. */
  lemma SliceFromEnd<T>(s: seq<T>, start: int, end: int)
    ensures start < 0 ==> Slice(s, start, end) == Slice(s, Max(|s| + start, 0), end)
    ensures end < 0 ==> Slice(s, start, end) == Slice(s, start, Max(|s| + end, 0))
  {
  }

  /** A negative page reads the window `limit` long that ends |page|·limit
      entries before the end, cut at the start of the list. */
  lemma PageNegative<T>(s: seq<T>, page: int, limit: int)
    requires limit >= 1 && page < 0
    ensures var o := PageOffset(page, limit);
      Page(s, page, limit) == s[Max(|s| + o, 0)..Max(|s| + o + limit, 0)]
  {
  }

  /** The page `s.slice(offset, offset + limit)`: never longer than the
      limit, empty for page 0, and for a positive page the entries from its
      offset on. */
  function Page<T>(s: seq<T>, page: int, limit: int): (r: seq<T>)
    requires limit >= 1
    ensures |r| <= limit
    ensures page == 0 ==> r == []
    ensures page >= 1 ==> r == s[Min(PageOffset(page, limit), |s|)..Min(PageOffset(page, limit) + limit, |s|)]
  {
    var start := PageOffset(page, limit);
    Slice(s, start, start + limit)
  }

  /** `Math.ceil(total / limit)`. */
  function TotalPages(total: nat, limit: int): (n: nat)
    requires limit >= 1
    ensures total <= n * limit
    ensures n > 0 ==> (n - 1) * limit < total
  {
    (total + limit - 1) / limit
  }

  /** A non-empty list no longer than the limit fits on one page. */
  lemma OnePage(total: nat, limit: int)
    requires 1 <= total <= limit
    ensures TotalPages(total, limit) == 1
  {
  }

  /** Pages 1 to n, one after the other. */
  function Pages<T>(s: seq<T>, limit: int, n: nat): seq<T>
    requires limit >= 1
  {
    if n == 0 then [] else Pages(s, limit, n - 1) + Page(s, n, limit)
  }

  lemma {:induction false} PagesPrefix<T>(s: seq<T>, limit: int, n: nat)
    requires limit >= 1
    ensures Pages(s, limit, n) == s[..Min(n * limit, |s|)]
  {
    if n > 0 {
      PagesPrefix(s, limit, n - 1);
      var start := PageOffset(n, limit);
      var a := Min(start, |s|);
      var b := Min(start + limit, |s|);
      assert a == Min((n - 1) * limit, |s|) && b == Min(n * limit, |s|);
      PrefixSplit(s, a, b);
    }
  }

  lemma PrefixSplit<T>(s: seq<T>, a: nat, b: nat)
    requires a <= b <= |s|
    ensures s[..a] + s[a..b] == s[..b]
  {
  }

  /** The pages 1 to `TotalPages` put together give back the filtered list. */
  lemma PagesCover<T>(s: seq<T>, limit: int)
    requires limit >= 1
    ensures Pages(s, limit, TotalPages(|s|, limit)) == s
  {
    PagesPrefix(s, limit, TotalPages(|s|, limit));
    assert s[..|s|] == s;
  }

  /** A page after the last one is empty. */
  lemma PageBeyond<T>(s: seq<T>, page: int, limit: int)
    requires limit >= 1 && page >= 1 && page > TotalPages(|s|, limit)
    ensures Page(s, page, limit) == []
  {
    var n := TotalPages(|s|, limit);
    MulMonotone(n, page - 1, limit);
    assert PageOffset(page, limit) >= |s|;
  }

  lemma MulMonotone(a: nat, b: int, limit: int)
    requires a <= b && limit >= 1
    ensures a * limit <= b * limit
  {
    assert b * limit == a * limit + (b - a) * limit;
  }

  /** The list reply: the requested page of the filtered entries and the
      counts; a search that throws gives 500. */
  function List(entries: seq<Entry>, page: int, limit: int, query: string, first: string, second: string)
    : (r: Result<ListReply, Records.HttpError>)
    requires limit >= 1
    ensures Search(entries, query, first, second).None? ==> r == Failure(Records.ServerError)
    ensures Search(entries, query, first, second).Some? ==>
      var filtered := Search(entries, query, first, second).value;
      && r.Success?
      && r.value.items == Page(filtered, page, limit)
      && r.value.total == |filtered|
      && r.value.totalPages == TotalPages(|filtered|, limit)
      && r.value.currentPage == page && r.value.limit == limit
  {
    match Search(entries, query, first, second)
    case None => Failure(Records.ServerError)
    case Some(filtered) =>
      Success(ListReply(Page(filtered, page, limit), |filtered|, TotalPages(|filtered|, limit), page, limit))
  }

  /** The decimal digits of `n`, as a property key. */
  function NatToString(n: nat): (r: string)
    ensures |r| >= 1
  {
    var d := ['0', '1', '2', '3', '4', '5', '6', '7', '8', '9'][n % 10];
    if n < 10 then [d] else NatToString(n / 10) + [d]
  }

  /** The own properties that `...body` copies: an object's properties, an
      array's items or a string's characters under their indices, and
      nothing for any other value. */
  function Spread(body: Json): (r: map<string, Json>)
    ensures body.JObj? ==> r == body.fields
    ensures body.JNull? || body.JBool? || body.JNum? ==> r == map[]
  {
    match body
    case JObj(fields) => fields
    case JArr(items) => Indexed(items, |items|)
    case JStr(s) => Indexed(seq(|s|, k requires 0 <= k < |s| => JStr([s[k]])), |s|)
    case _ => map[]
  }

  /** The first `n` items under the keys "0" to "n-1". */
  function Indexed(items: seq<Json>, n: nat): map<string, Json>
    requires n <= |items|
  {
    if n == 0 then map[] else Indexed(items, n - 1)[NatToString(n - 1) := items[n - 1]]
  }

  /** `{ id: generatedId, ...body }`: the spread properties win, so a body
      that carries an `id` replaces the generated one. */
  function NewEntry(body: Json, generatedId: string): (e: Entry)
    ensures "id" in e
    ensures "id" in Spread(body) ==> e["id"] == Spread(body)["id"]
    ensures "id" !in Spread(body) ==> e["id"] == JStr(generatedId)
    ensures forall k :: k in Spread(body) ==> k in e && e[k] == Spread(body)[k]
    ensures forall k :: k in e ==> k == "id" || k in Spread(body)
  {
    map["id" := JStr(generatedId)] + Spread(body)
  }
}
