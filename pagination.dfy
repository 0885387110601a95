/**
 * The pagination engine of REST.getPagedEndpoint(), as specification
 * functions: page 1 is fetched, its data array taken, the pagination record
 * located (root, then cursor, then category), the page count and optionally
 * the total read, and pages 2..pages requested; each later page's data
 * array is appended when its callback runs, so the result follows the
 * order in which the callbacks complete.
 *
 * The transport is a function from URL to reply. The order in which the
 * callbacks of pages 2..pages run is a parameter: a permutation of
 * 2..pages, which makes the concurrent fan-out one sequential
 * linearisation.
 */
module Pagination {
  import opened Wrappers
  import opened Json
  import opened Urls

  /** The arguments of getPagedEndpoint after the endpoint; None stands for
      a Java null. */
  datatype Locator = Locator(
    pageTag: string,
    totalTag: Option<string>,
    pagesTag: string,
    perPageTag: Option<string>,
    perPage: int,
    dataKey: string,
    cursor: Option<string>,
    category: Option<string>)

  /** The body of a reply as getDataAsync reads it: absent, parsed into a
      document, or unusable (reading its bytes threw an IOException, or
      they do not parse as JSON). */
  datatype Body = NoBody | Parsed(json: Json) | Unparsable

  /** A completed asynchronous call: onFailure (transport error), or
      onResponse with a status code and a body. */
  datatype Reply = CallFailed | Answered(code: int, body: Body)

  /** Why a paged fetch was abandoned (the exception join() rethrows). */
  datatype Failure =
    | RequestFailed          // page 1's future completed exceptionally
    | NullField(key: string) // a lookup of `key` gave null and was dereferenced
    | NotAnArray(key: string)// the data field is not an array (ClassCastException)
    | LaterPageFailed        // some page in 2..pages failed; allOf rethrows one cause

  /** getDataAsync: the status code and document of an answered call, or
      None when its future completes exceptionally (transport failure, or a
      body that cannot be read or parsed). A missing body reads as "{}". */
  function Received(r: Reply): (got: Option<(int, Json)>)
    ensures got.Some? <==> r.Answered? && !r.body.Unparsable?
    ensures got.Some? ==> got.value.0 == r.code
  {
    match r
    case CallFailed => None
    case Answered(code, NoBody) => Some((code, JObj(map[])))
    case Answered(code, Parsed(j)) => Some((code, j))
    case Answered(_, Unparsable) => None
  }

  // ---------------------------------------------------------------------
  // The sticky response code: each received reply sets the session code,
  // unless the stored code is already an error (>= 400).

  /** The code stored after one reply arrives: the reply's, unless the
      stored one is already an error, which then stays. */
  function Observe(stored: int, code: int): (r: int)
    ensures r == stored || r == code
    ensures stored >= 400 ==> r == stored
  {
    if stored < 400 then code else stored
  }

  /** The stored code after replies with the given codes arrive in order. */
  function Sticky(prior: int, codes: seq<int>): int
    decreases |codes|
  {
    if codes == [] then prior
    else Observe(Sticky(prior, codes[..|codes| - 1]), codes[|codes| - 1])
  }

  /** Without any error code (>= 400) among the prior code and the arriving
      ones, the final code is the last of them. */
  lemma {:induction false} StickyWithoutErrorIsLast(prior: int, codes: seq<int>)
    requires prior < 400 && forall i :: 0 <= i < |codes| ==> codes[i] < 400
    ensures Sticky(prior, codes) == if codes == [] then prior else codes[|codes| - 1]
    decreases |codes|
  {
    if codes != [] {
      var init := codes[..|codes| - 1];
      StickyWithoutErrorIsLast(prior, init);
      assert Sticky(prior, init) < 400;
    }
  }

  /** Otherwise the final code is the first error code: the prior code when
      it is one, else the first arriving code >= 400. */
  lemma {:induction false} StickyIsFirstError(prior: int, codes: seq<int>, i: int)
    requires 0 <= i < |codes| && codes[i] >= 400
    requires prior < 400 && forall j :: 0 <= j < i ==> codes[j] < 400
    ensures Sticky(prior, codes) == codes[i]
    decreases |codes|
  {
    var init := codes[..|codes| - 1];
    if i < |codes| - 1 {
      StickyIsFirstError(prior, init, i);
    } else {
      StickyWithoutErrorIsLast(prior, init);
      assert Sticky(prior, init) < 400;
    }
  }

  /** Once the stored code is an error, no reply changes it. */
  lemma {:induction false} StickyKeepsError(prior: int, codes: seq<int>)
    requires prior >= 400
    ensures Sticky(prior, codes) == prior
    decreases |codes|
  {
    if codes != [] {
      StickyKeepsError(prior, codes[..|codes| - 1]);
    }
  }

  /** Replies arriving in two runs give the same code as one run. */
  lemma {:induction false} StickyAppend(prior: int, a: seq<int>, b: seq<int>)
    ensures Sticky(prior, a + b) == Sticky(Sticky(prior, a), b)
    decreases |b|
  {
    if b == [] {
      assert a + b == a;
    } else {
      StickyAppend(prior, a, b[..|b| - 1]);
      assert (a + b)[..|a + b| - 1] == a + b[..|b| - 1];
    }
  }

  // ---------------------------------------------------------------------
  // Reading page 1.

  /** `j.get(key).deepCopy()` assigned to an ArrayNode: the array's items;
      a null dereference when the field is absent; a ClassCastException
      when it is not an array. */
  function DataArray(j: Json, key: string): (r: Result<seq<Json>, Failure>)
    ensures r.Success? <==> Field(j, key).Some? && Field(j, key).value.JArr?
    ensures r.Failure? ==> r.error == (if Field(j, key).None? then NullField(key) else NotAnArray(key))
  {
    match Field(j, key)
    case None => Failure(NullField(key))
    case Some(JArr(items)) => Success(items)
    case Some(_) => Failure(NotAnArray(key))
  }

  /** The pagination record: the root, then its `cursor` field when a
      cursor is given, then that node's `category` field when a category is
      given (also without a cursor). A lookup that gives null fails at its
      next dereference. */
  function ResolveRecord(root: Json, cursor: Option<string>, category: Option<string>): Result<Json, Failure>
  {
    if cursor.Some? && Field(root, cursor.value).None? then Failure(NullField(cursor.value))
    else
      var afterCursor := if cursor.Some? then Field(root, cursor.value).value else root;
      if category.Some? && Field(afterCursor, category.value).None? then Failure(NullField(category.value))
      else Success(if category.Some? then Field(afterCursor, category.value).value else afterCursor)
  }

  /** The keys given, in the order they are descended. */
  function KeysOf(cursor: Option<string>, category: Option<string>): seq<string>
  {
    (if cursor.Some? then [cursor.value] else []) + (if category.Some? then [category.value] else [])
  }

  /** Descending through a document along a path of keys. */
  function Walk(j: Json, path: seq<string>): Result<Json, Failure>
    decreases |path|
  {
    if path == [] then Success(j)
    else match Field(j, path[0])
      case None => Failure(NullField(path[0]))
      case Some(child) => Walk(child, path[1..])
  }

  /** The record is reached by walking the given keys from the root; the
      category is looked up in the root when no cursor is given. */
  lemma ResolveRecordIsWalk(root: Json, cursor: Option<string>, category: Option<string>)
    ensures ResolveRecord(root, cursor, category) == Walk(root, KeysOf(cursor, category))
  {
    var path := KeysOf(cursor, category);
    var rest := KeysOf(None, category);
    if category.Some? {
      assert rest == [category.value] && rest[1..] == [];
    } else {
      assert rest == [];
    }
    var afterCursor := root;
    if cursor.Some? {
      assert path[0] == cursor.value && path[1..] == rest;
      if Field(root, cursor.value).None? {
        return;
      }
      afterCursor := Field(root, cursor.value).value;
      assert Walk(root, path) == Walk(afterCursor, rest);
    } else {
      assert path == rest;
    }
    if category.Some? && Field(afterCursor, category.value).Some? {
      assert Walk(afterCursor, rest) == Walk(Field(afterCursor, category.value).value, []);
    }
  }

  /** What page 1 yields: its data array, the page count and, when a total
      tag is given, the total. */
  datatype FirstPage = FirstPage(data: seq<Json>, pages: int, total: Option<int>)

  /** What getPagedEndpoint reads from page 1, in its order: the data
      array, the record, the page count, the total. */
  function ReadFirstPage(root: Json, loc: Locator): Result<FirstPage, Failure>
  {
    match DataArray(root, loc.dataKey)
    case Failure(e) => Failure(e)
    case Success(data) =>
      match ResolveRecord(root, loc.cursor, loc.category)
      case Failure(e) => Failure(e)
      case Success(rec) =>
        match Field(rec, loc.pagesTag)
        case None => Failure(NullField(loc.pagesTag))
        case Some(p) =>
          if loc.totalTag.None? then Success(FirstPage(data, AsInt(p), None))
          else match Field(rec, loc.totalTag.value)
            case None => Failure(NullField(loc.totalTag.value))
            case Some(t) => Success(FirstPage(data, AsInt(p), Some(AsInt(t))))
  }

  /** Page 1 read as getPagedEndpoint runs it: the data array, then the record
      (a local variable reassigned by the cursor and category lookups),
      then the page count and the total. */
  method FirstPageOf(root: Json, loc: Locator) returns (r: Result<FirstPage, Failure>)
    ensures r == ReadFirstPage(root, loc)
  {
    var first := DataArray(root, loc.dataKey);
    if first.Failure? {
      return Failure(first.error);
    }
    var record := Some(root);
    if loc.cursor.Some? {
      record := Field(root, loc.cursor.value);
    }
    if loc.category.Some? {
      if record.None? {
        return Failure(NullField(loc.cursor.value));
      }
      record := Field(record.value, loc.category.value);
    }
    if record.None? {
      return Failure(NullField(if loc.category.Some? then loc.category.value else loc.cursor.value));
    }
    var pagesField := Field(record.value, loc.pagesTag);
    if pagesField.None? {
      return Failure(NullField(loc.pagesTag));
    }
    var total := None;
    if loc.totalTag.Some? {
      var totalField := Field(record.value, loc.totalTag.value);
      if totalField.None? {
        return Failure(NullField(loc.totalTag.value));
      }
      total := Some(AsInt(totalField.value));
    }
    r := Success(FirstPage(first.value, AsInt(pagesField.value), total));
  }

  /** Page 1 is read only when every field it needs is there: the data
      array at the root, the record along cursor/category, the page count
      in the record, and the total there when a total tag is given. Each
      missing field aborts, the data array first. */
  lemma ReadFirstPageFields(root: Json, loc: Locator)
    ensures ReadFirstPage(root, loc).Success? <==>
      && DataArray(root, loc.dataKey).Success?
      && Walk(root, KeysOf(loc.cursor, loc.category)).Success?
      && Field(Walk(root, KeysOf(loc.cursor, loc.category)).value, loc.pagesTag).Some?
      && (loc.totalTag.Some? ==> Field(Walk(root, KeysOf(loc.cursor, loc.category)).value, loc.totalTag.value).Some?)
    ensures ReadFirstPage(root, loc).Success? ==>
      var rec := Walk(root, KeysOf(loc.cursor, loc.category)).value;
      var fp := ReadFirstPage(root, loc).value;
      && fp.data == DataArray(root, loc.dataKey).value
      && fp.pages == AsInt(Field(rec, loc.pagesTag).value)
      && (fp.total.Some? <==> loc.totalTag.Some?)
      && (fp.total.Some? ==> fp.total.value == AsInt(Field(rec, loc.totalTag.value).value))
    ensures DataArray(root, loc.dataKey).Failure? ==>
      ReadFirstPage(root, loc) == Failure(DataArray(root, loc.dataKey).error)
  {
    ResolveRecordIsWalk(root, loc.cursor, loc.category);
  }

  /** Metadata nested as {data: [...], meta: {pagination: {pages: 3, total: 25}}}
      is found with cursor "meta" and category "pagination". */
  lemma NestedMetadata(items: seq<Json>)
    ensures var root := JObj(map["data" := JArr(items),
                                 "meta" := JObj(map["pagination" := JObj(map["pages" := JInt(3), "total" := JInt(25)])])]);
      var loc := Locator("page", Some("total"), "pages", None, 0, "data", Some("meta"), Some("pagination"));
      ReadFirstPage(root, loc) == Success(FirstPage(items, 3, Some(25)))
  {
  }

  // ---------------------------------------------------------------------
  // Pages 2..pages.

  /** The pages the loop `for page = 2..pages` requests, in issue order. */
  function PageRange(pages: int): (r: seq<int>)
    ensures |r| == if pages >= 2 then pages - 1 else 0
    ensures forall i :: 0 <= i < |r| ==> r[i] == i + 2
    decreases pages
  {
    if pages < 2 then [] else PageRange(pages - 1) + [pages]
  }

  /** The requests issued by page 1 and by the loop `for page = 2..pages`,
      in issue order: every page 1..pages once, ascending. */
  method IssueRequests(pages: int) returns (requested: seq<int>)
    ensures requested == [1] + PageRange(pages)
    ensures |requested| == Max1(pages)
    ensures forall i :: 0 <= i < |requested| ==> requested[i] == i + 1
  {
    requested := [1];
    var page := 2;
    while page <= pages
      invariant 2 <= page <= Max1(pages) + 1
      invariant requested == [1] + PageRange(page - 1)
    {
      requested := requested + [page];
      page := page + 1;
    }
  }

  function Max1(n: int): nat
  {
    if n > 1 then n else 1
  }

  /** An order in which the callbacks of pages 2..pages may run: each of
      those pages exactly once. */
  predicate IsCompletionOrder(order: seq<int>, pages: int)
  {
    multiset(order) == multiset(PageRange(pages))
  }

  lemma {:induction false} PageRangeCounts(pages: int, p: int)
    ensures multiset(PageRange(pages))[p] == if 2 <= p <= pages then 1 else 0
    decreases pages
  {
    if pages >= 2 {
      var init := PageRange(pages - 1);
      PageRangeCounts(pages - 1, p);
      assert multiset(PageRange(pages)) == multiset(init) + multiset{pages};
      assert multiset{pages}[p] == if p == pages then 1 else 0;
    } else {
      assert |PageRange(pages)| == 0;
    }
  }

  /** A completion order has one entry per page 2..pages and visits each of
      them exactly once, and nothing else. */
  lemma CompletionOrderVisitsEachPageOnce(order: seq<int>, pages: int)
    requires IsCompletionOrder(order, pages)
    ensures |order| == if pages >= 2 then pages - 1 else 0
    ensures forall p :: multiset(order)[p] == if 2 <= p <= pages then 1 else 0
  {
    assert |order| == |multiset(order)| == |multiset(PageRange(pages))| == |PageRange(pages)|;
    forall p ensures multiset(order)[p] == if 2 <= p <= pages then 1 else 0 {
      PageRangeCounts(pages, p);
    }
  }

  /** The accumulated data of the pages in `order`, each page contributing
      chunk(page), appended in that order. */
  function Gather(order: seq<int>, chunk: int -> seq<Json>): seq<Json>
    decreases |order|
  {
    if order == [] then [] else Gather(order[..|order| - 1], chunk) + chunk(order[|order| - 1])
  }

  lemma {:induction false} GatherAppend(a: seq<int>, b: seq<int>, chunk: int -> seq<Json>)
    ensures Gather(a + b, chunk) == Gather(a, chunk) + Gather(b, chunk)
    decreases |b|
  {
    if b == [] {
      assert a + b == a;
    } else {
      var b' := b[..|b| - 1];
      GatherAppend(a, b', chunk);
      assert (a + b)[..|a + b| - 1] == a + b';
      assert (a + b)[|a + b| - 1] == b[|b| - 1];
    }
  }

  /** The sum of the chunk lengths over `order`, counted from the front. */
  function TotalLength(order: seq<int>, chunk: int -> seq<Json>): nat
    decreases |order|
  {
    if order == [] then 0 else |chunk(order[0])| + TotalLength(order[1..], chunk)
  }

  /** The accumulator's length is the sum of the page array lengths. */
  lemma {:induction false} GatherLength(order: seq<int>, chunk: int -> seq<Json>)
    ensures |Gather(order, chunk)| == TotalLength(order, chunk)
    decreases |order|
  {
    if order != [] {
      GatherLength(order[1..], chunk);
      GatherAppend([order[0]], order[1..], chunk);
      assert [order[0]] + order[1..] == order;
      assert Gather([order[0]], chunk) == Gather([], chunk) + chunk(order[0]);
    }
  }

  /** Each page's array appears once, whole, at the position given by the
      pages that completed before it. */
  lemma GatherBlock(order: seq<int>, chunk: int -> seq<Json>, i: int)
    requires 0 <= i < |order|
    ensures var off := |Gather(order[..i], chunk)|;
      && off + |chunk(order[i])| <= |Gather(order, chunk)|
      && Gather(order, chunk)[off .. off + |chunk(order[i])|] == chunk(order[i])
  {
    assert order == order[..i + 1] + order[i + 1..];
    GatherAppend(order[..i + 1], order[i + 1..], chunk);
    assert order[..i + 1][..i] == order[..i];
  }

  /** Removing one occurrence of x from both sides of a multiset equality. */
  lemma MultisetCancel(rest: seq<int>, x: int, a: seq<int>, b: seq<int>)
    requires multiset(rest + [x]) == multiset(a + [x] + b)
    ensures multiset(rest) == multiset(a + b)
  {
    assert multiset(rest + [x]) == multiset(rest) + multiset{x};
    assert multiset(a + [x] + b) == multiset(a) + multiset{x} + multiset(b);
    assert multiset(a + b) == multiset(a) + multiset(b);
    forall y ensures multiset(rest)[y] == multiset(a + b)[y] {
      assert multiset(rest + [x])[y] == multiset(a + [x] + b)[y];
    }
  }

  /** The records of a + [x] + b are those of a, of page x and of b. */
  lemma GatherSplit(a: seq<int>, x: int, b: seq<int>, chunk: int -> seq<Json>)
    ensures Gather(a + [x] + b, chunk) == Gather(a, chunk) + chunk(x) + Gather(b, chunk)
  {
    GatherAppend(a + [x], b, chunk);
    GatherAppend(a, [x], chunk);
    assert Gather([x], chunk) == chunk(x) by {
      assert [x][..0] == [];
    }
  }

  /** Two completion orders of the same pages gather the same records, each
      as often: only their order can differ. */
  lemma {:induction false} GatherPermutation(o1: seq<int>, o2: seq<int>, chunk: int -> seq<Json>)
    requires multiset(o1) == multiset(o2)
    ensures multiset(Gather(o1, chunk)) == multiset(Gather(o2, chunk))
    decreases |o1|
  {
    if o1 == [] {
      assert o2 == [] by { assert |o2| == |multiset(o2)| == 0; }
    } else {
      var x := o1[|o1| - 1];
      var rest := o1[..|o1| - 1];
      assert o1 == rest + [x];
      assert x in multiset(o2);
      var k :| 0 <= k < |o2| && o2[k] == x;
      var a, b := o2[..k], o2[k + 1..];
      assert o2 == a + [x] + b;
      MultisetCancel(rest, x, a, b);
      GatherPermutation(rest, a + b, chunk);
      GatherAppend(a, b, chunk);
      GatherSplit(a, x, b, chunk);
      calc {
        multiset(Gather(o1, chunk));
        multiset(Gather(rest, chunk) + chunk(x));
        multiset(Gather(rest, chunk)) + multiset(chunk(x));
        multiset(Gather(a, chunk) + Gather(b, chunk)) + multiset(chunk(x));
        multiset(Gather(a, chunk) + chunk(x) + Gather(b, chunk));
        multiset(Gather(o2, chunk));
      }
    }
  }

  /** The callbacks append in completion order, not page order: with pages
      2 and 3 completing in reverse, their records come out reversed. */
  lemma CompletionOrderShowsInResult()
    ensures Gather([3, 2], p => [JInt(p)]) == [JInt(3), JInt(2)]
    ensures Gather([2, 3], p => [JInt(p)]) == [JInt(2), JInt(3)]
  {
  }

  // ---------------------------------------------------------------------
  // The whole paged fetch.

  /** One paged fetch: the session's origin, the endpoint, the locator and
      the transport. */
  datatype Call = Call(origin: Origin, endpoint: string, loc: Locator, fetch: Url -> Reply)

  /** The URL getByPage builds for a page. */
  function PageUrl(c: Call, page: int): Url
  {
    PagedEndpoint(c.origin, c.endpoint, c.loc.pageTag, page, c.loc.perPageTag, c.loc.perPage)
  }

  /** What getDataAsync yields for a page. */
  function Fetch(c: Call, page: int): Option<(int, Json)>
  {
    Received(c.fetch(PageUrl(c, page)))
  }

  /** The data array a later page's callback appends, or None when the
      page's future fails or its data field is missing or not an array. */
  function PageData(c: Call, page: int): Option<seq<Json>>
  {
    match Fetch(c, page)
    case None => None
    case Some((_, j)) => if DataArray(j, c.loc.dataKey).Success? then Some(DataArray(j, c.loc.dataKey).value) else None
  }

  /** What each page adds to the accumulator (nothing when it fails). */
  function Chunks(c: Call): int -> seq<Json>
  {
    p => if PageData(c, p).Some? then PageData(c, p).value else []
  }

  predicate AllDelivered(c: Call, order: seq<int>)
  {
    forall i :: 0 <= i < |order| ==> PageData(c, order[i]).Some?
  }

  /** The status codes of the received replies, in completion order. */
  function CodesAlong(c: Call, order: seq<int>): seq<int>
    decreases |order|
  {
    if order == [] then [] else CodesAlong(c, order[..|order| - 1]) + Arrived(c, order[|order| - 1])
  }

  /** The status code a page's reply carries, when a reply arrives. */
  function Arrived(c: Call, page: int): seq<int>
  {
    if Fetch(c, page).Some? then [Fetch(c, page).value.0] else []
  }

  // One more callback: how the accumulated data, the delivered flag and the
  // observed codes grow when page order[i] completes.

  lemma GatherStep(c: Call, order: seq<int>, i: nat, acc: seq<Json>, data: seq<Json>)
    requires i < |order|
    requires data == acc + Gather(order[..i], Chunks(c))
    ensures var chunk := PageData(c, order[i]);
      (if chunk.Some? then data + chunk.value else data) == acc + Gather(order[..i + 1], Chunks(c))
  {
    var prefix := order[..i + 1];
    assert prefix[..|prefix| - 1] == order[..i] && prefix[|prefix| - 1] == order[i];
    assert Gather(prefix, Chunks(c)) == Gather(order[..i], Chunks(c)) + Chunks(c)(order[i]);
    if PageData(c, order[i]).Some? {
      assert Chunks(c)(order[i]) == PageData(c, order[i]).value;
    } else {
      assert Chunks(c)(order[i]) == [];
      assert data + [] == data;
    }
  }

  lemma DeliveredStep(c: Call, order: seq<int>, i: nat, failed: bool)
    requires i < |order|
    requires failed == !AllDelivered(c, order[..i])
    ensures failed || PageData(c, order[i]).None? <==> !AllDelivered(c, order[..i + 1])
  {
    var done, next := order[..i], order[..i + 1];
    assert next == done + [order[i]];
  }

  lemma CodesStep(c: Call, order: seq<int>, i: nat, start: int, code: int)
    requires i < |order|
    requires code == Sticky(start, CodesAlong(c, order[..i]))
    ensures Sticky(code, Arrived(c, order[i])) == Sticky(start, CodesAlong(c, order[..i + 1]))
  {
    assert order[..i + 1][..i] == order[..i];
    StickyAppend(start, CodesAlong(c, order[..i]), Arrived(c, order[i]));
  }

  /** The state after the callbacks of order[..i] have run, starting from
      response code `start` and accumulated data `acc`. */
  predicate CallbacksRun(c: Call, order: seq<int>, i: nat, start: int, acc: seq<Json>,
                         data: seq<Json>, failed: bool, code: int)
    requires i <= |order|
  {
    && failed == !AllDelivered(c, order[..i])
    && data == acc + Gather(order[..i], Chunks(c))
    && code == Sticky(start, CodesAlong(c, order[..i]))
  }

  /** Running the callback of order[i] moves the state from i to i + 1. */
  lemma CallbackRuns(c: Call, order: seq<int>, i: nat, start: int, acc: seq<Json>,
                     data: seq<Json>, failed: bool, code: int)
    requires i < |order|
    requires CallbacksRun(c, order, i, start, acc, data, failed, code)
    ensures var chunk := PageData(c, order[i]);
      CallbacksRun(c, order, i + 1, start, acc,
                   if chunk.Some? then data + chunk.value else data,
                   failed || chunk.None?,
                   Sticky(code, Arrived(c, order[i])))
  {
    GatherStep(c, order, i, acc, data);
    DeliveredStep(c, order, i, failed);
    CodesStep(c, order, i, start, code);
  }

  /** The effect of one paged fetch: its result, the pages requested in
      issue order, and the session's response code and page total after it. */
  datatype PagedRun = PagedRun(result: Result<seq<Json>, Failure>, requested: seq<int>, code: int, total: int)

  /** getPagedEndpoint(...).join(), starting from response code code0 and
      page total total0, with the callbacks of pages 2..pages running in
      the order schedule(pages). */
  function Paged(c: Call, schedule: int -> seq<int>, code0: int, total0: int): PagedRun
  {
    match Fetch(c, 1)
    case None => PagedRun(Failure(RequestFailed), [1], code0, total0)
    case Some((code1, root)) =>
      var code := Observe(code0, code1);
      match ReadFirstPage(root, c.loc)
      case Failure(e) => PagedRun(Failure(e), [1], code, total0)
      case Success(fp) =>
        var total := if fp.total.Some? then fp.total.value else total0;
        if fp.pages <= 1 then PagedRun(Success(fp.data), [1], code, total)
        else
          var order := schedule(fp.pages);
          PagedRun(
            if AllDelivered(c, order) then Success(fp.data + Gather(order, Chunks(c))) else Failure(LaterPageFailed),
            [1] + PageRange(fp.pages),
            Sticky(code, CodesAlong(c, order)),
            total)
  }

  /** With a page count of at most 1 only page 1 is requested and the
      result is exactly page 1's data array. */
  lemma SinglePageResult(c: Call, schedule: int -> seq<int>, code0: int, total0: int)
    requires Fetch(c, 1).Some? && ReadFirstPage(Fetch(c, 1).value.1, c.loc).Success?
    requires ReadFirstPage(Fetch(c, 1).value.1, c.loc).value.pages <= 1
    ensures Paged(c, schedule, code0, total0).requested == [1]
    ensures Paged(c, schedule, code0, total0).result == Success(ReadFirstPage(Fetch(c, 1).value.1, c.loc).value.data)
    ensures Paged(c, schedule, code0, total0).code == Observe(code0, Fetch(c, 1).value.0)
  {
  }

  /** When page 1's own request fails (transport failure, or a body that
      cannot be read or parsed), join() rethrows: no later page is
      requested and neither the code nor the page total changes. */
  lemma PageOneRequestFailure(c: Call, schedule: int -> seq<int>, code0: int, total0: int)
    requires Fetch(c, 1).None?
    ensures var run := Paged(c, schedule, code0, total0);
      && run.result == Failure(RequestFailed)
      && run.requested == [1]
      && run.code == code0
      && run.total == total0
  {
  }

  /** Once page 1 is read, the page total is replaced only when a total tag
      is given, and then by the total read from the pagination record;
      without a total tag it keeps its old value. */
  lemma PagedTotalFollowsTotalTag(c: Call, schedule: int -> seq<int>, code0: int, total0: int)
    requires Fetch(c, 1).Some? && ReadFirstPage(Fetch(c, 1).value.1, c.loc).Success?
    ensures var root := Fetch(c, 1).value.1;
      var run := Paged(c, schedule, code0, total0);
      && Walk(root, KeysOf(c.loc.cursor, c.loc.category)).Success?
      && (c.loc.totalTag.None? ==> run.total == total0)
      && (c.loc.totalTag.Some? ==>
            var rec := Walk(root, KeysOf(c.loc.cursor, c.loc.category)).value;
            Field(rec, c.loc.totalTag.value).Some? && run.total == AsInt(Field(rec, c.loc.totalTag.value).value))
  {
    ReadFirstPageFields(Fetch(c, 1).value.1, c.loc);
  }

  /** A failure while reading page 1 (a missing data array, record, page
      count or total) aborts before any further page is requested; the
      page total is untouched and only page 1's code was recorded. */
  lemma FirstPageFailureStopsFanOut(c: Call, schedule: int -> seq<int>, code0: int, total0: int)
    requires Fetch(c, 1).Some? && ReadFirstPage(Fetch(c, 1).value.1, c.loc).Failure?
    ensures var run := Paged(c, schedule, code0, total0);
      && run.result == Failure(ReadFirstPage(Fetch(c, 1).value.1, c.loc).error)
      && run.requested == [1]
      && run.total == total0
      && run.code == Sticky(code0, [Fetch(c, 1).value.0])
  {
  }

  /** With several pages: every page 1..pages is requested once, in page
      order; the result, when no page fails, holds page 1's data followed by
      the same records as the page-ordered concatenation of pages
      2..pages, each as often, and as many as the page arrays hold
      together; it equals the page-ordered concatenation exactly when the
      callbacks complete in page order. The final code is the sticky fold
      over page 1's code and the later codes in completion order. */
  lemma ManyPagesResult(c: Call, schedule: int -> seq<int>, code0: int, total0: int)
    requires forall n :: IsCompletionOrder(schedule(n), n)
    requires Fetch(c, 1).Some? && ReadFirstPage(Fetch(c, 1).value.1, c.loc).Success?
    requires ReadFirstPage(Fetch(c, 1).value.1, c.loc).value.pages > 1
    ensures var fp := ReadFirstPage(Fetch(c, 1).value.1, c.loc).value;
      var run := Paged(c, schedule, code0, total0);
      var inPageOrder := fp.data + Gather(PageRange(fp.pages), Chunks(c));
      && run.requested == [1] + PageRange(fp.pages)
      && (run.result.Success? <==> forall p :: 2 <= p <= fp.pages ==> PageData(c, p).Some?)
      && (run.result.Success? ==> multiset(run.result.value) == multiset(inPageOrder))
      && (run.result.Success? ==> |run.result.value| == |fp.data| + TotalLength(PageRange(fp.pages), Chunks(c)))
      && (schedule(fp.pages) == PageRange(fp.pages) && run.result.Success? ==> run.result.value == inPageOrder)
      && run.code == Sticky(code0, [Fetch(c, 1).value.0] + CodesAlong(c, schedule(fp.pages)))
  {
    var fp := ReadFirstPage(Fetch(c, 1).value.1, c.loc).value;
    var order := schedule(fp.pages);
    var range := PageRange(fp.pages);
    assert IsCompletionOrder(order, fp.pages);
    CompletionOrderVisitsEachPageOnce(order, fp.pages);
    // The pages the callbacks visit are exactly 2..pages.
    assert AllDelivered(c, order) <==> forall p :: 2 <= p <= fp.pages ==> PageData(c, p).Some? by {
      if AllDelivered(c, order) {
        forall p | 2 <= p <= fp.pages ensures PageData(c, p).Some? {
          assert multiset(order)[p] == 1;
          assert p in order;
        }
      }
      if forall p :: 2 <= p <= fp.pages ==> PageData(c, p).Some? {
        forall i | 0 <= i < |order| ensures PageData(c, order[i]).Some? {
          assert multiset(order)[order[i]] > 0;
        }
      }
    }
    GatherPermutation(order, range, Chunks(c));
    GatherLength(range, Chunks(c));
    assert |Gather(order, Chunks(c))| == |multiset(Gather(order, Chunks(c)))|
        == |multiset(Gather(range, Chunks(c)))| == |Gather(range, Chunks(c))|;
    StickyAppend(code0, [Fetch(c, 1).value.0], CodesAlong(c, order));
    assert [Fetch(c, 1).value.0][..0] == [];
  }

  // ---------------------------------------------------------------------
  // The overloads and their defaults.

  /** The six getPaged overloads, by the arguments each takes after the
      endpoint. */
  datatype PagedArgs =
    | Paged4(pageTag: string, pagesTag: string, perPageTag: Option<string>)
    | Paged5(pageTag: string, totalTag: Option<string>, pagesTag: string, perPageTag: Option<string>)
    | Paged6(pageTag: string, totalTag: Option<string>, pagesTag: string, perPageTag: Option<string>, perPage: int)
    | Paged7(pageTag: string, totalTag: Option<string>, pagesTag: string, perPageTag: Option<string>, perPage: int,
             dataKey: string)
    | Paged8(pageTag: string, totalTag: Option<string>, pagesTag: string, perPageTag: Option<string>, perPage: int,
             dataKey: string, cursor: Option<string>)
    | Paged9(pageTag: string, totalTag: Option<string>, pagesTag: string, perPageTag: Option<string>, perPage: int,
             dataKey: string, cursor: Option<string>, category: Option<string>)

  /** The locator each overload passes to getPagedEndpoint. */
  function LocatorOf(a: PagedArgs): Locator
  {
    match a
    case Paged4(pt, ps, ppt) => Locator(pt, Some("total"), ps, ppt, 10, "data", None, None)
    case Paged5(pt, tt, ps, ppt) => Locator(pt, tt, ps, ppt, 10, "data", None, None)
    case Paged6(pt, tt, ps, ppt, pp) => Locator(pt, tt, ps, ppt, pp, "data", None, None)
    case Paged7(pt, tt, ps, ppt, pp, dk) => Locator(pt, tt, ps, ppt, pp, dk, None, None)
    case Paged8(pt, tt, ps, ppt, pp, dk, cu) => Locator(pt, tt, ps, ppt, pp, dk, cu, None)
    case Paged9(pt, tt, ps, ppt, pp, dk, cu, ca) => Locator(pt, tt, ps, ppt, pp, dk, cu, ca)
  }

  /** Each shorter overload behaves as the next longer one with its missing
      argument at the default: total tag "total", 10 per page, data key
      "data", no cursor, no category. */
  lemma OverloadDefaults(a: PagedArgs)
    ensures a.Paged4? ==> LocatorOf(a) == LocatorOf(Paged5(a.pageTag, Some("total"), a.pagesTag, a.perPageTag))
    ensures a.Paged5? ==> LocatorOf(a) == LocatorOf(Paged6(a.pageTag, a.totalTag, a.pagesTag, a.perPageTag, 10))
    ensures a.Paged6? ==>
      LocatorOf(a) == LocatorOf(Paged7(a.pageTag, a.totalTag, a.pagesTag, a.perPageTag, a.perPage, "data"))
    ensures a.Paged7? ==>
      LocatorOf(a) == LocatorOf(Paged8(a.pageTag, a.totalTag, a.pagesTag, a.perPageTag, a.perPage, a.dataKey, None))
    ensures a.Paged8? ==>
      LocatorOf(a) ==
      LocatorOf(Paged9(a.pageTag, a.totalTag, a.pagesTag, a.perPageTag, a.perPage, a.dataKey, a.cursor, None))
    ensures a.Paged9? ==>
      LocatorOf(a) ==
      Locator(a.pageTag, a.totalTag, a.pagesTag, a.perPageTag, a.perPage, a.dataKey, a.cursor, a.category)
  {
  }

  /** The four getPage overloads, by the arguments each takes after the
      endpoint. */
  datatype PageArgs =
    | Page2(page: int)
    | Page3(pageTag: string, page: int)
    | Page4(pageTag: string, page: int, perPageTag: Option<string>)
    | Page5(pageTag: string, page: int, perPageTag: Option<string>, perPage: int)

  /** The getByPage arguments each getPage overload passes: page tag "page",
      per-page tag "per_page" and 10 per page unless given. */
  function PageRequest(a: PageArgs): (r: (string, int, Option<string>, int))
  {
    match a
    case Page2(p) => ("page", p, Some("per_page"), 10)
    case Page3(pt, p) => (pt, p, Some("per_page"), 10)
    case Page4(pt, p, ppt) => (pt, p, ppt, 10)
    case Page5(pt, p, ppt, pp) => (pt, p, ppt, pp)
  }

  /** Each shorter getPage overload behaves as the next longer one with
      its missing argument at the default. */
  lemma PageOverloadDefaults(a: PageArgs)
    ensures a.Page2? ==> PageRequest(a) == PageRequest(Page3("page", a.page))
    ensures a.Page3? ==> PageRequest(a) == PageRequest(Page4(a.pageTag, a.page, Some("per_page")))
    ensures a.Page4? ==> PageRequest(a) == PageRequest(Page5(a.pageTag, a.page, a.perPageTag, 10))
    ensures a.Page5? ==> PageRequest(a) == (a.pageTag, a.page, a.perPageTag, a.perPage)
  {
  }
}
