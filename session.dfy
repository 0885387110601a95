/**
 * The client session (class REST): the fields its methods update in place
 * and the operations that update them. The transport is a parameter of each
 * call: a function from URL to reply.
 */
module Client {
  import opened Wrappers
  import opened Json
  import opened StatusCodes
  import opened Urls
  import opened Pagination

  /** What a synchronous call (execHttpCall) gets back: an IOException
      before any response; a response whose status code was read but whose
      body could not be (an IOException from reading it); or a status code
      and a body, which may be missing. */
  datatype SyncReply =
    | IoFailure
    | BodyFailed(code: int)
    | Response(code: int, body: Option<seq<bv8>>)

  /** The body execHttpCall stores: a missing body is stored as no bytes. */
  function StoredBody(body: Option<seq<bv8>>): seq<bv8>
  {
    if body.Some? then body.value else []
  }

  /** Whether waitForCode stops at this reply: the call threw, or it
      returned the awaited code. */
  predicate Decisive(reply: SyncReply, code: int)
  {
    !reply.Response? || reply.code == code
  }

  /** A reply carrying the awaited code. */
  predicate Awaited(reply: SyncReply, code: int)
  {
    reply.Response? && reply.code == code
  }

  /** The stored code and body after execHttpCall handles `reply`, from
      the code and body stored before it: the code is set as soon as the
      response arrives, the body only once it has been read. */
  function AfterExec(reply: SyncReply, code: int, body: Option<seq<bv8>>): (int, Option<seq<bv8>>)
  {
    match reply
    case IoFailure => (code, body)
    case BodyFailed(c) => (c, body)
    case Response(c, b) => (c, Some(StoredBody(b)))
  }

  /** The stored code and body after the GETs 1..n of waitForCode, each
      handled by execHttpCall in turn. */
  function AfterGets(send: (Url, nat) -> SyncReply, url: Url, n: nat,
                     code0: int, body0: Option<seq<bv8>>): (int, Option<seq<bv8>>)
    decreases n
  {
    if n == 0 then (code0, body0)
    else
      var before := AfterGets(send, url, n - 1, code0, body0);
      AfterExec(send(url, n), before.0, before.1)
  }

  /** When waitForCode stops after n GETs, every earlier GET completed with
      another code, so the stored code is that of the last GET that got a
      response (the n-th, unless it threw before responding), and the
      stored body is that of the last GET whose body was read. */
  lemma StoredAfterStop(send: (Url, nat) -> SyncReply, url: Url, n: nat, code: int,
                         code0: int, body0: Option<seq<bv8>>)
    requires n >= 1
    requires forall k: nat :: 1 <= k < n ==> !Decisive(send(url, k), code)
    ensures var last := send(url, n);
      var (c, b) := AfterGets(send, url, n, code0, body0);
      && (n >= 2 ==> send(url, n - 1).Response?)
      && c == (if !last.IoFailure? then last.code else if n >= 2 then send(url, n - 1).code else code0)
      && b == (if last.Response? then Some(StoredBody(last.body))
               else if n >= 2 then Some(StoredBody(send(url, n - 1).body)) else body0)
  {
  }

  function Max0(n: int): nat
  {
    if n > 0 then n else 0
  }

  class Session {
    const hostname: string
    const useSsl: bool
    const port: int

    var responseCode: int
    var responseBody: Option<seq<bv8>>
    var responseList: Option<seq<Json>>
    var responseData: Option<Json>
    var pagedTotal: int

    var successStart: int
    var successEnd: int
    var permissionDeniedCode: int
    var notFoundCode: int
    var rateLimitCode: int
    var serverErrorCode: int

    /** The state every constructor leaves: code 200, nothing fetched yet,
        the default classification settings. */
    ghost predicate Initial()
      reads this
    {
      && responseCode == 200
      && responseBody == None
      && responseList == None
      && responseData == None
      && pagedTotal == 0
      && Config() == Defaults
    }

    /** new REST(hostname, username, password, useSsl) and
        new REST(hostname, token, useSsl): the port follows the scheme. */
    constructor (hostname: string, useSsl: bool)
      ensures this.hostname == hostname && this.useSsl == useSsl
      ensures port == if useSsl then 443 else 80
      ensures Initial()
    {
      this.hostname := hostname;
      this.useSsl := useSsl;
      this.port := if useSsl then 443 else 80;
      responseCode := 200;
      responseBody := None;
      responseList := None;
      responseData := None;
      pagedTotal := 0;
      successStart, successEnd := 200, 299;
      permissionDeniedCode, notFoundCode, rateLimitCode, serverErrorCode := 403, 404, 429, 500;
    }

    /** new REST(hostname, username, password, useSsl, port). */
    constructor WithPort(hostname: string, useSsl: bool, port: int)
      ensures this.hostname == hostname && this.useSsl == useSsl && this.port == port
      ensures Initial()
    {
      this.hostname := hostname;
      this.useSsl := useSsl;
      this.port := port;
      responseCode := 200;
      responseBody := None;
      responseList := None;
      responseData := None;
      pagedTotal := 0;
      successStart, successEnd := 200, 299;
      permissionDeniedCode, notFoundCode, rateLimitCode, serverErrorCode := 403, 404, 429, 500;
    }

    /** The classification settings as one value. */
    function Config(): CodeConfig
      reads this
    {
      CodeConfig(successStart, successEnd, permissionDeniedCode, notFoundCode, rateLimitCode, serverErrorCode)
    }

    /** Scheme, host and port of every URL the session builds. */
    function Address(): Origin
    {
      Origin(if useSsl then "https" else "http", hostname, port)
    }

    // -------------------------------------------------------------------
    // Setters: each changes only its own settings.

    method SetSuccessRange(start: int, end: int)
      modifies this`successStart, this`successEnd
      ensures Config() == old(Config()).(successStart := start, successEnd := end)
    {
      successStart := start;
      successEnd := end;
    }

    method SetPermissionDeniedCode(code: int)
      modifies this`permissionDeniedCode
      ensures Config() == old(Config()).(permissionDenied := code)
    {
      permissionDeniedCode := code;
    }

    method SetNotFoundCode(code: int)
      modifies this`notFoundCode
      ensures Config() == old(Config()).(notFound := code)
    {
      notFoundCode := code;
    }

    method SetRateLimitCode(code: int)
      modifies this`rateLimitCode
      ensures Config() == old(Config()).(rateLimit := code)
    {
      rateLimitCode := code;
    }

    method SetServerErrorCode(code: int)
      modifies this`serverErrorCode
      ensures Config() == old(Config()).(serverError := code)
    {
      serverErrorCode := code;
    }

    // -------------------------------------------------------------------
    // validate()

    /** validate(): classifies the stored code and changes nothing. Unlike
        the code as written (StatusCodes.ValidateAsWritten) it reports the
        typed outcome also when no body has been stored. */
    method Validate() returns (o: Outcome)
      ensures o == Classify(Config(), responseCode)
      ensures o == Passed <==> successStart <= responseCode < successEnd
    {
      o := Classify(Config(), responseCode);
    }

    // -------------------------------------------------------------------
    // Synchronous calls.

    /** execHttpCall: stores the status code and then the body; throws
        (ok false) when the call fails, keeping both, or when the body
        cannot be read, after the code has been stored. */
    method Exec(reply: SyncReply) returns (ok: bool)
      modifies this`responseCode, this`responseBody
      ensures ok == reply.Response?
      ensures reply.Response? ==> responseCode == reply.code && responseBody == Some(StoredBody(reply.body))
      ensures reply.BodyFailed? ==> responseCode == reply.code && responseBody == old(responseBody)
      ensures reply.IoFailure? ==> responseCode == old(responseCode) && responseBody == old(responseBody)
    {
      if reply.IoFailure? {
        return false;
      }
      responseCode := reply.code;
      if reply.BodyFailed? {
        return false;
      }
      responseBody := Some(StoredBody(reply.body));
      return true;
    }

    /** get(endpoint): one synchronous GET of buildUrl(endpoint). */
    method Get(endpoint: string, send: Url -> SyncReply) returns (ok: bool)
      modifies this`responseCode, this`responseBody
      ensures var reply := send(BuildUrl(Address(), endpoint));
        && ok == reply.Response?
        && (reply.Response? ==> responseCode == reply.code && responseBody == Some(StoredBody(reply.body)))
        && (reply.BodyFailed? ==> responseCode == reply.code && responseBody == old(responseBody))
        && (reply.IoFailure? ==> responseCode == old(responseCode) && responseBody == old(responseBody))
    {
      ok := Exec(send(BuildUrl(Address(), endpoint)));
    }

    /** waitForCode(endpoint, code, retryCount), without the pauses: GET the
        endpoint up to retryCount times (send(url, k) is the reply to the
        k-th GET) and stop at the first reply with the awaited code (true),
        at the first call that throws (None), or after the last attempt
        (false). `attempts` counts the GETs issued; the stored code and body
        are what execHttpCall leaves after each of them in turn. */
    method WaitForCode(endpoint: string, code: int, retryCount: int, send: (Url, nat) -> SyncReply)
      returns (r: Option<bool>, ghost attempts: nat)
      modifies this`responseCode, this`responseBody
      ensures attempts <= Max0(retryCount)
      ensures forall k: nat :: 1 <= k < attempts ==> !Decisive(send(BuildUrl(Address(), endpoint), k), code)
      ensures r == Some(true) <==> attempts >= 1 && Awaited(send(BuildUrl(Address(), endpoint), attempts), code)
      ensures r == None <==> attempts >= 1 && !send(BuildUrl(Address(), endpoint), attempts).Response?
      ensures r == Some(false) ==>
        attempts == Max0(retryCount) && (attempts == 0 || !Decisive(send(BuildUrl(Address(), endpoint), attempts), code))
      ensures (responseCode, responseBody) ==
        AfterGets(send, BuildUrl(Address(), endpoint), attempts, old(responseCode), old(responseBody))
    {
      var url := BuildUrl(Address(), endpoint);
      attempts := 0;
      var retryNumber := 1;
      while retryNumber <= retryCount
        invariant 1 <= retryNumber <= Max0(retryCount) + 1
        invariant attempts == retryNumber - 1
        invariant forall k: nat :: 1 <= k < retryNumber ==> !Decisive(send(url, k), code)
        invariant (responseCode, responseBody) == AfterGets(send, url, attempts, old(responseCode), old(responseBody))
      {
        attempts := retryNumber;
        var ok := Exec(send(url, retryNumber));
        if !ok {
          return None, attempts;
        }
        if responseCode == code {
          return Some(true), attempts;
        }
        retryNumber := retryNumber + 1;
      }
      return Some(false), attempts;
    }

    // -------------------------------------------------------------------
    // Asynchronous page fetches.

    /** The update in getDataAsync: a received page sets the stored code
        unless it already holds an error code. */
    method ObserveCode(code: int)
      modifies this`responseCode
      ensures responseCode == Observe(old(responseCode), code)
      ensures old(responseCode) >= 400 ==> responseCode == old(responseCode)
    {
      responseCode := if responseCode < 400 then code else responseCode;
    }

    /** getPage(endpoint, ...): one page fetched and joined; the document is
        stored as responseData. A failed future rethrows and stores nothing. */
    method GetPage(endpoint: string, args: PageArgs, fetch: Url -> Reply) returns (r: Result<Json, Failure>)
      modifies this`responseCode, this`responseData
      ensures var (pageTag, page, perPageTag, perPage) := PageRequest(args);
        var reply := Received(fetch(PagedEndpoint(Address(), endpoint, pageTag, page, perPageTag, perPage)));
        && (reply.None? ==>
              r == Failure(RequestFailed) && responseCode == old(responseCode) && responseData == old(responseData))
        && (reply.Some? ==>
              && r == Success(reply.value.1)
              && responseCode == Observe(old(responseCode), reply.value.0)
              && responseData == Some(reply.value.1))
    {
      var (pageTag, page, perPageTag, perPage) := PageRequest(args);
      var reply := Received(fetch(PagedEndpoint(Address(), endpoint, pageTag, page, perPageTag, perPage)));
      if reply.None? {
        return Failure(RequestFailed);
      }
      ObserveCode(reply.value.0);
      responseData := Some(reply.value.1);
      r := Success(reply.value.1);
    }

    /** The thenAccept callback of one later page: a received page records
        its code, and hands back its data array for the accumulator; None
        when the page's future fails or its data field is missing or not an
        array. */
    method Callback(call: Call, page: int) returns (chunk: Option<seq<Json>>)
      modifies this`responseCode
      ensures chunk == PageData(call, page)
      ensures responseCode == Sticky(old(responseCode), Arrived(call, page))
    {
      var reply := Received(call.fetch(PageUrl(call, page)));
      if reply.None? {
        return None;
      }
      ObserveCode(reply.value.0);
      assert Sticky(old(responseCode), [reply.value.0]) == responseCode by {
        assert [reply.value.0][..0] == [];
      }
      var items := DataArray(reply.value.1, call.loc.dataKey);
      chunk := if items.Success? then Some(items.value) else None;
    }

    /** The callbacks of pages 2..pages, run in `order`: each delivered
        page's data is appended to the accumulator (addAll); a page that
        fails appends nothing and makes the joined future fail. */
    method RunCallbacks(call: Call, order: seq<int>, accumulated: seq<Json>) returns (r: Result<seq<Json>, Failure>)
      modifies this`responseCode
      ensures r == if AllDelivered(call, order) then Success(accumulated + Gather(order, Chunks(call)))
                   else Failure(LaterPageFailed)
      ensures responseCode == Sticky(old(responseCode), CodesAlong(call, order))
    {
      ghost var start := responseCode;
      var data := accumulated;
      var failed := false;
      var i := 0;
      while i < |order|
        invariant 0 <= i <= |order|
        invariant CallbacksRun(call, order, i, start, accumulated, data, failed, responseCode)
      {
        CallbackRuns(call, order, i, start, accumulated, data, failed, responseCode);
        var chunk := Callback(call, order[i]);
        if chunk.Some? {
          data := data + chunk.value;
        } else {
          failed := true;
        }
        i := i + 1;
      }
      assert order[..|order|] == order;
      r := if failed then Failure(LaterPageFailed) else Success(data);
    }

    /** getPagedEndpoint(...).join(): page 1, then the record and page count,
        then the requests for pages 2..pages issued in page order and their
        callbacks run in the order schedule(pages). Returns the joined result
        and the pages requested, in issue order. */
    method GetPagedEndpoint(endpoint: string, loc: Locator, fetch: Url -> Reply, schedule: int -> seq<int>)
      returns (r: Result<seq<Json>, Failure>, requested: seq<int>)
      requires forall n :: IsCompletionOrder(schedule(n), n)
      modifies this`responseCode, this`pagedTotal
      ensures var run := Paged(Call(Address(), endpoint, loc, fetch), schedule, old(responseCode), old(pagedTotal));
        && r == run.result
        && requested == run.requested
        && responseCode == run.code
        && pagedTotal == run.total
    {
      var call := Call(Address(), endpoint, loc, fetch);
      requested := [1];
      var initial := Received(fetch(PageUrl(call, 1)));
      if initial.None? {
        return Failure(RequestFailed), requested;
      }
      var (code1, root) := initial.value;
      ObserveCode(code1);
      var first := FirstPageOf(root, loc);
      if first.Failure? {
        return Failure(first.error), requested;
      }
      var fp := first.value;
      if fp.total.Some? {
        pagedTotal := fp.total.value;
      }
      if fp.pages <= 1 {
        return Success(fp.data), requested;
      }
      requested := IssueRequests(fp.pages);
      r := RunCallbacks(call, schedule(fp.pages), fp.data);
    }

    /** getPaged(endpoint, ...) with any of its six argument lists: the
        joined result is stored as responseList; when join() rethrows,
        responseList keeps its old value. */
    method GetPaged(endpoint: string, args: PagedArgs, fetch: Url -> Reply, schedule: int -> seq<int>)
      returns (r: Result<seq<Json>, Failure>)
      requires forall n :: IsCompletionOrder(schedule(n), n)
      modifies this`responseCode, this`pagedTotal, this`responseList
      ensures var run := Paged(Call(Address(), endpoint, LocatorOf(args), fetch), schedule,
                               old(responseCode), old(pagedTotal));
        && r == run.result
        && responseCode == run.code
        && pagedTotal == run.total
        && responseList == if r.Success? then Some(r.value) else old(responseList)
    {
      var requested;
      r, requested := GetPagedEndpoint(endpoint, LocatorOf(args), fetch, schedule);
      if r.Success? {
        responseList := Some(r.value);
      }
    }
  }
}
