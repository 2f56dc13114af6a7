/**
 * The file-listing hook of the frontend (useDriveFiles): sort state, page
 * number, the cache of page tokens seen so far, and the listing fetch. A
 * fetch is split in two: FetchFiles is its synchronous start (the request
 * is recorded and `loading` is set), CompleteFetch applies the outcome the
 * awaited request produced.
 */
module DriveFilesHook {
  import opened Wrappers
  import JsText
  import Decimal
  import DriveRoutes

  datatype Order = Asc | Desc

  function OrderText(o: Order): string {
    match o
    case Asc => "asc"
    case Desc => "desc"
  }

  /** The sort state after a click on column `property`. */
  function SortAfter(orderBy: string, order: Order, property: string): (r: (string, Order))
    ensures r.0 == property
    ensures orderBy == property ==> r.1 != order
    ensures orderBy != property ==> r.1 == Asc
    ensures r != (orderBy, order)
  {
    if orderBy == property then (property, if order == Asc then Desc else Asc)
    else (property, Asc)
  }

  /** Two clicks on the same column: back to the old order if it was the sort column, else descending. */
  lemma SortTwice(orderBy: string, order: Order, property: string)
    ensures var once := SortAfter(orderBy, order, property);
            SortAfter(once.0, once.1, property) == (property, if orderBy == property then order else Desc)
  {
  }

  /** The query parameters of one listing request; an absent `pageToken` is None. */
  datatype Request = Request(pageSize: Option<int>, orderBy: string, folderId: string, pageToken: Option<string>)

  /** `token` if it is truthy, else no token. */
  function TruthyToken(token: Option<string>): (r: Option<string>)
    ensures r.Some? <==> token.Some? && token.value != ""
    ensures r.Some? ==> r == token
  {
    if token.Some? && token.value != "" then token else None
  }

  /** The body of a successful listing response. */
  datatype ListData = ListData(files: Option<seq<DriveRoutes.DriveFile>>, nextPageToken: Option<string>)

  /** A failed request: the response status, and `data.error` and `data.message` when present. */
  datatype HttpFailure = HttpFailure(status: Option<int>, error: Option<string>, message: Option<string>)

  datatype FetchOutcome = Loaded(data: ListData) | Failed(failure: HttpFailure)

  const ExpiredText: string := "Your Google Drive token has expired. Please reauthorize."
  const GenericText: string := "Failed to load files."

  /** The message shown after a failed fetch. */
  function ErrorText(f: HttpFailure): (text: string)
    ensures text != ""
    ensures !(f.status == Some(401) && f.error == Some("TokenExpired")) ==> text == GenericText
    ensures f.status == Some(401) && f.error == Some("TokenExpired") && f.message.Some? && f.message.value != ""
            ==> text == f.message.value
    ensures f.status == Some(401) && f.error == Some("TokenExpired") && (f.message.None? || f.message.value == "")
            ==> text == ExpiredText
  {
    if f.status == Some(401) && f.error == Some("TokenExpired") then
      (if f.message.Some? && f.message.value != "" then f.message.value else ExpiredText)
    else GenericText
  }

  /** How a route's reply reaches the hook as a failure. */
  function FailureOf(r: DriveRoutes.Reply): HttpFailure {
    match r.body
    case TokenExpired(err, msg, _) => HttpFailure(Some(r.status), Some(err), Some(msg))
    case Message(msg) => HttpFailure(Some(r.status), None, Some(msg))
    case _ => HttpFailure(Some(r.status), None, None)
  }

  /**
   * A list request that fails on the server shows the expiry text when the
   * router classified the error as an auth error, and the generic text
   * otherwise, whichever router served it.
   */
  lemma ListFailureShown(c: DriveRoutes.Classifier, q: DriveRoutes.ListQuery, e: DriveRoutes.DriveError)
    ensures var h := DriveRoutes.ListFiles(c, q, DriveRoutes.Threw(e));
            ErrorText(FailureOf(h.reply)) == if DriveRoutes.IsAuthError(c, e) then ExpiredText else GenericText
  {
  }

  /** How axios writes the page size into the query string. */
  function PageSizeParam(n: Option<int>): string {
    match n
    case None => "NaN"
    case Some(v) => if v < 0 then "-" + Decimal.Digits(-v) else Decimal.Digits(v)
  }

  /** The query the list route receives for a request. */
  function QueryOf(req: Request): DriveRoutes.ListQuery {
    DriveRoutes.ListQuery(Some(req.folderId), Some(PageSizeParam(req.pageSize)), req.pageToken, Some(req.orderBy))
  }

  /**
   * A request with a positive page size and no empty token makes the route
   * list exactly that folder, page size, page and order.
   */
  lemma RequestReachesRoute(req: Request)
    requires req.pageSize.Some? && req.pageSize.value > 0
    requires req.pageToken != Some("")
    requires req.orderBy != ""
    ensures DriveRoutes.ListCall(QueryOf(req))
            == DriveRoutes.ListFilesCall(req.folderId, req.pageSize.value, req.pageToken, req.orderBy)
  {
    DriveRoutes.PageSizeOfNumeral(req.pageSize.value);
  }

  class DriveFiles {
    var folderId: string
    var files: seq<DriveRoutes.DriveFile>
    var loading: bool
    var orderBy: string
    var order: Order
    var rowsPerPage: Option<int>   // None: `parseInt` gave NaN
    var page: int
    var nextPageToken: Option<string>
    var pageTokens: map<int, string>   // a missing index is an array hole
    var error: Option<string>
    var requests: seq<Request>

    /**
     * The page index is never negative, page 0 is always reached without a
     * token, and no empty token is ever kept or sent.
     */
    ghost predicate Valid()
      reads this
    {
      page >= 0 && 0 in pageTokens && pageTokens[0] == ""
      && (nextPageToken.Some? ==> nextPageToken.value != "")
      && (forall r :: r in requests ==> r.pageToken != Some(""))
    }

    constructor (folderId: string, rowsPerPageDefault: int)
      ensures this.folderId == folderId && files == [] && !loading
      ensures orderBy == "modifiedTime" && order == Desc && rowsPerPage == Some(rowsPerPageDefault)
      ensures page == 0 && nextPageToken == None && pageTokens == map[0 := ""]
      ensures error == None && requests == []
      ensures Valid()
    {
      this.folderId := folderId;
      files := [];
      loading := false;
      orderBy := "modifiedTime";
      order := Desc;
      rowsPerPage := Some(rowsPerPageDefault);
      page := 0;
      nextPageToken := None;
      pageTokens := map[0 := ""];
      error := None;
      requests := [];
    }

    /** The request fetchFiles sends for `token` in the current state. */
    function RequestFor(token: Option<string>): (r: Request)
      reads this
      ensures r.pageToken == TruthyToken(token)
      ensures r.folderId == folderId && r.pageSize == rowsPerPage
      ensures r.orderBy == orderBy + " " + OrderText(order)
    {
      Request(rowsPerPage, orderBy + " " + OrderText(order), folderId, TruthyToken(token))
    }

    /** The start of fetchFiles: loading on, error cleared, request sent. */
    method FetchFiles(token: Option<string>)
      requires Valid()
      modifies this
      ensures loading && error == None
      ensures requests == old(requests) + [old(RequestFor(token))]
      ensures folderId == old(folderId) && files == old(files) && orderBy == old(orderBy) && order == old(order)
      ensures rowsPerPage == old(rowsPerPage) && page == old(page)
      ensures nextPageToken == old(nextPageToken) && pageTokens == old(pageTokens)
      ensures Valid()
    {
      loading := true;
      error := None;
      requests := requests + [RequestFor(token)];
    }

    /** The end of fetchFiles: the listing or the error is shown, and loading is off on every path. */
    method CompleteFetch(outcome: FetchOutcome)
      requires Valid()
      modifies this
      ensures !loading
      ensures outcome.Loaded? ==>
                && files == (if outcome.data.files.Some? then outcome.data.files.value else [])
                && nextPageToken == TruthyToken(outcome.data.nextPageToken)
                && error == old(error)
      ensures outcome.Failed? ==>
                files == [] && nextPageToken == None && error == Some(ErrorText(outcome.failure))
      ensures folderId == old(folderId) && orderBy == old(orderBy) && order == old(order)
      ensures rowsPerPage == old(rowsPerPage) && page == old(page)
      ensures pageTokens == old(pageTokens) && requests == old(requests)
      ensures Valid()
    {
      match outcome {
        case Loaded(data) =>
          files := if data.files.Some? then data.files.value else [];
          nextPageToken := TruthyToken(data.nextPageToken);
        case Failed(failure) =>
          files := [];
          nextPageToken := None;
          error := Some(ErrorText(failure));
      }
      loading := false;
    }

    /** The effect run on mount, on reload and when the folder or the fetch parameters change. */
    method ResetEffect()
      requires Valid()
      modifies this
      ensures page == 0 && pageTokens == map[0 := ""]
      ensures loading && error == None
      ensures requests == old(requests) + [old(RequestFor(None))]
      ensures requests[|requests| - 1].pageToken == None
      ensures folderId == old(folderId) && files == old(files) && orderBy == old(orderBy) && order == old(order)
      ensures rowsPerPage == old(rowsPerPage) && nextPageToken == old(nextPageToken)
      ensures Valid()
    {
      page := 0;
      pageTokens := map[0 := ""];
      FetchFiles(None);
    }

    /** A new current folder reruns the effect; the same folder id does not. */
    method ChangeFolder(id: string)
      requires Valid()
      modifies this
      ensures folderId == id
      ensures id == old(folderId) ==> unchanged(this)
      ensures id != old(folderId) ==>
                && page == 0 && pageTokens == map[0 := ""]
                && requests == old(requests) + [Request(rowsPerPage, orderBy + " " + OrderText(order), id, None)]
                && loading && error == None
      ensures files == old(files) && orderBy == old(orderBy) && order == old(order)
      ensures rowsPerPage == old(rowsPerPage) && nextPageToken == old(nextPageToken)
      ensures Valid()
    {
      if id != folderId {
        folderId := id;
        ResetEffect();
      }
    }

    /** The token a backward move to `newPage` fetches with: the cached one, if truthy. */
    static function BackwardToken(pageTokens: map<int, string>, newPage: int): (t: Option<string>)
      ensures t.Some? ==> t.value != ""
      ensures t.Some? <==> newPage in pageTokens && pageTokens[newPage] != ""
      ensures t.Some? ==> t.value == pageTokens[newPage]
    {
      if newPage in pageTokens && pageTokens[newPage] != "" then Some(pageTokens[newPage]) else None
    }

    /** A page reached forward is later re-fetched backward with the same token. */
    static lemma ForwardTokenCached(pageTokens: map<int, string>, newPage: int, token: string)
      requires token != ""
      ensures BackwardToken(pageTokens[newPage := token], newPage) == Some(token)
    {
    }

    /**
     * Forward needs a next-page token and caches it under the new page;
     * backward fetches with the cached token of the target page; any other
     * request changes nothing.
     */
    method HandlePageChange(newPage: int)
      requires Valid()
      requires newPage >= 0
      modifies this
      ensures newPage > old(page) && old(nextPageToken).Some? ==>
                && page == newPage
                && pageTokens == old(pageTokens)[newPage := old(nextPageToken).value]
                && requests == old(requests) + [old(RequestFor(nextPageToken))]
                && requests[|requests| - 1].pageToken == old(nextPageToken)
                && loading && error == None
      ensures newPage < old(page) ==>
                && page == newPage
                && pageTokens == old(pageTokens)
                && requests == old(requests) + [old(RequestFor(BackwardToken(pageTokens, newPage)))]
                && loading && error == None
      ensures newPage == old(page) || (newPage > old(page) && old(nextPageToken).None?) ==>
                page == old(page) && pageTokens == old(pageTokens) && requests == old(requests)
                && loading == old(loading) && error == old(error)
      ensures newPage == 0 && old(page) > 0 ==> requests[|requests| - 1].pageToken == None
      ensures files == old(files) && nextPageToken == old(nextPageToken) && folderId == old(folderId)
      ensures orderBy == old(orderBy) && order == old(order) && rowsPerPage == old(rowsPerPage)
      ensures Valid()
    {
      if newPage > page && nextPageToken.Some? && nextPageToken.value != "" {
        var token := nextPageToken.value;
        FetchFiles(nextPageToken);
        page := newPage;
        pageTokens := pageTokens[newPage := token];
      } else if newPage < page {
        var prevToken := BackwardToken(pageTokens, newPage);
        FetchFiles(prevToken);
        page := newPage;
      }
    }

    /**
     * A rows-per-page change resets the paging; a different value then reruns
     * the effect. The next-page token of the page shown before is kept, also
     * when the value is unchanged and page 0 is shown without a refetch.
     */
    method HandleRowsPerPageChange(value: string)
      requires Valid()
      modifies this
      ensures rowsPerPage == JsText.ParseInt(value)
      ensures page == 0 && pageTokens == map[0 := ""]
      ensures rowsPerPage == old(rowsPerPage) ==> requests == old(requests)
      ensures rowsPerPage == old(rowsPerPage) ==> loading == old(loading) && error == old(error)
      ensures rowsPerPage != old(rowsPerPage) ==>
                && requests == old(requests) + [Request(rowsPerPage, orderBy + " " + OrderText(order), folderId, None)]
                && loading && error == None
      ensures folderId == old(folderId) && orderBy == old(orderBy) && order == old(order)
      ensures files == old(files) && nextPageToken == old(nextPageToken)
      ensures Valid()
    {
      var previous := rowsPerPage;
      rowsPerPage := JsText.ParseInt(value);
      page := 0;
      pageTokens := map[0 := ""];
      if rowsPerPage != previous {
        ResetEffect();
      }
    }

    /** A click on a column header: the new sort, the paging reset, and the first page refetched. */
    method HandleSortChange(property: string)
      requires Valid()
      modifies this
      ensures (orderBy, order) == SortAfter(old(orderBy), old(order), property)
      ensures page == 0 && pageTokens == map[0 := ""]
      ensures requests == old(requests) + [Request(rowsPerPage, orderBy + " " + OrderText(order), folderId, None)]
      ensures loading && error == None
      ensures folderId == old(folderId) && rowsPerPage == old(rowsPerPage)
      ensures files == old(files) && nextPageToken == old(nextPageToken)
      ensures Valid()
    {
      if orderBy == property {
        order := if order == Asc then Desc else Asc;
      } else {
        orderBy := property;
        order := Asc;
      }
      page := 0;
      pageTokens := map[0 := ""];
      ResetEffect();
    }
  }
}
