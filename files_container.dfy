/**
 * The earlier listing component (DriveFilesContainer): the same sort
 * toggle and forward paging as the hook, but no token cache, so every
 * backward move returns to the first page.
 */
module FilesContainer {
  import opened Wrappers
  import DriveRoutes
  import opened DriveFilesHook

  /** The query parameters it sends; a falsy token is deleted from them. */
  datatype ContainerRequest = ContainerRequest(pageSize: int, pageToken: Option<string>, orderBy: string)

  class Container {
    var files: Option<seq<DriveRoutes.DriveFile>>   // None: the response carried no `files`
    var loading: bool
    var orderBy: string
    var order: Order
    var rowsPerPage: int
    var page: int
    var nextPageToken: Option<string>
    var requests: seq<ContainerRequest>

    /** The page index is never negative and no empty token is kept or sent. */
    ghost predicate Valid()
      reads this
    {
      page >= 0
      && (nextPageToken.Some? ==> nextPageToken.value != "")
      && (forall r :: r in requests ==> r.pageToken != Some(""))
    }

    constructor ()
      ensures files == Some([]) && !loading
      ensures orderBy == "modifiedTime" && order == Desc && rowsPerPage == 10
      ensures page == 0 && nextPageToken == None && requests == []
      ensures Valid()
    {
      files := Some([]);
      loading := false;
      orderBy := "modifiedTime";
      order := Desc;
      rowsPerPage := 10;
      page := 0;
      nextPageToken := None;
      requests := [];
    }

    function RequestFor(token: Option<string>): (r: ContainerRequest)
      reads this
      ensures r.pageToken == TruthyToken(token)
      ensures r.pageSize == rowsPerPage && r.orderBy == orderBy + " " + OrderText(order)
    {
      ContainerRequest(rowsPerPage, TruthyToken(token), orderBy + " " + OrderText(order))
    }

    /** The start of fetchFiles. */
    method FetchFiles(token: Option<string>)
      requires Valid()
      modifies this
      ensures loading
      ensures requests == old(requests) + [old(RequestFor(token))]
      ensures files == old(files) && orderBy == old(orderBy) && order == old(order)
      ensures rowsPerPage == old(rowsPerPage) && page == old(page) && nextPageToken == old(nextPageToken)
      ensures Valid()
    {
      loading := true;
      requests := requests + [RequestFor(token)];
    }

    /** The end of fetchFiles: `files` is taken as sent, a failure clears the list, loading is off. */
    method CompleteFetch(outcome: FetchOutcome)
      requires Valid()
      modifies this
      ensures !loading
      ensures outcome.Loaded? ==>
                files == outcome.data.files && nextPageToken == TruthyToken(outcome.data.nextPageToken)
      ensures outcome.Failed? ==> files == Some([]) && nextPageToken == None
      ensures orderBy == old(orderBy) && order == old(order) && rowsPerPage == old(rowsPerPage)
      ensures page == old(page) && requests == old(requests)
      ensures Valid()
    {
      match outcome {
        case Loaded(data) =>
          files := data.files;
          nextPageToken := TruthyToken(data.nextPageToken);
        case Failed(_) =>
          files := Some([]);
          nextPageToken := None;
      }
      loading := false;
    }

    /** The effect run on mount and whenever the page size or the sort changes. */
    method ResetEffect()
      requires Valid()
      modifies this
      ensures page == 0 && loading
      ensures requests == old(requests) + [old(RequestFor(None))]
      ensures requests[|requests| - 1].pageToken == None
      ensures files == old(files) && orderBy == old(orderBy) && order == old(order)
      ensures rowsPerPage == old(rowsPerPage) && nextPageToken == old(nextPageToken)
      ensures Valid()
    {
      page := 0;
      FetchFiles(None);
    }

    /** Forward as in the hook; any backward move fetches the first page and shows page 0. */
    method HandlePageChange(newPage: int)
      requires Valid()
      modifies this
      ensures newPage > old(page) && old(nextPageToken).Some? ==>
                page == newPage && requests == old(requests) + [old(RequestFor(nextPageToken))]
                && requests[|requests| - 1].pageToken == old(nextPageToken) && loading
      ensures newPage < old(page) ==>
                page == 0 && requests == old(requests) + [old(RequestFor(None))]
                && requests[|requests| - 1].pageToken == None && loading
      ensures newPage == old(page) || (newPage > old(page) && old(nextPageToken).None?) ==>
                page == old(page) && requests == old(requests) && loading == old(loading)
      ensures files == old(files) && nextPageToken == old(nextPageToken)
      ensures orderBy == old(orderBy) && order == old(order) && rowsPerPage == old(rowsPerPage)
      ensures Valid()
    {
      if newPage > page && nextPageToken.Some? && nextPageToken.value != "" {
        FetchFiles(nextPageToken);
        page := newPage;
      } else if newPage < page {
        FetchFiles(None);
        page := 0;
      }
    }

    /** A different page size reruns the effect; the same one changes nothing else. */
    method HandleRowsPerPageChange(newRowsPerPage: int)
      requires Valid()
      modifies this
      ensures rowsPerPage == newRowsPerPage
      ensures newRowsPerPage == old(rowsPerPage) ==>
                page == old(page) && requests == old(requests) && loading == old(loading)
      ensures newRowsPerPage != old(rowsPerPage) ==>
                page == 0 && requests == old(requests) + [ContainerRequest(newRowsPerPage, None, orderBy + " " + OrderText(order))]
                && loading
      ensures orderBy == old(orderBy) && order == old(order)
      ensures files == old(files) && nextPageToken == old(nextPageToken)
      ensures Valid()
    {
      if newRowsPerPage != rowsPerPage {
        rowsPerPage := newRowsPerPage;
        ResetEffect();
      }
    }

    /** A click on a column header: the new sort, then the effect refetches page 0. */
    method HandleSortChange(property: string)
      requires Valid()
      modifies this
      ensures (orderBy, order) == SortAfter(old(orderBy), old(order), property)
      ensures page == 0
      ensures requests == old(requests) + [ContainerRequest(rowsPerPage, None, orderBy + " " + OrderText(order))]
      ensures loading
      ensures rowsPerPage == old(rowsPerPage) && files == old(files) && nextPageToken == old(nextPageToken)
      ensures Valid()
    {
      if orderBy == property {
        order := if order == Asc then Desc else Asc;
      } else {
        orderBy := property;
        order := Asc;
      }
      ResetEffect();
    }
  }
}
