/** Watch requests and the errors that answer them. */
module Requests {
  import opened Wrappers

  /** The fields of metav1.ListOptions that watch requests use. `resourceVersion` None is the empty string, and
      `notOlderThan` is a ResourceVersionMatch that is set. */
  datatype ListOptions = ListOptions(
    resourceVersion: Option<nat>,
    allowBookmarks: bool,
    notOlderThan: bool,
    sendInitialEvents: Option<bool>)

  /** The options connectWatcher shares between all requests: with bookmarking it asks for bookmarks, and for WatchList
      initial events until the server has refused them. */
  function SharedOptions(bookmarking: bool, watchList: bool): ListOptions {
    ListOptions(None, bookmarking, bookmarking && watchList, if bookmarking && watchList then Some(true) else None)
  }

  /** The options a request resuming from resourceVersion is sent with. */
  function WithResourceVersion(options: ListOptions, resourceVersion: Option<nat>): ListOptions {
    if resourceVersion == None then options
    else
      var o := options.(resourceVersion := resourceVersion);
      if o.sendInitialEvents.Some? then o.(sendInitialEvents := Some(false)) else o
  }

  /** What the API server accepts: initial events are asked for or declined exactly when ResourceVersionMatch is set,
      they are asked for exactly when there is no version to start from, and only with bookmarks allowed. */
  predicate WellFormed(o: ListOptions) {
    && (o.sendInitialEvents.Some? <==> o.notOlderThan)
    && (o.sendInitialEvents.Some? ==> (o.sendInitialEvents.value <==> o.resourceVersion == None))
    && (o.sendInitialEvents.Some? ==> o.allowBookmarks)
  }

  lemma RequestsWellFormed(bookmarking: bool, watchList: bool, resourceVersion: Option<nat>)
    ensures WellFormed(WithResourceVersion(SharedOptions(bookmarking, watchList), resourceVersion))
    ensures var o := WithResourceVersion(SharedOptions(bookmarking, watchList), resourceVersion);
            && o.resourceVersion == resourceVersion && o.allowBookmarks == bookmarking
            && o.notOlderThan == (bookmarking && watchList)
  {
  }

  /** Errors by the classes the Reader tells apart. WatchListGate is the Invalid status whose cause names the feature
      gate; Other is every error that is in none of the classes. */
  datatype ApiError = Expired | Gone | BadRequest | Invalid | WatchListGate | Forbidden | Unauthorized | NotFound | Conflict | Other

  predicate IsInvalid(e: ApiError) {
    e.Invalid? || e.WatchListGate?
  }

  predicate StaleResourceVersion(e: ApiError) {
    e.Expired? || e.Gone?
  }

  predicate InvalidWatchRequest(e: ApiError) {
    e.BadRequest? || IsInvalid(e)
  }

  predicate RejectedResourceVersion(e: ApiError) {
    StaleResourceVersion(e) || InvalidWatchRequest(e)
  }

  /** apierr.Permanent: retrying cannot succeed. */
  predicate Permanent(e: ApiError) {
    e.NotFound? || e.Forbidden? || e.Unauthorized? || IsInvalid(e)
  }

  /** The errors that no retry can help, by name. */
  predicate Hopeless(e: ApiError) {
    e in {NotFound, Forbidden, Unauthorized, Invalid, WatchListGate}
  }
}
