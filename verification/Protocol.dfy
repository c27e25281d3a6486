/** One resource of the watchlist Reader as a state machine over what its environment does: startup (`watch`),
    `handleWatcher`'s loop and `watchEvents`, one input at a time. Reader.dfy proves that the source's nested loops take
    exactly these steps. An input the current phase does not wait for, or that the server may not send, changes nothing,
    so every sequence of inputs is a run, and every prefix of a run is a run that crashed there. */
module Protocol {
  import opened Wrappers
  import opened Data
  import opened History
  import opened Requests

  /** h: everything the server will ever store. bookmarking: the server supports watch bookmarks (1.29 and later). */
  datatype World = World(h: seq<Change>, bookmarking: bool)

  /** The server's half of a watch: the initial objects it has still to send, the version it has got to, and whether
      the annotated bookmark that ends the initial events is still to come. */
  datatype Stream = Stream(pending: set<Uid>, pos: nat, owed: bool)

  datatype Event =
    | Change(typ: WatchEventType, obj: ApiObject)
    | BookmarkAt(version: nat, annotated: bool)
    | ErrorEvent(stale: bool)
    | Unusable                 // an event of an unknown type, or without a typed object

  /** Reply to a bookmark store update: Unacknowledged is an update that committed but returned an error. */
  datatype Outcome = Done | Failed | Unacknowledged

  datatype Input =
    // the server's side of the open stream
    | SendObject(uid: Uid)
    | SendChange
    | SendBookmark(version: nat, annotated: bool, outcome: Outcome)
    | SendStale(outcome: Outcome)
    | SendError
    | SendUnusable
    | CloseStream
    // replies
    | Persist(outcome: Outcome)                    // the store's, to a list recovery's version
    | Checked(current: Option<nat>, outcome: Outcome) // the list bookmarkAhead makes; None when it could not be made
    | Open(version: nat)                           // the requested watch opened; version is the server's latest
    | Refuse(error: ApiError, outcome: Outcome)    // the requested watch was refused
    | NoWatchList                                  // the spawner answered errListRecovery
    | Listed(version: nat)                         // listRecoveryObjects completed
    | ListFailed(cause: Option<ApiError>)          // it did not; None when the server's replies are no list at one version
    // the rest of the world
    | GateClosed                                   // a WatchList feature gate reply to another resource's request
    | Start(sameReader: bool, loaded: bool)        // Run, in the same or a new Reader; the bookmark loads or not
    | Cancel                                       // Close, the watchdog or a failed Run
    | Crash
    | Foreign(value: Option<nat>)                  // another writer of the same key

  datatype WatcherKind = Plain | InitialEvents | ListRecovery

  datatype Phase =
    | Down
    | Checking                 // a bookmark was loaded and is compared with the server's version
    | Resuming                 // startup's watch request is outstanding
    | Recovering               // recoverStartup's WatchList request is outstanding
    | Connecting               // handleWatcher's retry loop asks for the next watcher
    | Opening(at: nat)         // a recovery list at this version is complete and its watch is requested
    | Streaming(w: Watching)
    | Ended

  /** The open watcher with watchEvents' variables. `initial` is initialEvents; `listing` says the listed snapshots are
      still being delivered; `seen` and `saved` are resourceVersion and storedResourceVersion. `start` is the version
      the stream opened at, `base` and `cut` the lengths of the output when it opened and when its snapshots ended. */
  datatype Watching = Watching(kind: WatcherKind, s: Stream, initial: bool, listing: bool, seen: Option<nat>, saved: Option<nat>,
                               start: nat, base: nat, cut: nat)

  /** What an observer of server and consumer notes down; the Reader has none of it. hw: the latest version anything
      was seen of. ghosts: objects the consumer holds although a snapshot at the noted version no longer had them.
      reopened: a stream of all objects was opened although the consumer already held some. */
  datatype Audit = Audit(hw: nat, ghosts: map<Uid, nat>, reopened: bool)

  datatype State = State(
    watchList: bool,           // connectWatcher's watchListEnabled
    phase: Phase,
    gap: bool,
    rv: Option<nat>,           // handleWatcher's resourceVersion
    store: Option<nat>,        // this resource's entry in the bookmark store
    out: seq<Entry>,           // everything put on the output channel, by every process so far
    audit: Audit)

  function Init(c: World): State {
    State(c.bookmarking, Down, false, None, None, [], Audit(0, map[], false))
  }

  // ---- the server ---------------------------------------------------------------------------------------------

  /** The stream a server at version l opens for a request: a resumed one sends the changes after its version; any
      other first sends every object, and owes the annotated bookmark if initial events were asked for. */
  function OpenStream(h: seq<Change>, o: ListOptions, l: nat): Stream {
    if o.resourceVersion.Some? && o.sendInitialEvents != Some(true) then Stream({}, o.resourceVersion.value, false)
    else Stream(StateAt(h, l).Keys, l, o.sendInitialEvents == Some(true))
  }

  /** What the server may send next on a stream, if the input is it. An ordinary bookmark may come at any moment while
      initial objects are sent; otherwise a bookmark follows every change up to its version. */
  function Serve(h: seq<Change>, s: Stream, i: Input): (r: (Stream, Option<Event>)) {
    match i
    case SendObject(u) =>
      if u in s.pending && u in StateAt(h, s.pos) && StateAt(h, s.pos)[u].kind != Unsupported then
        (s.(pending := s.pending - {u}), Some(Change(Added, StateAt(h, s.pos)[u])))
      else (s, None)
    case SendChange =>
      if s.pending != {} || s.pos >= |h| then (s, None)
      else if h[s.pos].Elsewhere? then (s.(pos := s.pos + 1), None)
      else (s.(pos := s.pos + 1), Some(Change(EventTypeAt(h, s.pos), h[s.pos].obj)))
    case SendBookmark(v, annotated, _) =>
      if annotated then
        if s.pending == {} && s.owed && v == s.pos then (s.(owed := false), Some(BookmarkAt(v, true))) else (s, None)
      else if s.pending != {} || v == s.pos then (s, Some(BookmarkAt(v, false)))
      else (s, None)
    case SendStale(_) => (s, Some(ErrorEvent(true)))
    case SendError => (s, Some(ErrorEvent(false)))
    case SendUnusable => (s, Some(Unusable))
    case _ => (s, None)
  }

  // ---- the store ----------------------------------------------------------------------------------------------

  function Stored(store: Option<nat>, v: nat, o: Outcome): Option<nat> {
    if o.Failed? then store else Some(v)
  }

  /** clearBookmark: nothing without a version, otherwise a compare-and-delete. */
  function Cleared(store: Option<nat>, v: Option<nat>, o: Outcome): Option<nat> {
    if v.None? || store != v || o.Failed? then store else None
  }

  // ---- watchEvents --------------------------------------------------------------------------------------------

  /** A version worth keeping: remembered, and persisted unless it is the one persisted last. */
  function Record(st: State, w: Watching, v: nat, o: Outcome): State {
    if w.saved == Some(v) then st.(phase := Streaming(w.(seen := Some(v))))
    else st.(phase := Streaming(w.(seen := Some(v), saved := if o.Done? then Some(v) else w.saved)),
             store := Stored(st.store, v, o))
  }

  /** The entry watchEvent makes of an event that carries an object. */
  function Converted(initial: bool, typ: WatchEventType, obj: ApiObject): Result<Entry, EntryError> {
    if initial && typ == Added then NewEntry(Pointer(obj), STWatchList, CTSnapshot)
    else WatchEventToEntry(typ, Pointer(obj))
  }

  function Emit(st: State, w: Watching, e: Result<Entry, EntryError>): State {
    if e.Err? then st.(phase := Streaming(w))
    else
      var out := st.out + [e.value];
      st.(out := out,
          phase := Streaming(if w.initial || w.listing then w.(cut := |out|) else w),
          audit := st.audit.(hw := Max(st.audit.hw, w.s.pos), ghosts := st.audit.ghosts - {e.value.uid}))
  }

  /** watchEvents returned without an error worth recovering from; handleWatcher goes on to reconnect. */
  function StreamEnded(st: State, w: Watching): State {
    st.(phase := Connecting,
        rv := if w.seen.Some? then w.seen else st.rv,
        gap := if w.seen.Some? then false else st.gap)
  }

  /** A rejection of the handler's version: it is cleared, and recovery starts. */
  function Rejected(st: State, o: Outcome): State {
    st.(phase := Connecting, store := Cleared(st.store, st.rv, o), rv := None, gap := true)
  }

  function OnEvent(st: State, w: Watching, e: Event, o: Outcome): State {
    match e
    case Change(typ, obj) => Emit(st, w, Converted(w.initial, typ, obj))
    case BookmarkAt(v, annotated) =>
      if w.initial && !annotated then st.(phase := Streaming(w)) else Record(st, w.(initial := false), v, o)
    case ErrorEvent(stale) => if stale then Rejected(StreamEnded(st, w), o) else st.(phase := Streaming(w))
    case Unusable => st.(phase := Streaming(w))
  }

  function OutcomeOf(i: Input): Outcome {
    match i
    case SendBookmark(_, _, o) => o
    case SendStale(o) => o
    case _ => Done
  }

  function StepStreaming(c: World, st: State, w: Watching, i: Input): State {
    if w.listing then
      match i
      case SendObject(u) =>
        var (s', e) := Serve(c.h, w.s, i);
        if e.None? then st
        else Emit(st, w.(s := s'), NewEntry(Pointer(e.value.obj), STWatchList, CTSnapshot))
      case Persist(o) =>
        if w.s.pending != {} then st else Record(st, w.(listing := false), w.s.pos, o)
      case _ => st
    else if i.CloseStream? then StreamEnded(st, w)
    else
      var (s', e) := Serve(c.h, w.s, i);
      if e.None? then st.(phase := Streaming(w.(s := s')), audit := st.audit.(hw := Max(st.audit.hw, s'.pos)))
      else OnEvent(st, w.(s := s'), e.value, OutcomeOf(i))
  }

  // ---- opening watchers ---------------------------------------------------------------------------------------

  /** A consistent read is no older than anything read before. */
  predicate Latest(c: World, st: State, l: nat) {
    st.audit.hw <= l <= |c.h|
  }

  function NewWatching(kind: WatcherKind, s: Stream, base: nat): Watching {
    Watching(kind, s, kind.InitialEvents?, kind.ListRecovery?, None, None, s.pos, base, base)
  }

  /** The version named in the request handleWatcher or watch makes for a watcher that is not a recovery. */
  function RequestOptions(c: World, st: State): ListOptions {
    WithResourceVersion(SharedOptions(c.bookmarking, st.watchList), if c.bookmarking then st.rv else None)
  }

  /** Note the objects a stream of all objects at l drops. */
  function Dropped(h: seq<Change>, view: Objects, l: nat): map<Uid, nat> {
    map u | u in view && u !in StateAt(h, l) :: l
  }

  function Opened(c: World, st: State, kind: WatcherKind, s: Stream, all: bool): State {
    var st' := st.(phase := Streaming(NewWatching(kind, s, |st.out|)), gap := !kind.Plain?);
    if !all then st'
    else st'.(audit := Audit(Max(st.audit.hw, s.pos), st.audit.ghosts + Dropped(c.h, View(st.out), s.pos),
                             st.audit.reopened || View(st.out) != map[]))
  }

  function OpenPlain(c: World, st: State, l: nat): State {
    var o := RequestOptions(c, st);
    Opened(c, st, Plain, OpenStream(c.h, o, l), o.resourceVersion == None)
  }

  function OpenInitialEvents(c: World, st: State, l: nat): State {
    Opened(c, st, InitialEvents, OpenStream(c.h, SharedOptions(c.bookmarking, st.watchList), l), true)
  }

  /** The watch starts at the list's version; the list's objects are delivered before anything is read from it. */
  function OpenListed(c: World, st: State, at: nat): State {
    var s := OpenStream(c.h, WithResourceVersion(SharedOptions(c.bookmarking, st.watchList), Some(at)), at);
    Opened(c, st, ListRecovery, s.(pending := StateAt(c.h, at).Keys), true)
  }

  /** The retry closure of handleWatcher after an error; `stop` says the error is already marked permanent. */
  function RetryError(st: State, e: ApiError, stop: bool, o: Outcome): State {
    if e.Forbidden? || e.Unauthorized? then st.(phase := Ended)
    else if st.rv.Some? && RejectedResourceVersion(e) then
      var st' := Rejected(st, o);
      if stop then st'.(phase := Ended) else st'
    else if st.rv.None? && InvalidWatchRequest(e) then st.(phase := Ended)
    else if stop then st.(phase := Ended)
    else st.(phase := Connecting)
  }

  /** What listRecoveryObjects returns for a failure, and whether it marks it permanent. */
  function ListError(cause: Option<ApiError>): ApiError {
    if cause.None? then Other else cause.value
  }

  predicate ListStops(cause: Option<ApiError>) {
    cause.None? || Permanent(cause.value)
  }

  function StepConnecting(c: World, st: State, i: Input): State {
    match i
    case Open(l) =>
      if !Latest(c, st, l) then st
      else if !st.gap then OpenPlain(c, st, l)
      else if st.watchList then OpenInitialEvents(c, st, l)
      else st
    case Refuse(e, o) => if st.gap && !st.watchList then st else RetryError(st, e, false, o)
    case Listed(l) =>
      if st.gap && !st.watchList && Latest(c, st, l) then st.(phase := Opening(l), audit := st.audit.(hw := l)) else st
    case ListFailed(cause) =>
      if st.gap && !st.watchList then RetryError(st, ListError(cause), ListStops(cause), Done) else st
    case _ => st
  }

  function StepOpening(c: World, st: State, at: nat, i: Input): State {
    match i
    case Open(_) => OpenListed(c, st, at)
    case Refuse(e, o) => RetryError(st, e, false, o)
    case _ => st
  }

  // ---- startup ------------------------------------------------------------------------------------------------

  /** recoverStartup: the loaded bookmark is cleared and a recovery watch is requested. */
  function RecoverStartup(st: State, o: Outcome): State {
    st.(phase := Recovering, store := Cleared(st.store, st.rv, o), rv := None)
  }

  function StepStartup(c: World, st: State, i: Input): State {
    match st.phase
    case Checking =>
      (match i
       case Checked(current, o) =>
         if current.Some? && st.rv.Some? && st.rv.value > current.value then RecoverStartup(st, o)
         else st.(phase := Resuming)
       case _ => st)
    case Resuming =>
      (match i
       case Open(l) => if Latest(c, st, l) then OpenPlain(c, st, l) else st
       case Refuse(e, o) =>
         if st.rv.Some? && RejectedResourceVersion(e) then RecoverStartup(st, o) else st.(phase := Ended)
       case _ => st)
    case Recovering =>
      (match i
       case Open(l) => if st.watchList && Latest(c, st, l) then OpenInitialEvents(c, st, l) else st
       case Refuse(e, o) => if st.watchList then st.(phase := Ended) else st
       case NoWatchList => if st.watchList then st else st.(phase := Connecting, gap := true)
       case _ => st)
    case _ => st
  }

  function Load(c: World, st: State, sameReader: bool, loaded: bool): State {
    var rv := if c.bookmarking && loaded then st.store else None;
    st.(watchList := if sameReader then st.watchList else c.bookmarking,
        gap := false, rv := rv, phase := if rv.Some? then Checking else Resuming)
  }

  predicate Idle(p: Phase) {
    p.Down? || p.Ended?
  }

  // ---- everything ---------------------------------------------------------------------------------------------

  /** The spawner's first WatchList feature gate reply reaches no requester: it falls back and repeats the request. */
  predicate FallsBack(watchList: bool, i: Input) {
    i.GateClosed? || (watchList && i.Refuse? && i.error.WatchListGate?)
  }

  function Step(c: World, st: State, i: Input): State {
    if FallsBack(st.watchList, i) then st.(watchList := false)
    else
    match i
    case GateClosed => st
    case Foreign(v) => st.(store := v)
    case Crash => st.(phase := Down)
    case Cancel => if st.phase.Down? then st else st.(phase := Ended)
    case Start(sameReader, loaded) => if Idle(st.phase) then Load(c, st, sameReader, loaded) else st
    case _ =>
      match st.phase
      case Streaming(w) => StepStreaming(c, st, w, i)
      case Connecting => StepConnecting(c, st, i)
      case Opening(at) => StepOpening(c, st, at, i)
      case _ => StepStartup(c, st, i)
  }

  function Run(c: World, st: State, inputs: seq<Input>): State {
    if inputs == [] then st else Step(c, Run(c, st, inputs[..|inputs| - 1]), inputs[|inputs| - 1])
  }

  lemma {:induction false} RunConcat(c: World, st: State, a: seq<Input>, b: seq<Input>)
    ensures Run(c, st, a + b) == Run(c, Run(c, st, a), b)
    decreases |b|
  {
    if b == [] {
      assert a + b == a;
    } else {
      RunConcat(c, st, a, b[..|b| - 1]);
      assert (a + b)[..|a + b| - 1] == a + b[..|b| - 1];
    }
  }

  lemma RunSnoc(c: World, st: State, inputs: seq<Input>, i: Input)
    ensures Run(c, st, inputs + [i]) == Step(c, Run(c, st, inputs), i)
  {
    assert (inputs + [i])[..|inputs|] == inputs;
  }
}
