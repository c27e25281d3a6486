/** What every run keeps of the consumer's view and of the stored bookmark, when this Reader is the only writer of its
    key and the server sends no harmful bookmark on a fresh stream before that stream's initial objects. ProtocolEarly
    shows which ones are harmful. */
module ProtocolCoverage {
  import opened Wrappers
  import opened Data
  import opened History
  import opened Requests
  import opened Protocol
  import opened ProtocolControl

  /** A bookmark on a stream that is not a recovery while initial objects are outstanding. */
  predicate Early(st: State, i: Input) {
    i.SendBookmark? && st.phase.Streaming? && st.phase.w.kind.Plain? && st.phase.w.s.pending != {}
  }

  /** The store's single writer, and the server's promise on a stream that is not a recovery: an early bookmark, if the code
      keeps it at all, names a version the consumer has caught up with, and resuming from it takes nothing behind the store. */
  ghost predicate Fair(c: World, st: State, i: Input) {
    && !i.Foreign?
    && (Early(st, i) && !i.annotated ==> Harmless(c, st, st.phase.w, i.version, Step(c, st, i).store))
  }

  ghost predicate Harmless(c: World, st: State, w: Watching, v: nat, store: Option<nat>) {
    CoveredUpTo(c, st, Some(v), w.s.pos) && NotRewound(c, st, store, Some(v))
  }

  /** Resuming from b takes nothing behind the stored version. */
  ghost predicate NotRewound(c: World, st: State, store: Option<nat>, b: Option<nat>) {
    store.Some? && b.Some? && b.value < store.value ==> NoRewind(c.h, b.value, store.value, st.audit.hw)
  }

  ghost predicate FairRun(c: World, inputs: seq<Input>) {
    inputs == [] ||
    (FairRun(c, inputs[..|inputs| - 1]) && Fair(c, Run(c, Init(c), inputs[..|inputs| - 1]), inputs[|inputs| - 1]))
  }

  /** No early bookmark at all. */
  predicate Polite(st: State, i: Input) {
    !i.Foreign? && !Early(st, i)
  }

  predicate PoliteRun(c: World, inputs: seq<Input>) {
    inputs == [] ||
    (PoliteRun(c, inputs[..|inputs| - 1]) && Polite(Run(c, Init(c), inputs[..|inputs| - 1]), inputs[|inputs| - 1]))
  }

  lemma {:induction false} PoliteIsFair(c: World, inputs: seq<Input>)
    requires PoliteRun(c, inputs)
    ensures FairRun(c, inputs)
    decreases |inputs|
  {
    if inputs != [] { PoliteIsFair(c, inputs[..|inputs| - 1]); }
  }

  ghost predicate CoveredUpTo(c: World, st: State, x: Option<nat>, top: nat) {
    x.Some? ==> x.value <= top && Covered(c.h, View(st.out), x.value, st.audit.hw, st.audit.ghosts.Keys, {})
  }

  /** Everything the consumer holds is what the server stored at some version it has shown. */
  ghost predicate Sighted(h: seq<Change>, view: Objects, hw: nat) {
    forall u :: u in view ==> SeenAlive(h, view, hw, u)
  }

  ghost predicate SeenAlive(h: seq<Change>, view: Objects, l: nat, u: Uid)
    requires u in view
  {
    exists w: nat :: w <= l && Look(StateAt(h, w), u) == Some(view[u])
  }

  /** A ghost is an object the consumer was shown alive at or before a snapshot's version at which it was gone. */
  ghost predicate GhostsExplained(h: seq<Change>, view: Objects, audit: Audit) {
    forall u :: u in audit.ghosts ==>
      u in view && audit.ghosts[u] <= audit.hw && u !in StateAt(h, audit.ghosts[u]) && SeenAlive(h, view, audit.ghosts[u], u)
  }

  ghost predicate Core(c: World, st: State) {
    && st.audit.hw <= |c.h|
    && Sighted(c.h, View(st.out), st.audit.hw)
    && GhostsExplained(c.h, View(st.out), st.audit)
    && (!st.audit.reopened ==> st.audit.ghosts == map[])
    && CoveredUpTo(c, st, st.store, st.audit.hw)
    && CoveredUpTo(c, st, st.rv, st.audit.hw)
  }

  /** u was changed on this stream. */
  ghost predicate TouchedSince(h: seq<Change>, start: nat, pos: nat, u: Uid) {
    exists k :: start <= k < pos && k < |h| && Touches(h[k], u)
  }

  ghost predicate StreamOk(c: World, st: State, w: Watching) {
    && w.start <= w.s.pos <= st.audit.hw
    && NotRewound(c, st, st.store, Some(w.s.pos))
    && CoveredUpTo(c, st, st.rv, w.s.pos)
    && CoveredUpTo(c, st, w.seen, w.s.pos)
    && w.s.pending <= StateAt(c.h, w.s.pos).Keys
    && Covered(c.h, View(st.out), w.s.pos, st.audit.hw, st.audit.ghosts.Keys, w.s.pending)
    && (w.s.pending != {} ==> w.s.pos == w.start && w.s.pos == st.audit.hw)
    && (!w.kind.Plain? ==> w.s.pos == st.audit.hw)
    && (forall u :: TouchedSince(c.h, w.start, w.s.pos, u) ==> Look(View(st.out), u) == Look(StateAt(c.h, w.s.pos), u))
    && NotRewound(c, st, st.store, if w.seen.Some? then w.seen else st.rv)
  }

  ghost predicate Safe(c: World, st: State) {
    && Core(c, st)
    && match st.phase
       case Streaming(w) => StreamOk(c, st, w)
       case Opening(at) => at == st.audit.hw
       case Down => true
       case Ended => true
       case _ => NotRewound(c, st, st.store, st.rv)
  }

  // ---- deliveries ---------------------------------------------------------------------------------------------

  /** Delivering the state of u at w, where w is no earlier than a covered version. */
  lemma UpToAfterDelivery(c: World, st: State, st': State, x: Option<nat>, top: nat, w: nat, u: Uid)
    requires CoveredUpTo(c, st, x, top) && top <= w <= st'.audit.hw <= |c.h| && st.audit.hw <= st'.audit.hw
    requires Look(View(st'.out), u) == Look(StateAt(c.h, w), u)
    requires forall u' :: u' != u ==> Look(View(st'.out), u') == Look(View(st.out), u')
    requires st'.audit.ghosts == st.audit.ghosts - {u}
    ensures CoveredUpTo(c, st', x, top)
  {
    if x.Some? {
      CoveredDeliver(c.h, View(st.out), View(st'.out), x.value, w, st.audit.hw, st'.audit.hw, st.audit.ghosts.Keys, {}, u);
      assert st'.audit.ghosts.Keys == st.audit.ghosts.Keys - {u};
      var none: set<Uid> := {};
      assert none - {u} == none;
    }
  }

  lemma CoreAfterDelivery(c: World, st: State, st': State, w: nat, u: Uid)
    requires Core(c, st) && w <= st'.audit.hw <= |c.h| && st.audit.hw <= st'.audit.hw
    requires CoveredUpTo(c, st', st.store, st'.audit.hw) && CoveredUpTo(c, st', st.rv, st'.audit.hw)
    requires Look(View(st'.out), u) == Look(StateAt(c.h, w), u)
    requires forall u' :: u' != u ==> Look(View(st'.out), u') == Look(View(st.out), u')
    requires st'.audit.ghosts == st.audit.ghosts - {u} && st'.audit.reopened == st.audit.reopened
    requires st'.store == st.store && st'.rv == st.rv
    ensures Core(c, st')
  {
    var view, view' := View(st.out), View(st'.out);
    forall u' | u' in view' ensures SeenAlive(c.h, view', st'.audit.hw, u') {
      if u' != u {
        assert Look(view', u') == Look(view, u');
        assert SeenAlive(c.h, view, st.audit.hw, u');
      } else {
        assert Look(StateAt(c.h, w), u) == Some(view'[u]);
      }
    }
    forall u' | u' in st'.audit.ghosts
      ensures u' in view' && st'.audit.ghosts[u'] <= st'.audit.hw && u' !in StateAt(c.h, st'.audit.ghosts[u'])
      ensures SeenAlive(c.h, view', st'.audit.ghosts[u'], u')
    {
      assert u' in st.audit.ghosts && Look(view', u') == Look(view, u');
      assert SeenAlive(c.h, view, st.audit.ghosts[u'], u');
    }
  }

  lemma EmitObjectSafe(c: World, st: State, w: Watching, u: Uid, e: Result<Entry, EntryError>)
    requires Safe(c, st) && st.phase == Streaming(w) && u in w.s.pending
    requires e.Ok? && e.value.uid == u && e.value.changeType != CTDelete && Some(e.value.data) == Look(StateAt(c.h, w.s.pos), u)
    ensures Safe(c, Emit(st, w.(s := w.s.(pending := w.s.pending - {u})), e))
  {
    var w' := w.(s := w.s.(pending := w.s.pending - {u}));
    var st' := Emit(st, w', e);
    ViewSnoc(st.out, e.value);
    var pos := w.s.pos;
    assert st'.audit.hw == st.audit.hw;
    UpToAfterDelivery(c, st, st', st.store, pos, pos, u);
    UpToAfterDelivery(c, st, st', st.rv, pos, pos, u);
    UpToAfterDelivery(c, st, st', w.seen, pos, pos, u);
    CoreAfterDelivery(c, st, st', pos, u);
    CoveredDeliver(c.h, View(st.out), View(st'.out), pos, pos, st.audit.hw, st.audit.hw, st.audit.ghosts.Keys, w.s.pending, u);
    assert st'.audit.ghosts.Keys == st.audit.ghosts.Keys - {u};
  }

  lemma TouchedStep(h: seq<Change>, start: nat, pos: nat, u: Uid)
    requires start <= pos < |h|
    ensures TouchedSince(h, start, pos + 1, u) <==> TouchedSince(h, start, pos, u) || Touches(h[pos], u)
  {
    if Touches(h[pos], u) { assert start <= pos < pos + 1 && Touches(h[pos], u); }
    if TouchedSince(h, start, pos, u) {
      var k :| start <= k < pos && k < |h| && Touches(h[k], u);
      assert start <= k < pos + 1;
    }
  }

  /** The entry made of the change at pos brings exactly that change to the view. */
  lemma ViewAfterChange(h: seq<Change>, out: seq<Entry>, pos: nat, e: Entry)
    requires pos < |h| && !h[pos].Elsewhere?
    requires e.uid == h[pos].obj.uid && e.data == h[pos].obj && (e.changeType == CTDelete <==> h[pos].Del?)
    ensures Look(View(out + [e]), e.uid) == Look(StateAt(h, pos + 1), e.uid)
    ensures forall u :: u != e.uid ==> Look(View(out + [e]), u) == Look(View(out), u)
  {
    ViewSnoc(out, e);
  }

  /** st' is st with the change at the stream's position delivered. */
  ghost predicate TookChange(c: World, st: State, w: Watching, st': State, u: Uid) {
    && w.s.pos < |c.h| && (forall u' :: Touches(c.h[w.s.pos], u') <==> u' == u)
    && Look(View(st'.out), u) == Look(StateAt(c.h, w.s.pos + 1), u)
    && (forall u' :: u' != u ==> Look(View(st'.out), u') == Look(View(st.out), u'))
    && st'.audit == st.audit.(hw := Max(st.audit.hw, w.s.pos + 1), ghosts := st.audit.ghosts - {u})
    && st'.store == st.store && st'.rv == st.rv
    && st'.phase.Streaming? && st'.phase.w.(cut := w.cut) == w.(s := w.s.(pos := w.s.pos + 1))
  }

  lemma EmitTakesChange(c: World, st: State, w: Watching, e: Result<Entry, EntryError>)
    requires w.s.pos < |c.h| && !c.h[w.s.pos].Elsewhere?
    requires e.Ok? && e.value.uid == c.h[w.s.pos].obj.uid && e.value.data == c.h[w.s.pos].obj
    requires e.value.changeType == CTDelete <==> c.h[w.s.pos].Del?
    ensures TookChange(c, st, w, Emit(st, w.(s := w.s.(pos := w.s.pos + 1)), e), e.value.uid)
  {
    ViewAfterChange(c.h, st.out, w.s.pos, e.value);
  }

  lemma RewoundLater(c: World, st: State, st': State, b: Option<nat>, b': Option<nat>)
    requires NotRewound(c, st, st.store, b) && st'.store == st.store && st.audit.hw <= st'.audit.hw
    requires b.Some? && b'.Some? && b.value <= b'.value
    ensures NotRewound(c, st', st'.store, b')
  {
    if st.store.Some? && b.value < st.store.value {
      NoRewindLater(c.h, b.value, b'.value, st.store.value, st.audit.hw, st'.audit.hw);
    }
  }

  /** The stored version may be ahead of a stream that was resumed from an older one; what the stream replays is then
      what the store's version has, or had again later. */
  lemma StoreAfterChange(c: World, st: State, w: Watching, st': State, u: Uid)
    requires Safe(c, st) && st.phase == Streaming(w) && w.s.pending == {} && TookChange(c, st, w, st', u)
    ensures CoveredUpTo(c, st', st.store, st'.audit.hw) && NotRewound(c, st', st.store, Some(w.s.pos + 1))
    ensures NotRewound(c, st', st.store, if w.seen.Some? then w.seen else st.rv)
  {
    var pos := w.s.pos;
    var resumed := if w.seen.Some? then w.seen else st.rv;
    RewoundLater(c, st, st', Some(pos), Some(pos + 1));
    if resumed.Some? { RewoundLater(c, st, st', resumed, resumed); }
    if st.store.Some? && st.store.value <= pos {
      UpToAfterDelivery(c, st, st', st.store, pos, pos + 1, u);
    } else if st.store.Some? {
      var s := st.store.value;
      assert Touches(c.h[pos], u) && HeldAgain(c.h, pos, s, st.audit.hw);
      var w' :| s <= w' <= st.audit.hw && Look(StateAt(c.h, w'), u) == Look(StateAt(c.h, pos + 1), u);
      UpToAfterDelivery(c, st, st', st.store, s, w', u);
    }
  }

  lemma ChangeSafe(c: World, st: State, w: Watching, st': State, u: Uid)
    requires Safe(c, st) && st.phase == Streaming(w) && w.s.pending == {} && TookChange(c, st, w, st', u)
    ensures Safe(c, st')
  {
    var pos := w.s.pos;
    StoreAfterChange(c, st, w, st', u);
    UpToAfterDelivery(c, st, st', st.rv, pos, pos + 1, u);
    UpToAfterDelivery(c, st, st', w.seen, pos, pos + 1, u);
    CoreAfterDelivery(c, st, st', pos + 1, u);
    assert st'.audit.ghosts.Keys == st.audit.ghosts.Keys - {u};
    CoveredAdvance(c.h, View(st.out), View(st'.out), pos, st.audit.hw, st.audit.ghosts.Keys, st'.audit.ghosts.Keys);
    ExactAfterChange(c, w.start, pos, View(st.out), View(st'.out), u);
  }

  lemma ExactAfterChange(c: World, start: nat, pos: nat, view: Objects, view': Objects, u: Uid)
    requires start <= pos < |c.h|
    requires forall u' :: TouchedSince(c.h, start, pos, u') ==> Look(view, u') == Look(StateAt(c.h, pos), u')
    requires forall u' :: Touches(c.h[pos], u') ==> u' == u
    requires Touches(c.h[pos], u) ==> Look(view', u) == Look(StateAt(c.h, pos + 1), u)
    requires forall u' :: u' != u || !Touches(c.h[pos], u) ==> Look(view', u') == Look(view, u')
    ensures forall u' :: TouchedSince(c.h, start, pos + 1, u') ==> Look(view', u') == Look(StateAt(c.h, pos + 1), u')
  {
    forall u' | TouchedSince(c.h, start, pos + 1, u') ensures Look(view', u') == Look(StateAt(c.h, pos + 1), u') {
      TouchedStep(c.h, start, pos, u');
      if !Touches(c.h[pos], u') {
        StateStep(c.h, pos, u');
        assert Look(view', u') == Look(view, u');
      }
    }
  }

  /** Coverage up to a version survives a later sighting. */
  lemma UpToLater(c: World, st: State, st': State, x: Option<nat>, top: nat, top': nat)
    requires CoveredUpTo(c, st, x, top) && top <= top' && st.audit.hw <= st'.audit.hw <= |c.h|
    requires st'.out == st.out && st.audit.ghosts.Keys <= st'.audit.ghosts.Keys
    ensures CoveredUpTo(c, st', x, top')
  {
    if x.Some? {
      CoveredWeaken(c.h, View(st.out), x.value, st.audit.hw, st'.audit.hw, st.audit.ghosts.Keys, st'.audit.ghosts.Keys, {});
    }
  }

  /** A revision elsewhere moves the stream on without a word to the client. */
  function Skipped(st: State, w: Watching): State {
    st.(phase := Streaming(w.(s := w.s.(pos := w.s.pos + 1))), audit := st.audit.(hw := Max(st.audit.hw, w.s.pos + 1)))
  }

  lemma SkipUpTo(c: World, st: State, w: Watching)
    requires Safe(c, st) && st.phase == Streaming(w) && w.s.pos < |c.h|
    ensures var st' := Skipped(st, w);
            && CoveredUpTo(c, st', st.store, st'.audit.hw) && CoveredUpTo(c, st', st.rv, w.s.pos + 1)
            && CoveredUpTo(c, st', w.seen, w.s.pos + 1) && NotRewound(c, st', st.store, Some(w.s.pos + 1))
            && NotRewound(c, st', st.store, if w.seen.Some? then w.seen else st.rv)
  {
    var st' := Skipped(st, w);
    var resumed := if w.seen.Some? then w.seen else st.rv;
    UpToLater(c, st, st', st.store, st.audit.hw, st'.audit.hw);
    RewoundLater(c, st, st', Some(w.s.pos), Some(w.s.pos + 1));
    if resumed.Some? { RewoundLater(c, st, st', resumed, resumed); }
    UpToLater(c, st, st', st.rv, w.s.pos, w.s.pos + 1);
    UpToLater(c, st, st', w.seen, w.s.pos, w.s.pos + 1);
  }

  lemma SkipSafe(c: World, st: State, w: Watching)
    requires Safe(c, st) && st.phase == Streaming(w) && w.s.pending == {} && w.s.pos < |c.h| && c.h[w.s.pos].Elsewhere?
    ensures Safe(c, Skipped(st, w))
  {
    var pos, g, view := w.s.pos, st.audit.ghosts.Keys, View(st.out);
    SkipUpTo(c, st, w);
    forall u ensures !Touches(c.h[pos], u) { }
    CoveredAdvance(c.h, view, view, pos, st.audit.hw, g, g);
    SightedLater(c.h, view, st.audit, Skipped(st, w).audit);
    ExactAfterChange(c, w.start, pos, view, view, 0);
  }

  lemma SightedLater(h: seq<Change>, view: Objects, a: Audit, a': Audit)
    requires Sighted(h, view, a.hw) && GhostsExplained(h, view, a)
    requires a.hw <= a'.hw && a'.ghosts == a.ghosts
    ensures Sighted(h, view, a'.hw) && GhostsExplained(h, view, a')
  {
    forall u | u in view ensures SeenAlive(h, view, a'.hw, u) {
      assert SeenAlive(h, view, a.hw, u);
    }
  }

  lemma RecordSafe(c: World, st: State, w: Watching, o: Outcome)
    requires Safe(c, st) && st.phase == Streaming(w) && w.s.pending == {}
    ensures Safe(c, Record(st, w, w.s.pos, o))
  {
  }

  // ---- streams ------------------------------------------------------------------------------------------------

  lemma StreamingSafe(c: World, st: State, w: Watching, i: Input)
    requires Safe(c, st) && Control(c, st) && Fair(c, st, i) && st.phase == Streaming(w)
    ensures Safe(c, StepStreaming(c, st, w, i))
  {
    match i {
      case SendObject(u) => ObjectSafe(c, st, w, i);
      case SendChange => NextChangeSafe(c, st, w, i);
      case SendBookmark(v, annotated, o) => BookmarkSafe(c, st, w, i);
      case _ => OtherSafe(c, st, w, i);
    }
  }

  lemma OtherSafe(c: World, st: State, w: Watching, i: Input)
    requires Safe(c, st) && st.phase == Streaming(w) && !i.SendObject? && !i.SendChange? && !i.SendBookmark?
    ensures Safe(c, StepStreaming(c, st, w, i))
  {
    StaySafe(c, st, w);
    match i {
      case Persist(o) =>
        if w.listing && w.s.pending == {} { RecordSafe(c, st.(phase := Streaming(w.(listing := false))), w.(listing := false), o); }
      case SendStale(o) => EndSafe(c, st, w, o);
      case CloseStream => EndSafe(c, st, w, Done);
      case _ =>
    }
  }

  lemma ObjectSafe(c: World, st: State, w: Watching, i: Input)
    requires Safe(c, st) && st.phase == Streaming(w) && i.SendObject?
    ensures Safe(c, StepStreaming(c, st, w, i))
  {
    var (s', e) := Serve(c.h, w.s, i);
    StaySafe(c, st, w);
    StateObjects(c.h, w.s.pos);
    if e.Some? {
      if w.listing { EmitObjectSafe(c, st, w, i.uid, NewEntry(Pointer(e.value.obj), STWatchList, CTSnapshot)); }
      else { EmitObjectSafe(c, st, w, i.uid, Converted(w.initial, Added, e.value.obj)); }
    }
  }

  lemma NextChangeSafe(c: World, st: State, w: Watching, i: Input)
    requires Safe(c, st) && st.phase == Streaming(w) && i.SendChange?
    ensures Safe(c, StepStreaming(c, st, w, i))
  {
    if w.listing || w.s.pending != {} || w.s.pos >= |c.h| {
      StaySafe(c, st, w);
    } else if c.h[w.s.pos].Elsewhere? {
      SkipSafe(c, st, w);
    } else {
      var typ, obj := EventTypeAt(c.h, w.s.pos), c.h[w.s.pos].obj;
      ConvertedEntry(w.initial, typ, obj);
      var e := Converted(w.initial, typ, obj);
      EmitTakesChange(c, st, w, e);
      ChangeSafe(c, st, w, Emit(st, w.(s := w.s.(pos := w.s.pos + 1)), e), e.value.uid);
    }
  }

  lemma ConvertedEntry(initial: bool, typ: WatchEventType, obj: ApiObject)
    requires typ.Added? || typ.Modified? || typ.Deleted?
    ensures var e := Converted(initial, typ, obj);
            e.Ok? && e.value.uid == obj.uid && e.value.data == obj && (e.value.changeType == CTDelete <==> typ.Deleted?)
  {
  }

  /** Nothing happened. */
  lemma StaySafe(c: World, st: State, w: Watching)
    requires Safe(c, st) && st.phase == Streaming(w)
    ensures st.(phase := Streaming(w)) == st
    ensures st.(phase := Streaming(w.(s := w.s)), audit := st.audit.(hw := Max(st.audit.hw, w.s.pos))) == st
  {
  }

  lemma EndSafe(c: World, st: State, w: Watching, o: Outcome)
    requires Safe(c, st) && st.phase == Streaming(w)
    ensures Safe(c, StreamEnded(st, w)) && Safe(c, Rejected(StreamEnded(st, w), o))
  {
  }

  lemma BookmarkSafe(c: World, st: State, w: Watching, i: Input)
    requires Safe(c, st) && Control(c, st) && Fair(c, st, i) && st.phase == Streaming(w) && i.SendBookmark?
    ensures Safe(c, StepStreaming(c, st, w, i))
  {
    var (s', e) := Serve(c.h, w.s, i);
    StaySafe(c, st, w);
    if !w.listing && e.Some? {
      if Early(st, i) {
        EarlySafe(c, st, w, i);
      } else {
        BookmarkAtPos(c, st, w, i);
        if w.initial && !i.annotated {
          OwedIrrelevant(c, st, w, s'.owed, w.initial);
        } else {
          OwedIrrelevant(c, st, w, s'.owed, false);
          KeptSafe(c, st, w, s'.owed, i.outcome);
        }
      }
    }
  }

  /** A harmless early bookmark. */
  lemma EarlySafe(c: World, st: State, w: Watching, i: Input)
    requires Safe(c, st) && Control(c, st) && st.phase == Streaming(w) && Early(st, i) && !i.annotated
    requires Harmless(c, st, w, i.version, StepStreaming(c, st, w, i).store)
    ensures Safe(c, StepStreaming(c, st, w, i))
  {
    assert StepStreaming(c, st, w, i) == Record(st, w, i.version, i.outcome);
  }

  lemma KeptSafe(c: World, st: State, w: Watching, owed: bool, o: Outcome)
    requires w.s.pending == {}
    requires Safe(c, st.(phase := Streaming(w.(s := w.s.(owed := owed), initial := false))))
    ensures Safe(c, Record(st, w.(s := w.s.(owed := owed), initial := false), w.s.pos, o))
  {
    var w' := w.(s := w.s.(owed := owed), initial := false);
    RecordSafe(c, st.(phase := Streaming(w')), w', o);
  }

  /** A bookmark that is recorded is one for the stream's position, with no object owed. */
  lemma BookmarkAtPos(c: World, st: State, w: Watching, i: Input)
    requires Control(c, st) && !Early(st, i) && st.phase == Streaming(w) && i.SendBookmark? && !w.listing
    requires Serve(c.h, w.s, i).1.Some?
    ensures var s' := Serve(c.h, w.s, i).0; s' == w.s.(owed := s'.owed)
    ensures Serve(c.h, w.s, i).1 == Some(BookmarkAt(i.version, i.annotated))
    ensures !(w.initial && !i.annotated) ==> w.s.pending == {} && i.version == w.s.pos
  {
  }

  lemma OwedIrrelevant(c: World, st: State, w: Watching, owed: bool, initial: bool)
    requires Safe(c, st) && st.phase == Streaming(w)
    ensures Safe(c, st.(phase := Streaming(w.(s := w.s.(owed := owed), initial := initial))))
  {
  }

  /** Opening a stream of all objects, from any state of the handler: the view it starts from may hold anything. */
  lemma OpenAllSafe(c: World, st: State, kind: WatcherKind, s: Stream)
    requires Core(c, st) && st.audit.hw <= s.pos <= |c.h| && s.pending == StateAt(c.h, s.pos).Keys
    requires NotRewound(c, st, st.store, st.rv)
    ensures Safe(c, Opened(c, st, kind, s, true))
  {
    var st' := Opened(c, st, kind, s, true);
    var view, l := View(st.out), s.pos;
    var g, g' := st.audit.ghosts.Keys, st'.audit.ghosts.Keys;
    var dropped := Dropped(c.h, view, l);
    assert st'.audit.ghosts == st.audit.ghosts + dropped;
    assert g <= g';
    forall u | u in view && u !in StateAt(c.h, l) ensures u in g' {
      assert u in dropped;
    }
    CoveredBySnapshot(c.h, view, l, g');
    UpToLater(c, st, st', st.store, st.audit.hw, l);
    UpToLater(c, st, st', st.rv, st.audit.hw, l);
    OpenAudit(c, st, st', l);
  }

  lemma OpenAudit(c: World, st: State, st': State, l: nat)
    requires Core(c, st) && st.audit.hw <= l && st'.out == st.out
    requires st'.audit == Audit(l, st.audit.ghosts + Dropped(c.h, View(st.out), l), st.audit.reopened || View(st.out) != map[])
    ensures Sighted(c.h, View(st.out), l) && GhostsExplained(c.h, View(st.out), st'.audit)
    ensures !st'.audit.reopened ==> st'.audit.ghosts == map[]
  {
    var view := View(st.out);
    SightedLater(c.h, view, st.audit, st.audit.(hw := l));
    forall u | u in st'.audit.ghosts
      ensures u in view && st'.audit.ghosts[u] <= l && u !in StateAt(c.h, st'.audit.ghosts[u])
      ensures SeenAlive(c.h, view, st'.audit.ghosts[u], u)
    {
      if u in Dropped(c.h, view, l) {
        assert st'.audit.ghosts[u] == l;
      } else {
        assert st'.audit.ghosts[u] == st.audit.ghosts[u];
      }
    }
  }

  lemma OpenPlainSafe(c: World, st: State, l: nat)
    requires Core(c, st) && Latest(c, st, l) && NotRewound(c, st, st.store, st.rv) && !st.gap
    ensures Safe(c, OpenPlain(c, st, l))
  {
    var o := RequestOptions(c, st);
    if o.resourceVersion == None {
      OpenAllSafe(c, st, Plain, OpenStream(c.h, o, l));
    }
  }

  lemma ConnectingSafe(c: World, st: State, i: Input)
    requires Safe(c, st) && Control(c, st) && st.phase.Connecting?
    ensures Safe(c, StepConnecting(c, st, i))
  {
    match i {
      case Open(l) =>
        if Latest(c, st, l) {
          if !st.gap { OpenPlainSafe(c, st, l); }
          else if st.watchList { OpenAllSafe(c, st, InitialEvents, OpenStream(c.h, SharedOptions(c.bookmarking, st.watchList), l)); }
        }
      case Listed(l) => if st.gap && !st.watchList && Latest(c, st, l) { LaterSafe(c, st, l); }
      case Refuse(e, o) => RetrySafe(c, st, e, false, o);
      case ListFailed(cause) => RetrySafe(c, st, ListError(cause), ListStops(cause), Done);
      case _ =>
    }
  }

  lemma OpeningSafe(c: World, st: State, at: nat, i: Input)
    requires Safe(c, st) && Control(c, st) && st.phase == Opening(at)
    ensures Safe(c, StepOpening(c, st, at, i))
  {
    match i {
      case Open(_) =>
        var s := OpenStream(c.h, WithResourceVersion(SharedOptions(c.bookmarking, st.watchList), Some(at)), at);
        OpenAllSafe(c, st, ListRecovery, s.(pending := StateAt(c.h, at).Keys));
      case Refuse(e, o) => RetrySafe(c, st, e, false, o);
      case _ =>
    }
  }

  lemma RetrySafe(c: World, st: State, e: ApiError, stop: bool, o: Outcome)
    requires Core(c, st) && NotRewound(c, st, st.store, st.rv)
    ensures Safe(c, RetryError(st, e, stop, o))
  {
    var st' := RetryError(st, e, stop, o);
    ClearedSafe(c, st, o);
    if st'.rv == st.rv && st'.store == st.store {
      QuietSafe(c, st, st'.phase, st.gap);
    } else {
      QuietSafe(c, st.(store := Cleared(st.store, st.rv, o), rv := None), st'.phase, true);
    }
  }

  lemma ClearedSafe(c: World, st: State, o: Outcome)
    requires Core(c, st)
    ensures Core(c, st.(store := Cleared(st.store, st.rv, o), rv := None))
  {
  }

  /** Outside a stream, what is safe does not depend on the phase. */
  lemma QuietSafe(c: World, st: State, p: Phase, gap: bool)
    requires Core(c, st) && NotRewound(c, st, st.store, st.rv) && !p.Streaming? && !p.Opening?
    ensures Safe(c, st.(phase := p, gap := gap))
  {
  }

  /** Having listed at a later version, without delivering anything yet. */
  lemma LaterSafe(c: World, st: State, l: nat)
    requires Core(c, st) && Latest(c, st, l) && st.gap && st.rv == None
    ensures Safe(c, st.(phase := Opening(l), audit := st.audit.(hw := l)))
  {
    UpToLater(c, st, st.(audit := st.audit.(hw := l)), st.store, st.audit.hw, l);
    SightedLater(c.h, View(st.out), st.audit, st.audit.(hw := l));
  }

  lemma StartupSafe(c: World, st: State, i: Input)
    requires Safe(c, st) && Control(c, st)
    requires st.phase.Checking? || st.phase.Resuming? || st.phase.Recovering? || Idle(st.phase)
    ensures Safe(c, StepStartup(c, st, i))
  {
    if i.Open? && Latest(c, st, i.version) {
      if st.phase.Resuming? { OpenPlainSafe(c, st, i.version); }
      else if st.phase.Recovering? && st.watchList {
        OpenAllSafe(c, st, InitialEvents, OpenStream(c.h, SharedOptions(c.bookmarking, st.watchList), i.version));
      }
    }
  }

  /** Inputs that concern the process as a whole. */
  predicate ProcessInput(st: State, i: Input) {
    FallsBack(st.watchList, i) || i.GateClosed? || i.Start? || i.Cancel? || i.Crash?
  }

  lemma ProcessSafe(c: World, st: State, i: Input)
    requires Safe(c, st) && ProcessInput(st, i)
    ensures Safe(c, Step(c, st, i))
  {
    WatchListIrrelevant(c, st);
    match i {
      case GateClosed =>
      case Refuse(_, _) =>
      case Start(_, _) =>
      case Cancel =>
      case Crash =>
    }
  }

  lemma WatchListIrrelevant(c: World, st: State)
    requires Safe(c, st)
    ensures Safe(c, st.(watchList := false))
  {
  }

  lemma StepKeepsSafe(c: World, st: State, i: Input)
    requires Safe(c, st) && Control(c, st) && Fair(c, st, i)
    ensures Safe(c, Step(c, st, i))
  {
    if ProcessInput(st, i) {
      ProcessSafe(c, st, i);
    } else {
      match st.phase {
        case Streaming(w) => StreamingSafe(c, st, w, i);
        case Connecting => ConnectingSafe(c, st, i);
        case Opening(at) => OpeningSafe(c, st, at, i);
        case _ => StartupSafe(c, st, i);
      }
    }
  }

  lemma {:induction false} RunIsSafe(c: World, inputs: seq<Input>)
    requires FairRun(c, inputs)
    ensures Safe(c, Run(c, Init(c), inputs)) && Control(c, Run(c, Init(c), inputs))
    decreases |inputs|
  {
    RunKeepsControl(c, inputs);
    if inputs != [] {
      var before := inputs[..|inputs| - 1];
      RunIsSafe(c, before);
      StepKeepsSafe(c, Run(c, Init(c), before), inputs[|inputs| - 1]);
    }
  }
}
