/** The promises of the watchlist Reader, over every run of ProtocolCoverage's assumptions. */
module ProtocolTheorems {
  import opened Wrappers
  import opened Data
  import opened History
  import opened Requests
  import opened Protocol
  import opened ProtocolControl
  import opened ProtocolCoverage
  import opened ProtocolGhosts
  import opened ProtocolEarly

  /** The consumer's view refines the server's state. Once a stream's initial objects are through, every object alive
      at the stream's position v is held at its state at v or later; when v is the latest version seen (always so on a
      recovery stream) it is held at exactly its state at v. Anything else the consumer holds is a ghost: an object it
      was shown alive at or before the version of a snapshot that no longer had it. There are none, and the view is then
      the server's state, if no stream of all objects was opened once the consumer held something. With a server that
      sends no early bookmarks at all a ghost noted up to v is gone at v; so when v is the latest version seen, the ghosts
      are exactly what the consumer holds too much, and the view is the server's state if and only if there are none. */
  lemma ConsumerView(c: World, inputs: seq<Input>)
    requires FairRun(c, inputs)
    requires var p := Run(c, Init(c), inputs).phase; p.Streaming? && p.w.s.pending == {}
    ensures var st := Run(c, Init(c), inputs);
            var view, v, hw := View(st.out), st.phase.w.s.pos, st.audit.hw;
            && v <= hw <= |c.h|
            && (forall u :: u in StateAt(c.h, v) ==> Fresh(c.h, view, v, hw, u))
            && (forall u :: u !in st.audit.ghosts ==> Fresh(c.h, view, v, hw, u))
            && (forall u :: u in st.audit.ghosts ==>
                  && u in view && u !in StateAt(c.h, st.audit.ghosts[u])
                  && SeenAlive(c.h, view, st.audit.ghosts[u], u))
    ensures var st := Run(c, Init(c), inputs);
            var view, v := View(st.out), st.phase.w.s.pos;
            && (!st.phase.w.kind.Plain? ==> v == st.audit.hw)
            && (v == st.audit.hw ==>
                  && (forall u :: u in StateAt(c.h, v) ==> u in view && view[u] == StateAt(c.h, v)[u])
                  && (forall u :: u in view && u !in StateAt(c.h, v) ==> u in st.audit.ghosts)
                  && (!st.audit.reopened ==> view == StateAt(c.h, v)))
            && (!st.audit.reopened ==> st.audit.ghosts == map[])
    ensures var st := Run(c, Init(c), inputs);
            var view, v := View(st.out), st.phase.w.s.pos;
            PoliteRun(c, inputs) ==>
              && (forall u :: u in st.audit.ghosts && st.audit.ghosts[u] <= v ==> u !in StateAt(c.h, v))
              && (v == st.audit.hw ==>
                    && (forall u :: u in view && u !in StateAt(c.h, v) <==> u in st.audit.ghosts)
                    && (view == StateAt(c.h, v) <==> st.audit.ghosts == map[]))
  {
    RunIsSafe(c, inputs);
    var st := Run(c, Init(c), inputs);
    if st.phase.w.s.pos == st.audit.hw { CoveredExact(c.h, View(st.out), st.audit.hw, st.audit.ghosts.Keys); }
    if PoliteRun(c, inputs) {
      RunGhosts(c, inputs);
      PoliteView(c, st, st.phase.w);
    }
  }

  lemma PoliteView(c: World, st: State, w: Watching)
    requires Safe(c, st) && GhostsOk(c, st) && st.phase == Streaming(w) && w.s.pending == {}
    ensures forall u :: u in st.audit.ghosts && st.audit.ghosts[u] <= w.s.pos ==> u !in StateAt(c.h, w.s.pos)
    ensures var view, v := View(st.out), w.s.pos;
            v == st.audit.hw ==>
              && (forall u :: u in view && u !in StateAt(c.h, v) <==> u in st.audit.ghosts)
              && (view == StateAt(c.h, v) <==> st.audit.ghosts == map[])
  {
    if w.s.pos == st.audit.hw { ExactButGhosts(c.h, View(st.out), st.audit.hw, st.audit.ghosts); }
  }

  lemma ExactButGhosts(h: seq<Change>, view: Objects, v: nat, ghosts: map<Uid, nat>)
    requires Covered(h, view, v, v, ghosts.Keys, {})
    requires forall u :: u in ghosts ==> u in view && u !in StateAt(h, v)
    ensures forall u :: u in StateAt(h, v) ==> u in view && view[u] == StateAt(h, v)[u]
    ensures forall u :: u in view && u !in StateAt(h, v) <==> u in ghosts
    ensures view == StateAt(h, v) <==> ghosts == map[]
  {
    CoveredExact(h, view, v, ghosts.Keys);
    if ghosts != map[] {
      assert ghosts.Keys != {};
      var u :| u in ghosts;
      assert u in view && u !in StateAt(h, v);
    }
  }

  /** Exactly when a deleted object is left over. Let a stream be through with its initial objects and as far as anything
      seen. The consumer holds an object that is gone if and only if, at some input, a stream of all objects opened at a
      version at which that object was gone while the consumer held it, and nothing was delivered of it since. So the
      view is the server's state if and only if that happened to no object. */
  lemma RecoveryLeavesGhosts(c: World, inputs: seq<Input>)
    requires PoliteRun(c, inputs)
    requires var st := Run(c, Init(c), inputs);
             st.phase.Streaming? && st.phase.w.s.pending == {} && st.phase.w.s.pos == st.audit.hw
    ensures var st := Run(c, Init(c), inputs);
            var view, v := View(st.out), st.phase.w.s.pos;
            && (forall u :: u in view && u !in StateAt(c.h, v) <==> Lost(c, inputs, u))
            && (view == StateAt(c.h, v) <==> forall u :: !Lost(c, inputs, u))
  {
    PoliteIsFair(c, inputs);
    ConsumerView(c, inputs);
    var st := Run(c, Init(c), inputs);
    forall u ensures u in st.audit.ghosts <==> Lost(c, inputs, u) { GhostsAreObjectsLostSightOf(c, inputs, u); }
    if st.audit.ghosts != map[] {
      assert st.audit.ghosts.Keys != {};
      var u :| u in st.audit.ghosts;
      assert Lost(c, inputs, u);
    }
  }

  /** Whatever version is in the store, in any state of any run and so after a crash anywhere: every object alive at it
      was delivered at its state at that version or later; and a stream resumed from it, once it has sent the changes
      up to p, has brought the view to p for every object, exactly so when p is not before anything seen earlier. */
  lemma SafeBookmark(c: World, inputs: seq<Input>, v: nat, p: nat)
    requires FairRun(c, inputs) && Run(c, Init(c), inputs).store == Some(v) && v <= p <= |c.h|
    ensures var st := Run(c, Init(c), inputs);
            && v <= st.audit.hw <= |c.h|
            && (forall u :: u in StateAt(c.h, v) ==> Fresh(c.h, View(st.out), v, st.audit.hw, u))
    ensures var st := Run(c, Init(c), inputs);
            var view := View(st.out + Sent(c.h, v, p));
            && (forall u :: u in StateAt(c.h, p) ==> Fresh(c.h, view, p, Max(st.audit.hw, p), u))
            && (p >= st.audit.hw ==>
                  && (forall u :: u in StateAt(c.h, p) ==> u in view && view[u] == StateAt(c.h, p)[u])
                  && (forall u :: u in view && u !in StateAt(c.h, p) ==> u in st.audit.ghosts)
                  && (!st.audit.reopened ==> view == StateAt(c.h, p)))
  {
    RunIsSafe(c, inputs);
    var st := Run(c, Init(c), inputs);
    SentCovers(c.h, st.out, v, p, st.audit.hw, st.audit.ghosts.Keys);
    if p >= st.audit.hw {
      CoveredExact(c.h, View(st.out + Sent(c.h, v, p)), p, st.audit.ghosts.Keys);
    }
  }

  /** An object deleted after a stream opened, and not put again, is gone from the view from its deletion on. */
  lemma NoResurrection(c: World, inputs: seq<Input>, k: nat, u: Uid)
    requires FairRun(c, inputs)
    requires var p := Run(c, Init(c), inputs).phase; p.Streaming? && p.w.start <= k < p.w.s.pos <= |c.h|
    requires c.h[k].Del? && c.h[k].obj.uid == u
    requires forall j :: k < j < Run(c, Init(c), inputs).phase.w.s.pos ==> !Touches(c.h[j], u)
    ensures u !in View(Run(c, Init(c), inputs).out)
  {
    RunIsSafe(c, inputs);
    var st := Run(c, Init(c), inputs);
    var w := st.phase.w;
    assert Touches(c.h[k], u);
    assert TouchedSince(c.h, w.start, w.s.pos, u);
    StaysGone(c.h, k, w.s.pos, u);
    assert Look(View(st.out), u) == None;
  }

  lemma {:induction false} StaysGone(h: seq<Change>, k: nat, p: nat, u: Uid)
    requires k < p <= |h| && h[k].Del? && h[k].obj.uid == u
    requires forall j :: k < j < p ==> !Touches(h[j], u)
    ensures u !in StateAt(h, p)
    decreases p
  {
    if p > k + 1 {
      StaysGone(h, k, p - 1, u);
      StateStep(h, p - 1, u);
    }
  }

  // ---- where the assumptions are needed -----------------------------------------------------------------------

  const EXAMPLE: ApiObject := Object(Pod, 7, PodSpec([], [], []), 0)

  function Watch(kind: WatcherKind, s: Stream, initial: bool, seen: Option<nat>, base: nat, cut: nat, start: nat): Phase {
    Streaming(Watching(kind, s, initial, false, seen, seen, start, base, cut))
  }

  lemma RunStep(c: World, inputs: seq<Input>, i: Input, st: State)
    requires inputs != [] && Run(c, Init(c), inputs[..|inputs| - 1]) == st && inputs[|inputs| - 1] == i
    ensures Run(c, Init(c), inputs) == Step(c, st, i)
  {
  }

  /** A first start without a bookmark, on a server whose first revision puts the example. */
  lemma FreshStart(c: World)
    requires c.bookmarking && |c.h| >= 1 && c.h[0] == Put(EXAMPLE)
    ensures StateAt(c.h, 1) == map[7 := EXAMPLE]
    ensures Run(c, Init(c), [Start(false, true), Open(1)])
         == EXAMPLE_OPENED
  {
    var started := State(true, Resuming, false, None, None, [], Audit(0, map[], false));
    assert Run(c, Init(c), []) == Init(c);
    RunStep(c, [Start(false, true)], Start(false, true), Init(c));
    assert [Start(false, true), Open(1)][..1] == [Start(false, true)];
    RunStep(c, [Start(false, true), Open(1)], Open(1), started);
    assert StateAt(c.h, 1) == Apply(StateAt(c.h, 0), c.h[0]);
    assert OpenStream(c.h, RequestOptions(c, started), 1) == Stream({7}, 1, true);
    assert Dropped(c.h, View([]), 1) == map[];
  }

  const EXAMPLE_OPENED := State(true, Watch(Plain, Stream({7}, 1, true), false, None, 0, 0, 1), false, None, None, [],
                                Audit(1, map[], false))
  const EXAMPLE_KEPT := EXAMPLE_OPENED.(phase := Watch(Plain, Stream({7}, 1, true), false, Some(1), 0, 0, 1), store := Some(1))

  const EXAMPLE_FAILED := EXAMPLE_OPENED.(phase := Streaming(EXAMPLE_OPENED.phase.w.(seen := Some(1))))

  /** The code persists a bookmark that a fresh stream sends first, and a crash then loses the object that was not yet
      sent. */
  lemma EarlyBookmarkOnFreshStreamIsUnsafe()
    ensures var c := World([Put(EXAMPLE)], true);
            var st := Run(c, Init(c), [Start(false, true), Open(1), SendBookmark(1, false, Done), Crash]);
            && st.store == Some(1) && EXAMPLE.uid in StateAt(c.h, 1)
            && !Fresh(c.h, View(st.out), 1, st.audit.hw, EXAMPLE.uid)
  {
    var c := World([Put(EXAMPLE)], true);
    FreshStart(c);
    var early := [Start(false, true), Open(1), SendBookmark(1, false, Done)];
    assert early[..2] == [Start(false, true), Open(1)];
    RunStep(c, early, SendBookmark(1, false, Done), EXAMPLE_OPENED);
    assert Run(c, Init(c), early) == EXAMPLE_KEPT;
    assert (early + [Crash])[..3] == early;
    RunStep(c, early + [Crash], Crash, EXAMPLE_KEPT);
    assert early + [Crash] == [Start(false, true), Open(1), SendBookmark(1, false, Done), Crash];
    ExampleNotFresh(c);
  }

  lemma ExampleNotFresh(c: World)
    requires |c.h| >= 1 && StateAt(c.h, 1) == map[7 := EXAMPLE]
    ensures !Fresh(c.h, View([]), 1, 1, 7)
  {
    assert Look(StateAt(c.h, 1), 7) == Some(EXAMPLE) != Look(View([]), 7);
  }

  lemma ExampleLoses(c: World)
    requires c == World([Put(EXAMPLE)], true) && StateAt(c.h, 1) == map[7 := EXAMPLE]
    ensures var st := Run(c, EXAMPLE_FAILED, [CloseStream, Open(1), SendBookmark(1, false, Done)]); st.out == [] && !Lossless(c, st)
  {
    ExampleNotFresh(c);
    assert 7 in StateAt(c.h, 1) && Control(c, EXAMPLE_FAILED);
    UncoveredLoses(c, EXAMPLE_FAILED, EXAMPLE_FAILED.phase.w, 1);
  }

  /** The same bookmark loses the object even when the store refuses it: the handler resumes from it when the stream ends,
      and the next stream's first bookmark, which no rule forbids, is stored. */
  lemma RefusedEarlyBookmarkIsUnsafe()
    ensures var c := World([Put(EXAMPLE)], true);
            var st := Run(c, Init(c), [Start(false, true), Open(1), SendBookmark(1, false, Failed),
                                       CloseStream, Open(1), SendBookmark(1, false, Done)]);
            st.out == [] && !Lossless(c, st)
  {
    var c := World([Put(EXAMPLE)], true);
    FreshStart(c);
    var early := [Start(false, true), Open(1), SendBookmark(1, false, Failed)];
    var rest := [CloseStream, Open(1), SendBookmark(1, false, Done)];
    assert early[..2] == [Start(false, true), Open(1)];
    RunStep(c, early, SendBookmark(1, false, Failed), EXAMPLE_OPENED);
    assert Run(c, Init(c), early) == EXAMPLE_FAILED;
    ExampleLoses(c);
    RunConcat(c, Init(c), early, rest);
    assert early + rest == [Start(false, true), Open(1), SendBookmark(1, false, Failed), CloseStream, Open(1), SendBookmark(1, false, Done)];
  }

  /** Ghosts are real: an object deleted while a recovery was due stays in the view although the recovery stream is
      complete and caught up with everything the server stores. */
  lemma RecoveryGhostExample()
    ensures var c := World([Put(EXAMPLE), Del(EXAMPLE)], true);
            var st := Run(c, Init(c), [Start(false, true), Open(1), SendObject(7), SendStale(Done), Open(2)]);
            && st.phase.Streaming? && st.phase.w.s.pending == {} && st.phase.w.s.pos == |c.h|
            && EXAMPLE.uid in View(st.out) && EXAMPLE.uid !in StateAt(c.h, |c.h|)
  {
    var c := World([Put(EXAMPLE), Del(EXAMPLE)], true);
    ExampleRejected(c);
    var before := [Start(false, true), Open(1), SendObject(7), SendStale(Done)];
    assert (before + [Open(2)])[..4] == before;
    RunStep(c, before + [Open(2)], Open(2), EXAMPLE_REJECTED);
    assert before + [Open(2)] == [Start(false, true), Open(1), SendObject(7), SendStale(Done), Open(2)];
    RecoversWithout(c);
  }

  const EXAMPLE_SENT := State(true, Watch(Plain, Stream({}, 1, true), false, None, 0, 0, 1), false, None, None,
                              [EntryOf(EXAMPLE, CTAdd)], Audit(1, map[], false))
  const EXAMPLE_REJECTED := EXAMPLE_SENT.(phase := Connecting, gap := true)

  lemma ExampleRejected(c: World)
    requires c == World([Put(EXAMPLE), Del(EXAMPLE)], true)
    ensures Run(c, Init(c), [Start(false, true), Open(1), SendObject(7), SendStale(Done)]) == EXAMPLE_REJECTED
  {
    FreshStart(c);
    var three := [Start(false, true), Open(1), SendObject(7)];
    assert three[..2] == [Start(false, true), Open(1)];
    RunStep(c, three, SendObject(7), EXAMPLE_OPENED);
    SendsExample(c, EXAMPLE_OPENED, EXAMPLE_SENT);
    assert (three + [SendStale(Done)])[..3] == three;
    RunStep(c, three + [SendStale(Done)], SendStale(Done), EXAMPLE_SENT);
    assert three + [SendStale(Done)] == [Start(false, true), Open(1), SendObject(7), SendStale(Done)];
  }

  lemma RecoversWithout(c: World)
    requires c == World([Put(EXAMPLE), Del(EXAMPLE)], true)
    ensures StateAt(c.h, 2) == map[] && 7 in View(EXAMPLE_SENT.out)
    ensures var st := Step(c, EXAMPLE_REJECTED, Open(2));
            && st.phase.Streaming? && st.phase.w.s.pending == {} && st.phase.w.s.pos == 2 && st.out == EXAMPLE_SENT.out
  {
    ViewSnoc([], EntryOf(EXAMPLE, CTAdd));
    assert [] + [EntryOf(EXAMPLE, CTAdd)] == EXAMPLE_SENT.out;
    assert StateAt(c.h, 1) == Apply(StateAt(c.h, 0), c.h[0]);
    assert StateAt(c.h, 2) == Apply(StateAt(c.h, 1), c.h[1]) == map[];
  }

  lemma SendsExample(c: World, st: State, st': State)
    requires |c.h| >= 1 && StateAt(c.h, 1) == map[7 := EXAMPLE]
    requires st.phase == Watch(Plain, Stream({7}, 1, true), false, None, 0, 0, 1) && st.audit == Audit(1, map[], false) && st.out == []
    requires st' == st.(phase := Watch(Plain, Stream({}, 1, true), false, None, 0, 0, 1), out := [EntryOf(EXAMPLE, CTAdd)])
    ensures Step(c, st, SendObject(7)) == st'
  {
    var s := Stream({7}, 1, true);
    assert s.pending - {7} == {};
    assert Serve(c.h, s, SendObject(7)) == (s.(pending := {}), Some(Change(Added, EXAMPLE)));
    assert st.audit.ghosts - {7} == map[];
  }

  const GATE_OPENED := State(true, Streaming(NewWatching(Plain, Stream({}, 1, true), 0)), false, None, None, [], Audit(1, map[], false))
  const GATE_STORED := GATE_OPENED.(phase := Watch(Plain, Stream({}, 1, false), false, Some(1), 0, 0, 1), store := Some(1))
  const GATE_WAITING := GATE_STORED.(phase := Connecting, rv := Some(1))

  lemma GateOpens(c: World)
    requires c == World([Elsewhere], true)
    ensures Run(c, Init(c), [Start(false, true), Open(1)]) == GATE_OPENED
  {
    var started := State(true, Resuming, false, None, None, [], Audit(0, map[], false));
    assert Run(c, Init(c), []) == Init(c);
    RunStep(c, [Start(false, true)], Start(false, true), Init(c));
    assert [Start(false, true), Open(1)][..1] == [Start(false, true)];
    RunStep(c, [Start(false, true), Open(1)], Open(1), started);
    assert StateAt(c.h, 1) == StateAt(c.h, 0) == map[];
    assert OpenStream(c.h, RequestOptions(c, started), 1) == Stream({}, 1, true);
    assert Dropped(c.h, View([]), 1) == map[];
  }

  lemma GateSteps(c: World)
    requires c == World([Elsewhere], true)
    ensures Step(c, GATE_OPENED, SendBookmark(1, true, Done)) == GATE_STORED
    ensures Step(c, GATE_STORED, CloseStream) == GATE_WAITING
    ensures Step(c, GATE_WAITING, GateClosed) == GATE_WAITING.(watchList := false)
  {
  }

  lemma GateFallsBack(c: World)
    requires c == World([Elsewhere], true)
    ensures Run(c, GATE_OPENED, [SendBookmark(1, true, Done), CloseStream, GateClosed]) == GATE_WAITING.(watchList := false)
  {
    GateSteps(c);
    var a, b := [SendBookmark(1, true, Done)], [SendBookmark(1, true, Done), CloseStream];
    assert [] + a == a && a + [CloseStream] == b && b + [GateClosed] == [SendBookmark(1, true, Done), CloseStream, GateClosed];
    RunSnoc(c, GATE_OPENED, [], SendBookmark(1, true, Done));
    RunSnoc(c, GATE_OPENED, a, CloseStream);
    RunSnoc(c, GATE_OPENED, b, GateClosed);
  }

  lemma GateRun(c: World)
    requires c == World([Elsewhere], true)
    ensures Run(c, Init(c), [Start(false, true), Open(1), SendBookmark(1, true, Done), CloseStream, GateClosed])
         == GATE_WAITING.(watchList := false)
  {
    GateOpens(c);
    GateFallsBack(c);
    var a, b := [Start(false, true), Open(1)], [SendBookmark(1, true, Done), CloseStream, GateClosed];
    RunConcat(c, Init(c), a, b);
    assert a + b == [Start(false, true), Open(1), SendBookmark(1, true, Done), CloseStream, GateClosed];
  }

  /** A run in which a feature gate reply takes the bookmark: after the fallback, a server that still answers so makes the
      Reader clear the version it asks to resume from. */
  lemma GateReplyExample()
    ensures var c := World([Elsewhere], true);
            var st := Run(c, Init(c), [Start(false, true), Open(1), SendBookmark(1, true, Done), CloseStream, GateClosed]);
            st.store == Some(1) && Step(c, st, Refuse(WatchListGate, Done)).store == None
  {
    var c := World([Elsewhere], true);
    GateRun(c);
  }
}
