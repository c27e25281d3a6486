/** What the API server stores and what a consumer makes of the entries it receives.

    A version is the number of revisions the server has made. A revision changes one watched object, or something
    outside the watched resource (`Elsewhere`), so versions of one resource have gaps. */
module History {
  import opened Wrappers
  import opened Data

  datatype Change = Put(obj: ApiObject) | Del(obj: ApiObject) | Elsewhere

  type Objects = map<Uid, Object>

  function Look(m: Objects, u: Uid): Option<Object> {
    if u in m then Some(m[u]) else None
  }

  function Apply(m: Objects, c: Change): Objects {
    match c
    case Put(o) => m[o.uid := o]
    case Del(o) => m - {o.uid}
    case Elsewhere => m
  }

  /** The objects that exist at version v of h. */
  function StateAt(h: seq<Change>, v: nat): Objects {
    if v == 0 then map[]
    else if v > |h| then StateAt(h, v - 1)
    else Apply(StateAt(h, v - 1), h[v - 1])
  }

  /** Objects are stored under their own UID, and all are of the twelve kinds. */
  lemma {:induction false} StateObjects(h: seq<Change>, v: nat)
    ensures forall u :: u in StateAt(h, v) ==> StateAt(h, v)[u].uid == u && StateAt(h, v)[u].kind != Unsupported
    decreases v
  {
    if v > 0 { StateObjects(h, v - 1); }
  }

  predicate Touches(c: Change, u: Uid) {
    !c.Elsewhere? && c.obj.uid == u
  }

  /** A consumer folds the entries by UID: a deletion removes, anything else replaces. */
  function Deliver(view: Objects, e: Entry): Objects {
    if e.changeType == CTDelete then view - {e.uid} else view[e.uid := e.data]
  }

  function View(out: seq<Entry>): Objects {
    if out == [] then map[] else Deliver(View(out[..|out| - 1]), out[|out| - 1])
  }

  lemma ViewSnoc(out: seq<Entry>, e: Entry)
    ensures View(out + [e]) == Deliver(View(out), e)
  {
    assert (out + [e])[..|out|] == out;
  }

  /** The watch event the server sends for the change after version v. */
  function EventTypeAt(h: seq<Change>, v: nat): WatchEventType
    requires v < |h| && !h[v].Elsewhere?
  {
    if h[v].Del? then Deleted else if h[v].obj.uid in StateAt(h, v) then Modified else Added
  }

  function EntryOf(o: ApiObject, ct: ChangeType): Entry {
    Entry(o, o.uid, STWatchList, ct, TagOf(o.kind))
  }

  function ChangeTypeOf(typ: WatchEventType): ChangeType {
    match typ case Modified => CTUpdate case Deleted => CTDelete case _ => CTAdd
  }

  /** u is held at its state at some version from x to hw: it is at its state at x or later. */
  ghost predicate Fresh(h: seq<Change>, view: Objects, x: nat, hw: nat, u: Uid) {
    exists w :: x <= w <= hw && Look(view, u) == Look(StateAt(h, w), u)
  }

  /** The consumer has caught up with version x: outside `pending`, every object alive at x, and every UID at all that
      is not in `ghosts`, is held at its state at x or later. hw is the latest version the consumer saw anything of. */
  ghost predicate Covered(h: seq<Change>, view: Objects, x: nat, hw: nat, ghosts: set<Uid>, pending: set<Uid>) {
    && x <= hw <= |h|
    && forall u :: u !in pending && (u in StateAt(h, x) || u !in ghosts) ==> Fresh(h, view, x, hw, u)
  }

  lemma FreshAt(h: seq<Change>, view: Objects, x: nat, hw: nat, u: Uid, w: nat)
    requires x <= w <= hw && Look(view, u) == Look(StateAt(h, w), u)
    ensures Fresh(h, view, x, hw, u)
  {
  }

  /** Later sightings and more ghosts do not hurt. */
  lemma CoveredWeaken(h: seq<Change>, view: Objects, x: nat, hw: nat, hw': nat, ghosts: set<Uid>, ghosts': set<Uid>, pending: set<Uid>)
    requires Covered(h, view, x, hw, ghosts, pending) && hw <= hw' <= |h| && ghosts <= ghosts'
    ensures Covered(h, view, x, hw', ghosts', pending)
  {
    forall u | u !in pending && (u in StateAt(h, x) || u !in ghosts') ensures Fresh(h, view, x, hw', u) {
      assert Fresh(h, view, x, hw, u);
      var w :| x <= w <= hw && Look(view, u) == Look(StateAt(h, w), u);
      FreshAt(h, view, x, hw', u, w);
    }
  }

  /** Delivering u at its state at w keeps every version up to w covered. */
  lemma CoveredDeliver(h: seq<Change>, view: Objects, view': Objects, x: nat, w: nat, hw: nat, hw': nat,
                       ghosts: set<Uid>, pending: set<Uid>, u: Uid)
    requires Covered(h, view, x, hw, ghosts, pending)
    requires x <= w <= hw' <= |h| && hw <= hw'
    requires Look(view', u) == Look(StateAt(h, w), u)
    requires forall u' :: u' != u ==> Look(view', u') == Look(view, u')
    ensures Covered(h, view', x, hw', ghosts - {u}, pending - {u})
  {
    forall u' | u' !in pending - {u} && (u' in StateAt(h, x) || u' !in ghosts - {u}) ensures Fresh(h, view', x, hw', u') {
      if u' == u {
        FreshAt(h, view', x, hw', u', w);
      } else {
        assert Fresh(h, view, x, hw, u');
        var w' :| x <= w' <= hw && Look(view, u') == Look(StateAt(h, w'), u');
        assert Look(view', u') == Look(view, u');
        FreshAt(h, view', x, hw', u', w');
      }
    }
  }

  /** The change after version x only concerns the object it touches. */
  lemma StateStep(h: seq<Change>, x: nat, u: Uid)
    requires x < |h| && !Touches(h[x], u)
    ensures Look(StateAt(h, x + 1), u) == Look(StateAt(h, x), u)
    ensures u in StateAt(h, x + 1) <==> u in StateAt(h, x)
  {
  }

  lemma FreshNext(h: seq<Change>, view: Objects, x: nat, hw: nat, u: Uid)
    requires x < |h| && !Touches(h[x], u) && Fresh(h, view, x, hw, u)
    ensures Fresh(h, view, x + 1, Max(hw, x + 1), u)
  {
    var w :| x <= w <= hw && Look(view, u) == Look(StateAt(h, w), u);
    StateStep(h, x, u);
    FreshAt(h, view, x + 1, Max(hw, x + 1), u, Max(w, x + 1));
  }

  lemma FreshSame(h: seq<Change>, view: Objects, view': Objects, x: nat, hw: nat, u: Uid)
    requires Fresh(h, view, x, hw, u) && Look(view', u) == Look(view, u)
    ensures Fresh(h, view', x, hw, u)
  {
  }

  /** Taking in the change after x moves a covered position from x to x + 1. */
  lemma CoveredAdvance(h: seq<Change>, view: Objects, view': Objects, x: nat, hw: nat, ghosts: set<Uid>, ghosts': set<Uid>)
    requires Covered(h, view, x, hw, ghosts, {}) && x < |h|
    requires forall u :: Touches(h[x], u) ==> Look(view', u) == Look(StateAt(h, x + 1), u)
    requires forall u :: !Touches(h[x], u) ==> Look(view', u) == Look(view, u)
    requires forall u :: !Touches(h[x], u) ==> (u in ghosts' <==> u in ghosts)
    ensures Covered(h, view', x + 1, Max(hw, x + 1), ghosts', {})
  {
    var hw' := Max(hw, x + 1);
    forall u | u in StateAt(h, x + 1) || u !in ghosts' ensures Fresh(h, view', x + 1, hw', u) {
      if Touches(h[x], u) {
        FreshAt(h, view', x + 1, hw', u, x + 1);
      } else {
        StateStep(h, x, u);
        assert Fresh(h, view, x, hw, u);
        FreshNext(h, view, x, hw, u);
        assert Look(view', u) == Look(view, u);
        FreshSame(h, view, view', x + 1, hw', u);
      }
    }
  }

  /** A snapshot at l owes every object alive at l and loses sight of the held objects that are not. */
  lemma CoveredBySnapshot(h: seq<Change>, view: Objects, l: nat, ghosts: set<Uid>)
    requires l <= |h|
    requires forall u :: u in view && u !in StateAt(h, l) ==> u in ghosts
    ensures Covered(h, view, l, l, ghosts, StateAt(h, l).Keys)
  {
    forall u | u !in StateAt(h, l).Keys && (u in StateAt(h, l) || u !in ghosts) ensures Fresh(h, view, l, l, u) {
      assert Look(view, u) == None;
      FreshAt(h, view, l, l, u, l);
    }
  }

  /** With nothing seen beyond x, coverage is equality: exact on everything but ghosts, and ghosts are dead at x. */
  lemma CoveredExact(h: seq<Change>, view: Objects, x: nat, ghosts: set<Uid>)
    requires Covered(h, view, x, x, ghosts, {})
    ensures forall u :: u in StateAt(h, x) ==> u in view && view[u] == StateAt(h, x)[u]
    ensures forall u :: u in view && u !in StateAt(h, x) ==> u in ghosts
    ensures ghosts == {} ==> view == StateAt(h, x)
  {
    forall u | u in StateAt(h, x) || u !in ghosts ensures Look(view, u) == Look(StateAt(h, x), u) {
      assert Fresh(h, view, x, x, u);
    }
    forall u | u in StateAt(h, x) ensures u in view && view[u] == StateAt(h, x)[u] {
      assert Look(view, u) == Look(StateAt(h, x), u);
    }
    forall u | u !in StateAt(h, x) && u !in ghosts ensures u !in view {
      assert Look(view, u) == Look(StateAt(h, x), u);
    }
    if ghosts == {} {
      forall u ensures u in view <==> u in StateAt(h, x) {
        assert Look(view, u) == Look(StateAt(h, x), u);
      }
      assert view.Keys == StateAt(h, x).Keys;
    }
  }

  // ---- going back ---------------------------------------------------------------------------------------------

  /** The state that the change after k gives its object is also its state at some version from s to hw. */
  ghost predicate HeldAgain(h: seq<Change>, k: nat, s: nat, hw: nat)
    requires k < |h| && !h[k].Elsewhere?
  {
    exists w :: s <= w <= hw && Look(StateAt(h, w), h[k].obj.uid) == Look(StateAt(h, k + 1), h[k].obj.uid)
  }

  /** Replaying from v takes no object behind version s: nothing changed from v to s but what was changed back by hw. */
  ghost predicate NoRewind(h: seq<Change>, v: nat, s: nat, hw: nat) {
    forall k :: v <= k < s && k < |h| && !h[k].Elsewhere? ==> HeldAgain(h, k, s, hw)
  }

  lemma NoRewindLater(h: seq<Change>, v: nat, v': nat, s: nat, hw: nat, hw': nat)
    requires NoRewind(h, v, s, hw) && v <= v' && hw <= hw'
    ensures NoRewind(h, v', s, hw')
  {
    forall k | v' <= k < s && k < |h| && !h[k].Elsewhere? ensures HeldAgain(h, k, s, hw') {
      assert HeldAgain(h, k, s, hw);
      var w :| s <= w <= hw && Look(StateAt(h, w), h[k].obj.uid) == Look(StateAt(h, k + 1), h[k].obj.uid);
      assert w <= hw';
    }
  }

  // ---- resuming -----------------------------------------------------------------------------------------------

  /** What a stream opened at b has sent once it stands at p. */
  function Sent(h: seq<Change>, b: nat, p: nat): seq<Entry>
    requires b <= p <= |h|
  {
    if b == p then []
    else Sent(h, b, p - 1) +
         if h[p - 1].Elsewhere? then [] else [EntryOf(h[p - 1].obj, ChangeTypeOf(EventTypeAt(h, p - 1)))]
  }

  /** The entry of a change carries its object to the state after the change, and touches nothing else. */
  lemma DeliverChange(h: seq<Change>, view: Objects, x: nat)
    requires x < |h| && !h[x].Elsewhere?
    ensures var e := EntryOf(h[x].obj, ChangeTypeOf(EventTypeAt(h, x)));
            && Look(Deliver(view, e), h[x].obj.uid) == Look(StateAt(h, x + 1), h[x].obj.uid)
            && forall u :: u != h[x].obj.uid ==> Look(Deliver(view, e), u) == Look(view, u)
  {
  }

  /** Resuming at a covered version keeps coverage with the position, whatever was already seen beyond it. */
  lemma {:induction false} SentCovers(h: seq<Change>, out: seq<Entry>, b: nat, p: nat, hw: nat, ghosts: set<Uid>)
    requires b <= p <= |h| && Covered(h, View(out), b, hw, ghosts, {})
    ensures Covered(h, View(out + Sent(h, b, p)), p, Max(hw, p), ghosts, {})
    decreases p
  {
    if b == p {
      assert out + Sent(h, b, p) == out;
    } else {
      SentCovers(h, out, b, p - 1, hw, ghosts);
      var before := out + Sent(h, b, p - 1);
      if h[p - 1].Elsewhere? {
        assert Sent(h, b, p) == Sent(h, b, p - 1);
        CoveredAdvance(h, View(before), View(before), p - 1, Max(hw, p - 1), ghosts, ghosts);
      } else {
        var e := EntryOf(h[p - 1].obj, ChangeTypeOf(EventTypeAt(h, p - 1)));
        assert out + Sent(h, b, p) == before + [e];
        ViewSnoc(before, e);
        DeliverChange(h, View(before), p - 1);
        CoveredAdvance(h, View(before), View(before + [e]), p - 1, Max(hw, p - 1), ghosts, ghosts);
      }
    }
  }

  /** A run of connections: each resumes at some version and stands at some version when it breaks. */
  datatype Leg = Leg(from: nat, to: nat)

  /** The first connection starts at 0, and each later one resumes at a version the previous ones acknowledged: not
      after the position the previous one reached. */
  predicate Resumes(h: seq<Change>, legs: seq<Leg>) {
    && (forall i :: 0 <= i < |legs| ==> legs[i].from <= legs[i].to <= |h|)
    && (|legs| > 0 ==> legs[0].from == 0)
    && (forall i :: 0 < i < |legs| ==> legs[i].from <= legs[i - 1].to)
  }

  function AllSent(h: seq<Change>, legs: seq<Leg>): seq<Entry>
    requires forall i :: 0 <= i < |legs| ==> legs[i].from <= legs[i].to <= |h|
  {
    if legs == [] then [] else AllSent(h, legs[..|legs| - 1]) + Sent(h, legs[|legs| - 1].from, legs[|legs| - 1].to)
  }

  function Furthest(legs: seq<Leg>): nat {
    if legs == [] then 0 else Max(Furthest(legs[..|legs| - 1]), legs[|legs| - 1].to)
  }

  lemma CoveredEmpty(h: seq<Change>)
    ensures Covered(h, View([]), 0, 0, {}, {})
  {
    forall u ensures Fresh(h, View([]), 0, 0, u) { FreshAt(h, View([]), 0, 0, u, 0); }
  }

  lemma {:induction false} LegsCover(h: seq<Change>, legs: seq<Leg>)
    requires Resumes(h, legs) && |legs| > 0
    ensures Covered(h, View(AllSent(h, legs)), legs[|legs| - 1].to, Furthest(legs), {}, {})
    decreases |legs|
  {
    var rest := legs[..|legs| - 1];
    var last := legs[|legs| - 1];
    if rest == [] {
      CoveredEmpty(h);
      SentCovers(h, [], 0, last.to, 0, {});
      assert AllSent(h, legs) == [] + Sent(h, last.from, last.to);
      assert Furthest(rest) == 0;
    } else {
      LegsCover(h, rest);
      CoveredLower(h, View(AllSent(h, rest)), last.from, rest[|rest| - 1].to, Furthest(rest));
      SentCovers(h, AllSent(h, rest), last.from, last.to, Furthest(rest), {});
    }
  }

  /** Without ghosts, a covered version covers every earlier one. */
  lemma CoveredLower(h: seq<Change>, view: Objects, x: nat, y: nat, hw: nat)
    requires x <= y && Covered(h, view, y, hw, {}, {})
    ensures Covered(h, view, x, hw, {}, {})
  {
    forall u ensures Fresh(h, view, x, hw, u) {
      assert Fresh(h, view, y, hw, u);
      var w :| y <= w <= hw && Look(view, u) == Look(StateAt(h, w), u);
      FreshAt(h, view, x, hw, u, w);
    }
  }

  /** However often the connection breaks and wherever it resumes, once the last connection has passed every position
      reached before, the folded view is the one a single unbroken stream would have given: the server's state. */
  lemma ReplayConverges(h: seq<Change>, legs: seq<Leg>)
    requires Resumes(h, legs) && |legs| > 0 && Furthest(legs) == legs[|legs| - 1].to
    ensures View(AllSent(h, legs)) == StateAt(h, Furthest(legs))
    ensures View(AllSent(h, legs)) == View(Sent(h, 0, Furthest(legs)))
  {
    LegsCover(h, legs);
    CoveredExact(h, View(AllSent(h, legs)), Furthest(legs), {});
    var once := [Leg(0, Furthest(legs))];
    assert once[..0] == [];
    LegsCover(h, once);
    assert AllSent(h, once) == AllSent(h, []) + Sent(h, 0, Furthest(legs));
    assert AllSent(h, once) == Sent(h, 0, Furthest(legs));
    assert Furthest(once) == Max(Furthest([]), Furthest(legs));
    CoveredExact(h, View(AllSent(h, once)), Furthest(legs), {});
  }
}
