/** The stages' own loops, running inside the network while everything else in it goes on. Each loop is proved to make
    exactly its stage's moves, so what is proved of every interleaving of moves holds of these loops. */
module Stages {
  import opened Wrappers
  import opened Data
  import opened Safety
  import opened Routing
  import opened Pipeline
  import opened PipelineFates

  datatype Stage = Preprocessing | Scrubbing | Routes

  predicate Own(s: Stage, m: Move) {
    match s
    case Preprocessing => m.PreTake? || m.PrePut? || m.PreClose?
    case Scrubbing => m.SafeTake? || m.SafePut? || m.SafeClose?
    case Routes => m.RouterTake? || m.RouterPush? || m.RouterClose?
  }

  predicate SameOut(o: Out, o': Out) {
    o'.sent == o.sent && o'.drops == o.drops && o'.closes == o.closes
  }

  /** What only the stage itself changes: its own variables, and what has been put on its output and taken from its input. */
  predicate Private(s: Stage, n: Net, n': Net) {
    match s
    case Preprocessing =>
      && n'.preHand == n.preHand && n'.preDone == n.preDone && n'.taken == n.taken && n.entered <= n'.entered
      && n'.given + n'.mid == n.given + n.mid
    case Scrubbing =>
      && n'.safeHand == n.safeHand && n'.safeDone == n.safeDone && n'.given == n.given
      && n'.routed + n'.routerIn == n.routed + n.routerIn
    case Routes =>
      && n'.routed == n.routed && n'.next == n.next && n'.closing == n.closing && |n'.outs| == |n.outs|
      && forall k :: 0 <= k < |n.outs| ==> SameOut(n.outs[k], n'.outs[k])
  }

  lemma OthersThanPreprocessing(c: Config, n: Net, m: Move)
    requires !Own(Preprocessing, m) && c.procs != []
    ensures Private(Preprocessing, n, Step(c, n, m))
  {
    if m.SafeTake? && n.mid != [] { Moved(n.given, n.mid); }
  }

  lemma OthersThanScrubbing(c: Config, n: Net, m: Move)
    requires !Own(Scrubbing, m)
    ensures Private(Scrubbing, n, Step(c, n, m))
  {
    if m.RouterTake? && n.routerIn != [] { Moved(n.routed, n.routerIn); }
  }

  lemma OthersThanRoutes(c: Config, n: Net, m: Move)
    requires !Own(Routes, m)
    ensures Private(Routes, n, Step(c, n, m))
  {
  }

  lemma Moved(a: seq<Entry>, b: seq<Entry>)
    requires b != []
    ensures (a + [b[0]]) + b[1..] == a + b
  {
    assert [b[0]] + b[1..] == b;
  }

  lemma OthersMove(c: Config, s: Stage, n: Net, m: Move)
    requires !Own(s, m) && (s.Preprocessing? ==> c.procs != [])
    ensures Private(s, n, Step(c, n, m))
  {
    match s {
      case Preprocessing => OthersThanPreprocessing(c, n, m);
      case Scrubbing => OthersThanScrubbing(c, n, m);
      case Routes => OthersThanRoutes(c, n, m);
    }
  }

  /** The pipeline with all that is going to happen in it. */
  class Network {
    const c: Config
    ghost const all: seq<Move>
    var moves: seq<Move>
    var net: Net
    ghost var done: seq<Move>

    ghost predicate Traced()
      reads this
    {
      done + moves == all && net == Run(c, done)
    }

    constructor (c: Config, moves: seq<Move>)
      ensures Traced() && this.c == c && all == this.moves == moves && net == Start(c) && done == []
    {
      this.c, this.moves, all, net, done := c, moves, moves, Start(c), [];
    }

    /** The next move, by whichever stage, reader or processor. */
    method Take() returns (m: Move, before: Net)
      requires Traced() && moves != []
      modifies this`moves, this`net, this`done
      ensures Traced() && moves == old(moves)[1..] && m == old(moves)[0]
      ensures before == old(net) && net == Step(c, before, m) && ShapeOk(c, before)
    {
      m, before := moves[0], net;
      RunMove(c, all, done, moves);
      RunShape(c, done);
      net, done, moves := Step(c, net, m), done + [m], moves[1..];
    }

    /** Let the others move until one of the stage's own moves takes effect; None if everything has happened before.
        `before` is the network just before that move. */
    method Turn(s: Stage) returns (m: Option<Move>, before: Net)
      requires Traced() && (s.Preprocessing? ==> c.procs != [])
      modifies this`moves, this`net, this`done
      ensures Traced() && |moves| <= |old(moves)| && Private(s, old(net), before)
      ensures m.None? ==> moves == [] && net == before
      ensures m.Some? ==>
                && |moves| < |old(moves)| && Own(s, m.value) && ShapeOk(c, before)
                && net == Step(c, before, m.value) && net != before
    {
      m, before := None, net;
      while moves != []
        invariant Traced() && |moves| <= |old(moves)| && Private(s, old(net), net) && before == net
        decreases |moves|
      {
        var next;
        next, before := Take();
        if Own(s, next) {
          if net != before { return Some(next), before; }
        } else {
          OthersMove(c, s, before, next);
          PrivateAgain(s, old(net), before, net);
        }
        before := net;
      }
    }
  }

  lemma RunMove(c: Config, all: seq<Move>, done: seq<Move>, moves: seq<Move>)
    requires done + moves == all && moves != []
    ensures done + [moves[0]] + moves[1..] == all
    ensures Run(c, done + [moves[0]]) == Step(c, Run(c, done), moves[0])
  {
    assert (done + [moves[0]])[..|done|] == done && [moves[0]] + moves[1..] == moves;
  }

  lemma PrivateAgain(s: Stage, a: Net, b: Net, n: Net)
    requires Private(s, a, b) && Private(s, b, n)
    ensures Private(s, a, n)
  {
    if s.Routes? {
      forall k | 0 <= k < |a.outs| ensures SameOut(a.outs[k], n.outs[k]) {
        assert SameOut(a.outs[k], b.outs[k]) && SameOut(b.outs[k], n.outs[k]);
      }
    }
  }

  // ---- preprocessing ------------------------------------------------------------------------------------------

  /** What a preprocessing move that takes effect comes to, for a stage that holds nothing and for one that holds e. */
  lemma PreMoves(c: Config, n: Net, m: Move)
    requires c.procs != [] && Own(Preprocessing, m) && ShapeOk(c, n) && !n.preDone && Step(c, n, m) != n
    ensures n.preHand.None? && !m.PreClose? ==>
              && n.taken < |n.entered|
              && Step(c, n, m) == n.(input := n.input[1..], taken := n.taken + 1, preHand := Processed(c.procs, n.taken, n.entered[n.taken]))
    ensures n.preHand.None? && m.PreClose? ==> Step(c, n, m) == n.(preDone := true)
    ensures n.preHand.Some? ==> n.mid == [] && Step(c, n, m) == n.(preHand := None, mid := [n.preHand.value])
  {
  }

  /** How far the loop has come: it received the first entries the readers sent and sent on what they came to, all of which
      safety has received after `base`, or it waits for safety. */
  ghost predicate Preprocessed(w: Network, got: seq<Entry>, sent: seq<Entry>, base: seq<Entry>)
    reads w
  {
    && w.Traced() && w.net.taken == |got| && got <= w.net.entered
    && sent + ToSeq(w.net.preHand) == PreprocessAll(w.c.procs, 0, got)
    && w.net.given + w.net.mid == base + sent
  }

  lemma GotOneMore(procs: seq<Processor>, got: seq<Entry>, sent: seq<Entry>, e: Entry)
    requires sent == PreprocessAll(procs, 0, got)
    ensures sent + ToSeq(Processed(procs, |got|, e)) == PreprocessAll(procs, 0, got + [e])
  {
    assert (got + [e])[..|got|] == got;
  }

  /** for entry := range in: the next entry, or None when the channel is closed and empty, or everything has happened. */
  method NextInput(w: Network, ghost got: seq<Entry>, ghost sent: seq<Entry>, ghost base: seq<Entry>) returns (e: Option<Entry>)
    requires w.c.procs != [] && w.net.preHand == None && !w.net.preDone && Preprocessed(w, got, sent, base)
    modifies w`moves, w`net, w`done
    ensures |w.moves| <= |old(w.moves)|
    ensures e.None? ==> (w.moves == [] || w.net.preDone) && Preprocessed(w, got, sent, base)
    ensures e.Some? ==>
              && |w.moves| < |old(w.moves)| && !w.net.preDone && w.net.preHand == Processed(w.c.procs, |got|, e.value)
              && Preprocessed(w, got + [e.value], sent, base)
  {
    var m, before := w.Turn(Preprocessing);
    if m.None? { return None; }
    PreMoves(w.c, before, m.value);
    if m.value.PreClose? { return None; }
    e := Some(before.input[0]);
    assert sent + [] == sent;
    GotOneMore(w.c.procs, got, sent, e.value);
  }

  /** out <- entry */
  method PutMid(w: Network, e: Entry, ghost got: seq<Entry>, ghost sent: seq<Entry>, ghost base: seq<Entry>) returns (ok: bool)
    requires w.c.procs != [] && w.net.preHand == Some(e) && !w.net.preDone && Preprocessed(w, got, sent, base)
    modifies w`moves, w`net, w`done
    ensures |w.moves| <= |old(w.moves)| && !w.net.preDone
    ensures if ok then w.net.preHand == None && Preprocessed(w, got, sent + [e], base)
            else w.moves == [] && Preprocessed(w, got, sent, base)
  {
    var m, before := w.Turn(Preprocessing);
    ok := m.Some?;
    if ok {
      PreMoves(w.c, before, m.value);
      assert before.given + [] == before.given && base + (sent + [e]) == (base + sent) + [e];
      assert (sent + [e]) + [] == sent + [e];
    }
  }

  /** preprocess's run: `got` is what it received, in the order the readers sent it, and `sent` what it sent on, all of
      which is what safety has received and what waits for it. */
  method RunPreprocess(w: Network) returns (ghost got: seq<Entry>, sent: seq<Entry>)
    requires w.Traced() && w.c.procs != [] && w.net.preHand == None && !w.net.preDone && w.net.taken == 0
    modifies w`moves, w`net, w`done
    ensures Preprocessed(w, got, sent, old(w.net.given + w.net.mid)) && (w.moves == [] || w.net.preDone)
  {
    got, sent := [], [];
    ghost var base := w.net.given + w.net.mid;
    var at := 0;
    while true
      invariant w.net.preHand == None && !w.net.preDone && at == |got| && Preprocessed(w, got, sent, base)
      decreases |w.moves|
    {
      var entry := NextInput(w, got, sent, base);
      if entry.None? { return; }
      var r := ProcessEntry(w.c.procs, at, entry.value);
      got, at := got + [entry.value], at + 1;
      if r.Some? {
        var ok := PutMid(w, r.value, got, sent, base);
        if !ok { return; }
        sent := sent + [r.value];
      }
    }
  }

  // ---- scrubbing ----------------------------------------------------------------------------------------------

  lemma SafeMoves(c: Config, n: Net, m: Move)
    requires Own(Scrubbing, m) && ShapeOk(c, n) && !n.safeDone && Step(c, n, m) != n
    ensures n.safeHand.None? && !m.SafeClose? ==>
              && (if c.procs == [] then n.input else n.mid) != []
              && var e := if c.procs == [] then n.input[0] else n.mid[0];
                 var n' := Step(c, n, m);
                 && n'.given == n.given + [e] && n'.safeHand == Scrub(e) && !n'.safeDone
                 && n'.routed == n.routed && n'.routerIn == n.routerIn
    ensures n.safeHand.None? && m.SafeClose? ==> Step(c, n, m) == n.(safeDone := true)
    ensures n.safeHand.Some? ==> n.routerIn == [] && Step(c, n, m) == n.(safeHand := None, routerIn := [n.safeHand.value])
  {
  }

  method NextGiven(w: Network) returns (e: Option<Entry>)
    requires w.Traced() && w.net.safeHand == None && !w.net.safeDone
    modifies w`moves, w`net, w`done
    ensures w.Traced() && |w.moves| <= |old(w.moves)|
    ensures w.net.routed + w.net.routerIn == old(w.net.routed + w.net.routerIn)
    ensures e.None? ==> (w.moves == [] || w.net.safeDone) && w.net.safeHand == None && w.net.given == old(w.net.given)
    ensures e.Some? ==>
              && |w.moves| < |old(w.moves)| && !w.net.safeDone && w.net.given == old(w.net.given) + [e.value]
              && w.net.safeHand == Scrub(e.value)
  {
    var m, before := w.Turn(Scrubbing);
    if m.None? { return None; }
    SafeMoves(w.c, before, m.value);
    if m.value.SafeClose? { return None; }
    e := Some(if w.c.procs == [] then before.input[0] else before.mid[0]);
  }

  method PutRouter(w: Network, e: Entry) returns (ok: bool)
    requires w.Traced() && w.net.safeHand == Some(e) && !w.net.safeDone
    modifies w`moves, w`net, w`done
    ensures w.Traced() && |w.moves| <= |old(w.moves)| && w.net.given == old(w.net.given) && !w.net.safeDone
    ensures w.net.routed + w.net.routerIn == old(w.net.routed + w.net.routerIn) + if ok then [e] else []
    ensures if ok then w.net.safeHand == None else w.net.safeHand == Some(e) && w.moves == []
  {
    var m, before := w.Turn(Scrubbing);
    ok := m.Some?;
    if ok {
      SafeMoves(w.c, before, m.value);
      assert before.routed + [] == before.routed;
    }
  }

  /** safety's run: likewise, `got` is what it received and `sent` is all that the router has received and what waits for
      it. */
  method RunSafety(w: Network) returns (ghost got: seq<Entry>, sent: seq<Entry>)
    requires w.Traced() && w.net.safeHand == None && !w.net.safeDone
    modifies w`moves, w`net, w`done
    ensures w.Traced() && (w.moves == [] || w.net.safeDone)
    ensures sent + ToSeq(w.net.safeHand) == ScrubAll(got)
    ensures w.net.given == old(w.net.given) + got
    ensures w.net.routed + w.net.routerIn == old(w.net.routed + w.net.routerIn) + sent
  {
    got, sent := [], [];
    while true
      invariant w.Traced() && w.net.safeHand == None && !w.net.safeDone && sent == ScrubAll(got)
      invariant w.net.given == old(w.net.given) + got
      invariant w.net.routed + w.net.routerIn == old(w.net.routed + w.net.routerIn) + sent
      decreases |w.moves|
    {
      var entry := NextGiven(w);
      if entry.None? { return; }
      var r := Scrub(entry.value);
      assert (got + [entry.value])[..|got|] == got;
      got := got + [entry.value];
      if r.Some? {
        var ok := PutRouter(w, r.value);
        if !ok { return; }
        sent := sent + [r.value];
      }
    }
  }

  // ---- the router ---------------------------------------------------------------------------------------------

  /** The router's routes are the network's outputs. */
  ghost predicate Mirrors(r: Router, n: Net)
    reads r, r.routes
  {
    && r.Valid() && |r.routes| == |n.outs|
    && forall k :: 0 <= k < |n.outs| ==> MirrorsOut(r.routes[k], n.outs[k])
  }

  ghost predicate MirrorsOut(r: Route, o: Out)
    reads r
  {
    r.out == o.sent && r.drops == o.drops && r.closed == (o.closes > 0)
  }

  lemma MirrorsStill(r: Router, n: Net, n': Net)
    requires Mirrors(r, n) && Private(Routes, n, n')
    ensures Mirrors(r, n')
  {
    forall k | 0 <= k < |n'.outs| ensures MirrorsOut(r.routes[k], n'.outs[k]) {
      assert SameOut(n.outs[k], n'.outs[k]);
    }
  }

  /** Wait for the router's next effective move. */
  method RouterTurn(w: Network, r: Router) returns (m: Option<Move>, before: Net)
    requires w.Traced() && Mirrors(r, w.net)
    modifies w`moves, w`net, w`done
    ensures w.Traced() && |w.moves| <= |old(w.moves)| && Private(Routes, old(w.net), before) && Mirrors(r, before)
    ensures m.None? ==> w.moves == [] && w.net == before
    ensures m.Some? ==>
              && |w.moves| < |old(w.moves)| && Own(Routes, m.value) && ShapeOk(w.c, before)
              && w.net == Step(w.c, before, m.value) && w.net != before
  {
    ghost var was := w.net;
    m, before := w.Turn(Routes);
    MirrorsStill(r, was, before);
  }

  /** The router's only effective move in the middle of its loop over the routes. */
  lemma PushMove(c: Config, n: Net, m: Move)
    requires Own(Routes, m) && n.next < |n.outs| && ShapeOk(c, n) && Step(c, n, m) != n
    ensures m.RouterPush? && Step(c, n, m) == RouterPushes(c, n, m.waiting)
    ensures c.blocking ==> Room(c, n, n.next, m.waiting)
    ensures var e := n.routed[|n.routed| - 1];
            var o := if Room(c, n, n.next, m.waiting) then Delivered(n.outs[n.next], e) else Dropped(n.outs[n.next]);
            Step(c, n, m) == n.(outs := n.outs[n.next := o], next := n.next + 1)
  {
  }

  /** The route that was offered the entry mirrors its output after the push; the others still mirror theirs. */
  method OfferNext(r: Router, ghost n: Net, k: nat, entry: Entry, delivered: bool)
    requires Mirrors(r, n) && k < |n.outs| && (r.blocking ==> delivered)
    modifies r.routes
    ensures var o := if delivered then Delivered(n.outs[k], entry) else Dropped(n.outs[k]);
            Mirrors(r, n.(outs := n.outs[k := o], next := k + 1))
  {
    assert MirrorsOut(r.routes[k], n.outs[k]);
    r.Offer(r.routes[k], entry, delivered);
    assert forall i :: 0 <= i < |r.routes| && i != k ==> unchanged(r.routes[i]);
  }

  /** push of the entry being routed, to the route whose turn it is. */
  method PushNext(w: Network, r: Router, entry: Entry, k: nat) returns (ok: bool)
    requires w.Traced() && Mirrors(r, w.net) && r.blocking == w.c.blocking
    requires k == w.net.next < |w.net.outs| && w.net.routed != [] && entry == w.net.routed[|w.net.routed| - 1]
    modifies w`moves, w`net, w`done, r.routes
    ensures w.Traced() && |w.moves| <= |old(w.moves)| && Mirrors(r, w.net) && |w.net.outs| == |old(w.net.outs)|
    ensures w.net.routed == old(w.net.routed) && w.net.closing == old(w.net.closing)
    ensures if ok then w.net.next == k + 1 else w.moves == []
  {
    var m, before := RouterTurn(w, r);
    ok := m.Some?;
    if ok { PushNow(w, r, entry, k, m.value, before); }
  }

  method PushNow(w: Network, r: Router, entry: Entry, k: nat, m: Move, before: Net)
    requires Mirrors(r, before) && r.blocking == w.c.blocking && ShapeOk(w.c, before) && Own(Routes, m)
    requires k == before.next < |before.outs| && entry == before.routed[|before.routed| - 1]
    requires w.net == Step(w.c, before, m) && w.net != before
    modifies r.routes
    ensures Mirrors(r, w.net) && |w.net.outs| == |before.outs|
    ensures w.net.routed == before.routed && w.net.closing == before.closing && w.net.next == k + 1
  {
    PushMove(w.c, before, m);
    OfferNext(r, before, k, entry, Room(w.c, before, k, m.waiting));
  }

  /** The router's effective moves between two turns of its loop over the routes, and in its closing loop. */
  lemma BetweenMove(c: Config, n: Net, m: Move)
    requires Own(Routes, m) && n.next >= |n.outs| && ShapeOk(c, n) && Step(c, n, m) != n
    ensures m.RouterTake? || m.RouterClose?
    ensures m.RouterTake? ==>
              && n.routerIn != [] && n.closing == 0
              && Step(c, n, m) == n.(routerIn := n.routerIn[1..], routed := n.routed + [n.routerIn[0]], next := 0)
    ensures m.RouterClose? ==>
              && n.closing < |n.outs|
              && Step(c, n, m) == n.(outs := n.outs[n.closing := n.outs[n.closing].(closes := n.outs[n.closing].closes + 1)],
                                     closing := n.closing + 1)
  {
  }

  /** close of the k-th route's channel. */
  method CloseNext(r: Router, ghost n: Net, k: nat)
    requires Mirrors(r, n) && k < |n.outs|
    modifies r.routes
    ensures Mirrors(r, n.(outs := n.outs[k := n.outs[k].(closes := n.outs[k].closes + 1)], closing := k + 1))
  {
    assert MirrorsOut(r.routes[k], n.outs[k]);
    r.routes[k].closed := true;
    assert forall i :: 0 <= i < |r.routes| && i != k ==> unchanged(r.routes[i]);
  }

  /** route: one entry to every route in turn. */
  method RouteNext(w: Network, r: Router, entry: Entry) returns (ok: bool)
    requires w.Traced() && Mirrors(r, w.net) && r.blocking == w.c.blocking
    requires w.net.next == 0 && w.net.routed != [] && entry == w.net.routed[|w.net.routed| - 1]
    modifies w`moves, w`net, w`done, r.routes
    ensures w.Traced() && |w.moves| <= |old(w.moves)| && Mirrors(r, w.net) && |w.net.outs| == |old(w.net.outs)|
    ensures w.net.routed == old(w.net.routed) && w.net.closing == old(w.net.closing)
    ensures if ok then w.net.next == |w.net.outs| else w.moves == []
  {
    for k := 0 to |r.routes|
      invariant w.Traced() && |w.moves| <= |old(w.moves)| && Mirrors(r, w.net) && |w.net.outs| == |old(w.net.outs)|
      invariant w.net.routed == old(w.net.routed) && w.net.closing == old(w.net.closing) && w.net.next == k
    {
      ok := PushNext(w, r, entry, k);
      if !ok { return; }
    }
    ok := true;
  }

  /** The network has just made the move that closes the next route, and the router's object has still to follow. */
  ghost predicate CloseDue(w: Network, r: Router, m: Move, before: Net)
    reads w, r, r.routes
  {
    && m.RouterClose? && ShapeOk(w.c, before) && before.next == |before.outs| && Mirrors(r, before)
    && w.net == Step(w.c, before, m) && w.net != before
  }

  /** handleInput: every entry received is routed; it returns with the move that closes the first route, or with None when
      everything has happened before. */
  method HandleInput(w: Network, r: Router) returns (m: Option<Move>, ghost before: Net)
    requires w.Traced() && Mirrors(r, w.net) && r.blocking == w.c.blocking && w.net.next == |w.net.outs| && w.net.closing == 0
    modifies w`moves, w`net, w`done, r.routes
    ensures w.Traced()
    ensures m.None? ==> w.moves == [] && Mirrors(r, w.net)
    ensures m.Some? ==> CloseDue(w, r, m.value, before) && before.closing == 0
  {
    while true
      invariant w.Traced() && Mirrors(r, w.net) && w.net.next == |w.net.outs| && w.net.closing == 0
      decreases |w.moves|
    {
      m, before := RouterTurn(w, r);
      if m.None? { return; }
      BetweenMove(w.c, before, m.value);
      if m.value.RouterClose? { return; }
      var ok := RouteNext(w, r, w.net.routed[|w.net.routed| - 1]);
      if !ok { return None, w.net; }
    }
  }

  /** The routes closed so far are the first k. */
  method CloseTurn(w: Network, r: Router, k: nat) returns (m: Option<Move>, ghost before: Net)
    requires w.Traced() && Mirrors(r, w.net) && w.net.next == |w.net.outs| && 0 < k == w.net.closing < |w.net.outs|
    modifies w`moves, w`net, w`done
    ensures w.Traced() && |w.moves| <= |old(w.moves)| && |w.net.outs| == |old(w.net.outs)|
    ensures m.None? ==> w.moves == [] && Mirrors(r, w.net)
    ensures m.Some? ==> |w.moves| < |old(w.moves)| && CloseDue(w, r, m.value, before) && before.closing == k
  {
    m, before := RouterTurn(w, r);
    if m.Some? { BetweenMove(w.c, before, m.value); }
  }

  method CloseOne(w: Network, r: Router, k: nat, m: Move, ghost before: Net)
    requires w.Traced() && CloseDue(w, r, m, before) && before.closing == k
    modifies r.routes
    ensures w.Traced() && Mirrors(r, w.net) && w.net.next == |w.net.outs| && w.net.closing == k + 1 <= |w.net.outs|
  {
    BetweenMove(w.c, before, m);
    CloseNext(r, before, k);
  }

  /** When the last route is closed, every accepted entry has been put on each route's channel, in order, or counted as
      dropped for it. */
  lemma RoutesDrained(w: Network, r: Router, k: nat)
    requires w.Traced() && Mirrors(r, w.net) && w.net.closing == |w.net.outs| && k < |r.routes|
    ensures var expected, route := Expected(w.c, w.net.entered), r.routes[k];
            route.closed && Subsequence(route.out, expected) && |route.out| + route.drops == |expected|
  {
    RunOk(w.c, w.done);
    ClosedMeansDrained(w.c, w.done, k);
    assert OutOk(w.c.blocking, w.net.outs[k], OfferedTo(w.net.routed, w.net.next, k));
    assert MirrorsOut(r.routes[k], w.net.outs[k]);
  }

  /** Start's goroutine: handle the input, then close the routes one after another. All along the routes carry, count and
      close what the network's outputs do. */
  method RunRouter(w: Network, r: Router)
    requires w.Traced() && Mirrors(r, w.net) && r.blocking == w.c.blocking && w.net.next == |w.net.outs| && w.net.closing == 0
    modifies w`moves, w`net, w`done, r.routes
    ensures w.Traced() && Mirrors(r, w.net)
    ensures w.moves == [] || w.net.closing == |w.net.outs|
    ensures w.net.closing == |w.net.outs| ==>
              forall k :: 0 <= k < |r.routes| ==>
                r.routes[k].closed && Subsequence(r.routes[k].out, Expected(w.c, w.net.entered))
                && |r.routes[k].out| + r.routes[k].drops == |Expected(w.c, w.net.entered)|
  {
    CloseAfterInput(w, r);
    if w.net.closing == |w.net.outs| {
      forall k | 0 <= k < |r.routes|
        ensures r.routes[k].closed && Subsequence(r.routes[k].out, Expected(w.c, w.net.entered))
        ensures |r.routes[k].out| + r.routes[k].drops == |Expected(w.c, w.net.entered)|
      {
        RoutesDrained(w, r, k);
      }
    }
  }

  method CloseAfterInput(w: Network, r: Router)
    requires w.Traced() && Mirrors(r, w.net) && r.blocking == w.c.blocking && w.net.next == |w.net.outs| && w.net.closing == 0
    modifies w`moves, w`net, w`done, r.routes
    ensures w.Traced() && Mirrors(r, w.net)
    ensures w.moves == [] || w.net.closing == |w.net.outs|
  {
    var m;
    ghost var before;
    m, before := HandleInput(w, r);
    var k := 0;
    while m.Some?
      invariant w.Traced()
      invariant m.None? ==> Mirrors(r, w.net) && (w.moves == [] || w.net.closing == |w.net.outs|)
      invariant m.Some? ==> CloseDue(w, r, m.value, before) && before.closing == k
      decreases |w.moves|, m.Some?
    {
      CloseOne(w, r, k, m.value, before);
      k := k + 1;
      if k == |r.routes| { return; }
      m, before := CloseTurn(w, r, k);
    }
  }

  /** The router's loops refine the network: whatever else happens in the pipeline, up to any point of it the routes have
      carried, in order, what the network's outputs have; and if all of them are closed, each has carried every accepted
      entry or counted it as dropped. */
  method RoutePipeline(c: Config, names: seq<string>, moves: seq<Move>) returns (outs: seq<seq<Entry>>, used: nat)
    requires |names| == |c.caps| && forall i :: 0 <= i < |names| ==> names[i] != ""
    ensures used <= |moves| && |outs| == |names| == |Run(c, moves[..used]).outs|
    ensures forall k :: 0 <= k < |outs| ==> outs[k] == Run(c, moves[..used]).outs[k].sent
    ensures used == |moves| || Run(c, moves[..used]).closing == |names|
    ensures Run(c, moves[..used]).closing == |names| ==>
              forall k :: 0 <= k < |outs| ==> Subsequence(outs[k], Expected(c, Run(c, moves[..used]).entered))
  {
    var w := new Network(c, moves);
    var r := RegisterAll(names, c.blocking);
    RunRouter(w, r);
    used := |moves| - |w.moves|;
    assert moves[..used] == w.done;
    outs := Carried(r);
    forall k | 0 <= k < |outs| ensures outs[k] == w.net.outs[k].sent {
      assert MirrorsOut(r.routes[k], w.net.outs[k]);
    }
  }

  method Carried(r: Router) returns (outs: seq<seq<Entry>>)
    ensures |outs| == |r.routes| && forall k :: 0 <= k < |outs| ==> outs[k] == r.routes[k].out
  {
    outs := [];
    for k := 0 to |r.routes|
      invariant |outs| == k && forall i :: 0 <= i < k ==> outs[i] == r.routes[i].out
    {
      outs := outs + [r.routes[k].out];
    }
  }
}
