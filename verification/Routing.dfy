/** The router: every entry of the input is offered to every route; a route whose channel is full loses it, unless the
    router blocks (internal/routing/routing.go). */
module Routing {
  import opened Wrappers
  import opened Data
  import opened DropLog

  /** The entries at the positions marked true, in order. */
  function Kept(entries: seq<Entry>, marks: seq<bool>): seq<Entry>
    requires |marks| == |entries|
  {
    if entries == [] then []
    else Kept(entries[..|entries| - 1], marks[..|marks| - 1]) + if marks[|marks| - 1] then [entries[|entries| - 1]] else []
  }

  lemma KeptSnoc(entries: seq<Entry>, marks: seq<bool>, e: Entry, mark: bool)
    requires |marks| == |entries|
    ensures Kept(entries + [e], marks + [mark]) == Kept(entries, marks) + if mark then [e] else []
  {
    assert (entries + [e])[..|entries|] == entries && (marks + [mark])[..|marks|] == marks;
  }

  lemma {:induction false} KeptAll(entries: seq<Entry>, marks: seq<bool>)
    requires |marks| == |entries| && forall i :: 0 <= i < |marks| ==> marks[i]
    ensures Kept(entries, marks) == entries
    decreases |entries|
  {
    if entries != [] { KeptAll(entries[..|entries| - 1], marks[..|marks| - 1]); }
  }

  lemma CounterStep(n: nat)
    ensures (n % UINT64 + 1) % UINT64 == (n + 1) % UINT64
  {
  }

  lemma LogStep(drops: nat)
    ensures drops + 1 < UINT64 ==> LoggedUpTo(drops + 1) == LoggedUpTo(drops) + LogLine((drops + 1) % UINT64)
    ensures LogLine(0) == []
  {
    if drops + 1 < UINT64 { LoggedNext(drops + 1); }
  }

  /** A route: what has been put on its channel, its drop counter and the counts logged for it. */
  class Route {
    const name: string
    var out: seq<Entry>
    var closed: bool
    var dropped: nat
    var logged: seq<nat>
    ghost var offered: seq<Entry>
    ghost var marks: seq<bool>    // which of them were delivered
    ghost var drops: nat

    constructor (name: string)
      ensures Fresh() && this.name == name
    {
      this.name, out, closed, dropped, logged := name, [], false, 0, [];
      offered, marks, drops := [], [], 0;
    }

    ghost predicate Good(blocking: bool)
      reads `out, `dropped, `logged, `offered, `marks, `drops
    {
      Valid() && (blocking ==> drops == 0)
    }

    /** The route was offered one more entry, and it was delivered or not. */
    twostate predicate Took(entry: Entry, delivered: bool)
      reads this
    {
      offered == old(offered) + [entry] && closed == old(closed) && out == old(out) + if delivered then [entry] else []
    }

    ghost predicate Fresh()
      reads this
    {
      Valid() && offered == [] && out == [] && !closed && drops == 0
    }

    /** What was delivered is a subsequence of what was offered, in order; the rest is counted, modulo the counter's
        width, and while the counter has not wrapped the log has its powers of two. */
    ghost predicate Valid()
      reads `out, `dropped, `logged, `offered, `marks, `drops
    {
      && |marks| == |offered| && out == Kept(offered, marks)
      && |out| + drops == |offered|
      && dropped == drops % UINT64
      && (drops < UINT64 ==> logged == LoggedUpTo(drops))
    }
  }

  class Router {
    const blocking: bool
    var routes: seq<Route>
    var started: bool

    constructor (blocking: bool)
      ensures Valid() && routes == [] && !started && this.blocking == blocking
    {
      this.blocking, routes, started := blocking, [], false;
    }

    ghost predicate Valid()
      reads this, routes
    {
      && (forall i, j :: 0 <= i < j < |routes| ==> routes[i] != routes[j])
      && (forall i :: 0 <= i < |routes| ==> routes[i].Good(blocking))
    }

    /** Register: a route of its own, before Start, under a name and with a channel. */
    method Register(name: string, hasChannel: bool) returns (ok: bool)
      requires Valid()
      modifies this`routes
      ensures Valid() && (ok <==> !started && name != "" && hasChannel)
      ensures if ok then |routes| == |old(routes)| + 1 && routes[..|old(routes)|] == old(routes)
                    && fresh(routes[|old(routes)|]) && routes[|old(routes)|].name == name && routes[|old(routes)|].Fresh()
              else routes == old(routes)
    {
      ok := !started && name != "" && hasChannel;
      if ok {
        var r := new Route(name);
        routes := routes + [r];
      }
    }

    /** push: delivers, or counts the drop and returns the counter; `room` says whether a try to put finds room. */
    method Push(r: Route, entry: Entry, room: bool) returns (n: nat)
      requires r.Good(blocking)
      modifies r`out, r`dropped, r`offered, r`marks, r`drops
      ensures r.offered == old(r.offered) + [entry] && |r.marks| == |r.offered| && r.out == Kept(r.offered, r.marks)
      ensures |r.out| + r.drops == |r.offered| && r.dropped == r.drops % UINT64 && (blocking ==> r.drops == 0)
      ensures r.out == old(r.out) + if blocking || room then [entry] else []
      ensures r.drops == old(r.drops) + if blocking || room then 0 else 1
      ensures n == if blocking || room then 0 else r.dropped
    {
      var delivered := blocking || room;
      KeptSnoc(r.offered, r.marks, entry, delivered);
      r.offered, r.marks := r.offered + [entry], r.marks + [delivered];
      if delivered {
        r.out := r.out + [entry];
        n := 0;
      } else {
        CounterStep(r.drops);
        r.dropped := (r.dropped + 1) % UINT64;
        r.drops := r.drops + 1;
        n := r.dropped;
      }
    }

    /** One turn of route's loop: push, and log the drops at powers of two. */
    method Offer(r: Route, entry: Entry, room: bool)
      requires r.Good(blocking)
      modifies r
      ensures r.Good(blocking) && r.Took(entry, blocking || room)
    {
      LogStep(r.drops);
      var n := Push(r, entry, room);
      if n != 0 && And(n, n - 1) == 0 {
        r.logged := r.logged + [n];
      }
      assert r.logged == old(r.logged) + LogLine(n);
    }

    /** route: every route is offered the entry, whatever became of the others. */
    method RouteEntry(entry: Entry, room: nat -> bool)
      requires Valid()
      modifies routes
      ensures Valid()
      ensures forall i :: 0 <= i < |routes| ==> routes[i].Took(entry, blocking || room(i))
    {
      for k := 0 to |routes|
        invariant forall i :: k <= i < |routes| ==> unchanged(routes[i])
        invariant forall i :: 0 <= i < |routes| ==> routes[i].Good(blocking)
        invariant forall i :: 0 <= i < k ==> routes[i].Took(entry, blocking || room(i))
      {
        label before: Offer(routes[k], entry, room(k));
        assert forall i :: 0 <= i < |routes| && i != k ==> unchanged@before(routes[i]);
      }
    }

    /** Every route has been offered just this, and is open or closed. */
    ghost predicate Offered(input: seq<Entry>, closed: bool)
      reads this, routes
    {
      forall i :: 0 <= i < |routes| ==> routes[i].offered == input && routes[i].closed == closed
    }

    /** handleInput: every entry is offered to every route, in order. */
    method HandleInput(input: seq<Entry>, room: (nat, nat) -> bool)
      requires Valid() && Offered([], false)
      modifies routes
      ensures Valid() && Offered(input, false)
    {
      for n := 0 to |input|
        invariant Valid() && Offered(input[..n], false)
      {
        RouteEntry(input[n], (i: nat) => room(n, i));
        assert input[..n + 1] == input[..n] + [input[n]];
      }
      assert input[..|input|] == input;
    }

    method CloseAll(ghost input: seq<Entry>)
      requires Valid() && Offered(input, false)
      modifies routes
      ensures Valid() && Offered(input, true)
    {
      for k := 0 to |routes|
        invariant forall i :: 0 <= i < |routes| ==> routes[i].Good(blocking)
        invariant forall i :: 0 <= i < |routes| ==> routes[i].offered == input && routes[i].closed == (i < k)
      {
        routes[k].closed := true;
      }
    }

    /** Start, after the input was closed: when the routes' channels are closed, each of them once, every entry has been
        delivered to or counted for every one of them. */
    method Start(input: seq<Entry>, room: (nat, nat) -> bool) returns (ok: bool)
      requires Valid() && Offered([], false)
      modifies this`started, routes
      ensures Valid() && (ok <==> routes != []) && started == (ok || old(started))
      ensures ok ==> Offered(input, true)
    {
      ok := routes != [];
      if ok {
        HandleInput(input, room);
        CloseAll(input);
        started := true;
      }
    }
  }

  /** For any outcome of every single push: each route delivers a subsequence of the input, in order, and counts the rest;
      its log has floor(log2) + 1 lines for its drops; and with blocking on, each route delivers the input itself. */
  method RouteAll(names: seq<string>, blocking: bool, input: seq<Entry>, room: (nat, nat) -> bool)
    returns (outs: seq<seq<Entry>>, dropped: seq<nat>, logs: seq<nat>)
    requires |names| > 0 && forall i :: 0 <= i < |names| ==> names[i] != ""
    ensures |outs| == |dropped| == |logs| == |names|
    ensures forall i :: 0 <= i < |names| ==> Summary(input, blocking, outs[i], dropped[i], logs[i])
  {
    var r := RegisterAll(names, blocking);
    var ok := r.Start(input, room);
    outs, dropped, logs := SummarizeAll(r.routes, input, blocking);
  }

  method RegisterAll(names: seq<string>, blocking: bool) returns (r: Router)
    requires forall i :: 0 <= i < |names| ==> names[i] != ""
    ensures fresh(r) && fresh(r.routes) && r.Valid() && |r.routes| == |names| && r.blocking == blocking && r.Offered([], false)
    ensures forall i :: 0 <= i < |r.routes| ==> |r.routes[i].out| + r.routes[i].drops == 0
  {
    r := new Router(blocking);
    for k := 0 to |names|
      invariant r.Valid() && !r.started && |r.routes| == k && fresh(r) && r.blocking == blocking
      invariant fresh(r.routes) && r.Offered([], false)
    {
      ghost var before := r.routes;
      var ok := r.Register(names[k], true);
      assert forall i :: 0 <= i < k ==> r.routes[i] == r.routes[..k][i] == before[i];
    }
  }

  method SummarizeAll(routes: seq<Route>, ghost input: seq<Entry>, ghost blocking: bool)
    returns (outs: seq<seq<Entry>>, dropped: seq<nat>, logs: seq<nat>)
    requires forall i :: 0 <= i < |routes| ==> routes[i].Good(blocking) && routes[i].offered == input
    ensures |outs| == |dropped| == |logs| == |routes|
    ensures forall i :: 0 <= i < |routes| ==> Summary(input, blocking, outs[i], dropped[i], logs[i])
  {
    outs, dropped, logs := [], [], [];
    for k := 0 to |routes|
      invariant |outs| == |dropped| == |logs| == k
      invariant forall i :: 0 <= i < k ==> Summary(input, blocking, outs[i], dropped[i], logs[i])
    {
      Summarize(routes[k], input, blocking);
      outs, dropped := outs + [routes[k].out], dropped + [routes[k].dropped];
      logs := logs + [|routes[k].logged|];
    }
  }

  ghost predicate Subsequence(out: seq<Entry>, input: seq<Entry>) {
    exists marks: seq<bool> :: |marks| == |input| && out == Kept(input, marks)
  }

  /** What a route made of the input: the entries it delivered, its counter and the length of its log. */
  ghost predicate Summary(input: seq<Entry>, blocking: bool, out: seq<Entry>, dropped: nat, logs: nat) {
    && Subsequence(out, input)
    && |out| <= |input| && dropped == (|input| - |out|) % 18446744073709551616
    && (|input| - |out| < UINT64 ==> logs == if |out| == |input| then 0 else FloorLog2(|input| - |out|) + 1)
    && (blocking ==> out == input)
  }

  lemma Summarize(r: Route, input: seq<Entry>, blocking: bool)
    requires r.Good(blocking) && r.offered == input
    ensures Summary(input, blocking, r.out, r.dropped, |r.logged|)
  {
    if r.drops > 0 { LogIsLogarithmic(r.drops); }
    KeptLength(input, r.marks);
  }

  /** A subsequence as long as the whole is the whole. */
  lemma {:induction false} KeptLength(entries: seq<Entry>, marks: seq<bool>)
    requires |marks| == |entries|
    ensures |Kept(entries, marks)| <= |entries|
    ensures |Kept(entries, marks)| == |entries| ==> Kept(entries, marks) == entries
    decreases |entries|
  {
    if entries != [] { KeptLength(entries[..|entries| - 1], marks[..|marks| - 1]); }
  }
}
