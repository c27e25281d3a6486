/** What becomes of each single entry in the pipeline, and when a processor's channel takes one. */
module PipelineFates {
  import opened Wrappers
  import opened Data
  import opened Safety
  import opened Routing
  import opened Pipeline

  // ---- entries ------------------------------------------------------------------------------------------------

  /** What the router gets for the entry at a position, if anything. */
  function Fate(procs: seq<Processor>, at: nat, e: Entry): Option<Entry> {
    match Processed(procs, at, e)
    case None => None
    case Some(x) => Scrub(x)
  }

  /** It is what all preprocessors leave of the entry, one after the other, scrubbed; or one of them refused it, or its tag
      does not fit what they left. */
  ghost predicate FateOk(procs: seq<Processor>, at: nat, e: Entry, fate: Option<Entry>) {
    match fate
    case Some(y) => exists x :: Accepted(procs, at, e, x) && Scrub(x) == Some(y)
    case None => Refused(procs, at, e) || exists x :: Accepted(procs, at, e, x) && Scrub(x) == None
  }

  lemma FateIsOk(procs: seq<Processor>, at: nat, e: Entry, fate: Option<Entry>)
    ensures FateOk(procs, at, e, fate) <==> fate == Fate(procs, at, e)
  {
    ProcessedByChain(procs, at, e);
    match Processed(procs, at, e) {
      case None =>
        forall x | Accepted(procs, at, e, x) ensures false { ChainsAgree(procs, at, e, x, x); }
      case Some(x) =>
        forall y ensures Accepted(procs, at, e, y) <==> x == y { ChainsAgree(procs, at, e, x, y); }
        ChainsAgree(procs, at, e, x, x);
    }
  }

  function Fates(procs: seq<Processor>, s: seq<Entry>): seq<Option<Entry>> {
    seq(|s|, i requires 0 <= i < |s| => Fate(procs, i, s[i]))
  }

  /** The entries among them, in order. */
  function Somes(fates: seq<Option<Entry>>): seq<Entry> {
    if fates == [] then [] else Somes(fates[..|fates| - 1]) + ToSeq(fates[|fates| - 1])
  }

  lemma {:induction false} ExpectedFates(c: Config, s: seq<Entry>)
    ensures Expected(c, s) == Somes(Fates(c.procs, s))
    decreases |s|
  {
    if s != [] {
      var a, n := s[..|s| - 1], |s| - 1;
      ExpectedFates(c, a);
      assert Fates(c.procs, s)[..n] == Fates(c.procs, a);
      var x := Processed(c.procs, n, s[n]);
      assert PreprocessAll(c.procs, 0, s) == PreprocessAll(c.procs, 0, a) + ToSeq(x);
      ScrubConcat(PreprocessAll(c.procs, 0, a), ToSeq(x));
      if x.Some? { OneEntry([], 0, x.value); }
    }
  }

  /** A prefix of the survivors is the survivors of a prefix. */
  lemma {:induction false} SomesPrefix(fates: seq<Option<Entry>>, out: seq<Entry>) returns (n: nat)
    requires out <= Somes(fates)
    ensures n <= |fates| && out == Somes(fates[..n])
    decreases |fates|
  {
    if out == Somes(fates) {
      n := |fates|;
      assert fates[..n] == fates;
    } else {
      var before := fates[..|fates| - 1];
      n := SomesPrefix(before, out);
      assert before[..n] == fates[..n];
    }
  }

  /** The router's input is the fates of the first entries the readers sent. */
  ghost predicate RoutedBy(c: Config, entered: seq<Entry>, routed: seq<Entry>, fates: seq<Option<Entry>>) {
    && |fates| <= |entered| && routed == Somes(fates)
    && forall i :: 0 <= i < |fates| ==> FateOk(c.procs, i, entered[i], fates[i])
  }

  ghost predicate RoutedSome(c: Config, entered: seq<Entry>, routed: seq<Entry>) {
    exists fates :: RoutedBy(c, entered, routed, fates)
  }

  ghost predicate RoutedAll(c: Config, entered: seq<Entry>, routed: seq<Entry>) {
    exists fates :: |fates| == |entered| && RoutedBy(c, entered, routed, fates)
  }

  lemma PrefixRouted(c: Config, entered: seq<Entry>, routed: seq<Entry>)
    requires routed <= Expected(c, entered)
    ensures RoutedSome(c, entered, routed)
    ensures routed == Expected(c, entered) ==> RoutedAll(c, entered, routed)
  {
    var all := Fates(c.procs, entered);
    ExpectedFates(c, entered);
    forall i | 0 <= i < |all| ensures FateOk(c.procs, i, entered[i], all[i]) { FateIsOk(c.procs, i, entered[i], all[i]); }
    if routed == Expected(c, entered) { assert RoutedBy(c, entered, routed, all); }
    var k := SomesPrefix(all, routed);
    assert RoutedBy(c, entered, routed, all[..k]);
  }

  lemma AllRouted(c: Config, n: Net)
    requires NetOk(c, n) && n.closing > 0
    ensures n.routed == Expected(c, n.entered)
  {
    assert Source(c, n) == [];
  }

  lemma SomeRouted(c: Config, n: Net)
    requires NetOk(c, n)
    ensures n.routed <= Expected(c, n.entered)
  {
  }

  lemma NetRouted(c: Config, n: Net)
    requires NetOk(c, n)
    ensures RoutedSome(c, n.entered, n.routed) && (n.closing > 0 ==> RoutedAll(c, n.entered, n.routed))
  {
    SomeRouted(c, n);
    if n.closing > 0 { AllRouted(c, n); }
    PrefixRouted(c, n.entered, n.routed);
  }

  /** In every interleaving: the entries routed are, in order, what came of the first entries the readers sent, each taken
      through all preprocessors and scrubbed; a refused entry is never routed, and no other is left out. Once a
      processor's channel is closed, that is so of all entries. */
  lemma RoutedAreAccepted(c: Config, moves: seq<Move>)
    ensures var n := Run(c, moves);
            RoutedSome(c, n.entered, n.routed) && (n.closing > 0 ==> RoutedAll(c, n.entered, n.routed))
  {
    RunOk(c, moves);
    NetRouted(c, Run(c, moves));
  }

  // ---- channels -----------------------------------------------------------------------------------------------

  /** No channel holds more than its capacity, or the one entry that a waiting processor is handed. */
  ghost predicate Bounded(c: Config, n: Net) {
    && |n.outs| == |c.caps|
    && forall k :: 0 <= k < |n.outs| ==> n.outs[k].received <= |n.outs[k].sent| <= n.outs[k].received + Max(c.caps[k], 1)
  }

  lemma PushBounded(c: Config, n: Net, waiting: bool)
    requires Bounded(c, n)
    ensures Bounded(c, RouterPushes(c, n, waiting))
  {
  }

  lemma CloseBounded(c: Config, n: Net)
    requires Bounded(c, n)
    ensures Bounded(c, RouterCloses(n))
  {
  }

  lemma ReceiveBounded(c: Config, n: Net, k: nat)
    requires Bounded(c, n)
    ensures Bounded(c, Step(c, n, Receive(k)))
  {
  }

  lemma StepBounded(c: Config, n: Net, m: Move)
    requires Bounded(c, n)
    ensures Bounded(c, Step(c, n, m))
  {
    match m {
      case RouterPush(waiting) => PushBounded(c, n, waiting);
      case RouterClose => CloseBounded(c, n);
      case Receive(k) => ReceiveBounded(c, n, k);
      case RouterTake =>
      case _ => StagesLeaveOuts(c, n, m);
    }
  }

  lemma {:induction false} RunBounded(c: Config, moves: seq<Move>)
    ensures Bounded(c, Run(c, moves))
    decreases |moves|
  {
    if moves != [] {
      RunBounded(c, moves[..|moves| - 1]);
      StepBounded(c, Run(c, moves[..|moves| - 1]), moves[|moves| - 1]);
    }
  }

  /** What pushing e does to a channel of capacity cap. */
  predicate PushedExactly(blocking: bool, cap: nat, waiting: bool, e: Entry, o: Out, o': Out) {
    var held := |o.sent| - o.received;
    if held < cap || (waiting && held == 0) then o'.sent == o.sent + [e] && o'.drops == o.drops
    else !blocking && o'.sent == o.sent && o'.drops == o.drops + 1
  }

  /** n' is n after a push that waits or not: it was made, or a blocking router cannot make it yet. */
  predicate PushedNext(c: Config, n: Net, waiting: bool, n': Net)
    requires n.next < |n.outs| == |c.caps|
  {
    var o, cap := n.outs[n.next], c.caps[n.next];
    if n' == n then c.blocking && |o.sent| - o.received >= cap && !(waiting && |o.sent| == o.received)
    else n.routed != [] && |n'.outs| == |n.outs| && n'.next == n.next + 1
         && PushedExactly(c.blocking, cap, waiting, n.routed[|n.routed| - 1], o, n'.outs[n.next])
  }

  lemma PushExact(c: Config, n: Net, waiting: bool)
    requires ShapeOk(c, n) && n.next < |n.outs|
    ensures PushedNext(c, n, waiting, RouterPushes(c, n, waiting))
  {
  }

  /** The router's turn to push to a channel, in any run: the entry is delivered if and only if the channel has room, or its
      processor is waiting with nothing in between; otherwise a blocking router stays where it is, and any other counts a
      drop. */
  lemma PushesExactly(c: Config, moves: seq<Move>, waiting: bool)
    requires Run(c, moves).next < |Run(c, moves).outs|
    ensures var n := Run(c, moves); |n.outs| == |c.caps| && PushedNext(c, n, waiting, Step(c, n, RouterPush(waiting)))
  {
    RunShape(c, moves);
    PushExact(c, Run(c, moves), waiting);
  }

  lemma RunShape(c: Config, moves: seq<Move>)
    ensures ShapeOk(c, Run(c, moves))
  {
    RunOk(c, moves);
  }

  /** Nothing but a push delivers to a channel or drops an entry. */
  lemma OnlyPushesPut(c: Config, n: Net, m: Move, k: nat)
    requires !m.RouterPush? && k < |n.outs|
    ensures var n' := Step(c, n, m); |n'.outs| == |n.outs| && n'.outs[k].sent == n.outs[k].sent && n'.outs[k].drops == n.outs[k].drops
  {
  }
}
