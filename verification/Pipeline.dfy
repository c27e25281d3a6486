/** The stages tattler.New puts between the readers' channel and the processors, as a network: preprocess (if there are
    preprocessors), safety, router, each in its own goroutine, with channels of one entry between them and one bounded
    channel to each processor. An input is one move of one stage, reader or processor, so every sequence of inputs is an
    interleaving. */
module Pipeline {
  import opened Wrappers
  import opened Data
  import opened Safety
  import opened Routing

  /** A preprocessor changes the object of the entry it is given, or refuses the entry. The object keeps its Go type. What it
      does may depend on everything it did before, and so on the entry's position in the stage's input: equal entries
      need not fare alike. */
  type Processor = (nat, Entry) -> Option<Object>

  /** caps: the capacities of the processors' channels. */
  datatype Config = Config(procs: seq<Processor>, blocking: bool, caps: seq<nat>)

  function Applied(p: Processor, at: nat, e: Entry): Option<Entry> {
    match p(at, e)
    case None => None
    case Some(o) => Some(e.(data := o.(kind := e.data.kind)))
  }

  // ---- what preprocessing means -------------------------------------------------------------------------------

  /** es is what the first preprocessors make of e, one after the other: each is given what the one before it left. */
  predicate Chain(procs: seq<Processor>, at: nat, e: Entry, es: seq<Entry>) {
    && 1 <= |es| <= |procs| + 1 && es[0] == e
    && forall i :: 0 <= i < |es| - 1 ==>
         procs[i](at, es[i]).Some? && es[i + 1] == es[i].(data := procs[i](at, es[i]).value.(kind := es[i].data.kind))
  }

  /** All preprocessors accept e, and x is what they leave. */
  ghost predicate Accepted(procs: seq<Processor>, at: nat, e: Entry, x: Entry) {
    exists es :: |es| == |procs| + 1 && Chain(procs, at, e, es) && es[|procs|] == x
  }

  /** Some preprocessor refuses what those before it left. */
  ghost predicate Refused(procs: seq<Processor>, at: nat, e: Entry) {
    exists es :: |es| <= |procs| && Chain(procs, at, e, es) && procs[|es| - 1](at, es[|es| - 1]).None?
  }

  /** The k-th of two chains for the same entry is the same. */
  lemma {:induction false} SameChain(procs: seq<Processor>, at: nat, e: Entry, es: seq<Entry>, fs: seq<Entry>, k: nat)
    requires Chain(procs, at, e, es) && Chain(procs, at, e, fs) && k < |es| && k < |fs|
    ensures es[k] == fs[k]
    decreases k
  {
    if k > 0 { SameChain(procs, at, e, es, fs, k - 1); }
  }

  /** An entry is accepted with one result, or refused, and not both. */
  lemma ChainsAgree(procs: seq<Processor>, at: nat, e: Entry, x: Entry, y: Entry)
    requires Accepted(procs, at, e, x)
    ensures !Refused(procs, at, e) && (Accepted(procs, at, e, y) <==> x == y)
  {
    var es :| |es| == |procs| + 1 && Chain(procs, at, e, es) && es[|procs|] == x;
    forall fs | Chain(procs, at, e, fs) ensures es[|fs| - 1] == fs[|fs| - 1] { SameChain(procs, at, e, es, fs, |fs| - 1); }
  }

  lemma {:induction false} ProcessedByChain(procs: seq<Processor>, at: nat, e: Entry)
    ensures match Processed(procs, at, e)
            case None => Refused(procs, at, e)
            case Some(x) => Accepted(procs, at, e, x)
    decreases |procs|
  {
    if procs == [] {
      assert Chain(procs, at, e, [e]);
    } else {
      var n := |procs| - 1;
      ProcessedByChain(procs[..n], at, e);
      match Processed(procs[..n], at, e) {
        case None =>
          var es :| |es| <= n && Chain(procs[..n], at, e, es) && procs[..n][|es| - 1](at, es[|es| - 1]).None?;
          LongerChain(procs, at, e, es);
        case Some(x) =>
          var es :| |es| == n + 1 && Chain(procs[..n], at, e, es) && es[n] == x;
          LongerChain(procs, at, e, es);
          if procs[n](at, x).Some? { ChainStep(procs, at, e, es); }
      }
    }
  }

  lemma LongerChain(procs: seq<Processor>, at: nat, e: Entry, es: seq<Entry>)
    requires procs != [] && Chain(procs[..|procs| - 1], at, e, es)
    ensures Chain(procs, at, e, es)
  {
    forall i | 0 <= i < |es| - 1 ensures procs[i] == procs[..|procs| - 1][i] { }
  }

  lemma ChainStep(procs: seq<Processor>, at: nat, e: Entry, es: seq<Entry>)
    requires Chain(procs, at, e, es) && |es| == |procs| && procs[|es| - 1](at, es[|es| - 1]).Some?
    ensures var last := es[|es| - 1];
            Accepted(procs, at, e, last.(data := procs[|es| - 1](at, last).value.(kind := last.data.kind)))
  {
    var last := es[|es| - 1];
    var x := last.(data := procs[|es| - 1](at, last).value.(kind := last.data.kind));
    assert Chain(procs, at, e, es + [x]);
  }

  /** processEntry, exactly: x comes out of preprocessing if and only if all preprocessors accept the entry, in order, each
      working on what the one before it left, and x is what the last one leaves. */
  lemma ProcessedExactly(procs: seq<Processor>, at: nat, e: Entry, x: Entry)
    ensures Processed(procs, at, e) == Some(x) <==> Accepted(procs, at, e, x)
    ensures Processed(procs, at, e) == None <==> Refused(procs, at, e)
  {
    ProcessedByChain(procs, at, e);
    match Processed(procs, at, e) {
      case Some(y) => ChainsAgree(procs, at, e, y, x);
      case None => if Accepted(procs, at, e, x) { ChainsAgree(procs, at, e, x, x); }
    }
  }

  /** processEntry: the preprocessors in order, until one refuses. */
  function Processed(procs: seq<Processor>, at: nat, e: Entry): Option<Entry> {
    if procs == [] then Some(e)
    else match Processed(procs[..|procs| - 1], at, e)
         case None => None
         case Some(e') => Applied(procs[|procs| - 1], at, e')
  }

  method ProcessEntry(procs: seq<Processor>, at: nat, e: Entry) returns (r: Option<Entry>)
    ensures r == Processed(procs, at, e)
    ensures if r.Some? then Accepted(procs, at, e, r.value) else Refused(procs, at, e)
    ensures r.Some? ==> r.value.uid == e.uid && r.value.objectType == e.objectType && r.value.data.kind == e.data.kind
  {
    r := Some(e);
    for i := 0 to |procs|
      invariant r.Some? && r == Processed(procs[..i], at, e)
      invariant r.value.uid == e.uid && r.value.objectType == e.objectType && r.value.data.kind == e.data.kind
    {
      r := Applied(procs[i], at, r.value);
      assert procs[..i + 1][..i] == procs[..i];
      if r.None? {
        RefusedStays(procs, i + 1, at, e);
        ProcessedByChain(procs, at, e);
        return;
      }
    }
    assert procs[..|procs|] == procs;
    ProcessedByChain(procs, at, e);
  }

  lemma {:induction false} RefusedStays(procs: seq<Processor>, n: nat, at: nat, e: Entry)
    requires n <= |procs| && Processed(procs[..n], at, e) == None
    ensures Processed(procs, at, e) == None
    decreases |procs| - n
  {
    if n < |procs| {
      assert procs[..n + 1][..n] == procs[..n];
      RefusedStays(procs, n + 1, at, e);
    } else {
      assert procs[..n] == procs;
    }
  }

  function ToSeq(e: Option<Entry>): seq<Entry> {
    if e.Some? then [e.value] else []
  }

  /** What preprocessing makes of some entries of its input, the first of them at position `at`. */
  function PreprocessAll(procs: seq<Processor>, at: nat, s: seq<Entry>): seq<Entry> {
    if s == [] then []
    else PreprocessAll(procs, at, s[..|s| - 1]) + ToSeq(Processed(procs, at + |s| - 1, s[|s| - 1]))
  }

  function ScrubAll(s: seq<Entry>): seq<Entry> {
    if s == [] then [] else ScrubAll(s[..|s| - 1]) + ToSeq(Scrub(s[|s| - 1]))
  }

  /** What the router is to receive for what the readers sent. */
  function Expected(c: Config, s: seq<Entry>): seq<Entry> {
    ScrubAll(PreprocessAll(c.procs, 0, s))
  }

  lemma {:induction false} PreprocessConcat(procs: seq<Processor>, at: nat, a: seq<Entry>, b: seq<Entry>)
    ensures PreprocessAll(procs, at, a + b) == PreprocessAll(procs, at, a) + PreprocessAll(procs, at + |a|, b)
    decreases |b|
  {
    if b == [] {
      assert a + b == a;
    } else {
      assert (a + b)[..|a + b| - 1] == a + b[..|b| - 1];
      PreprocessConcat(procs, at, a, b[..|b| - 1]);
    }
  }

  lemma {:induction false} ScrubConcat(a: seq<Entry>, b: seq<Entry>)
    ensures ScrubAll(a + b) == ScrubAll(a) + ScrubAll(b)
    decreases |b|
  {
    if b == [] {
      assert a + b == a;
    } else {
      assert (a + b)[..|a + b| - 1] == a + b[..|b| - 1];
      ScrubConcat(a, b[..|b| - 1]);
    }
  }

  lemma OneEntry(procs: seq<Processor>, at: nat, e: Entry)
    ensures PreprocessAll(procs, at, [e]) == ToSeq(Processed(procs, at, e)) && ScrubAll([e]) == ToSeq(Scrub(e))
  {
    assert [e][..0] == [];
    assert PreprocessAll(procs, at, [e]) == [] + ToSeq(Processed(procs, at, e));
    assert ScrubAll([e]) == [] + ToSeq(Scrub(e));
  }

  lemma PreprocessHead(procs: seq<Processor>, at: nat, s: seq<Entry>)
    requires s != []
    ensures PreprocessAll(procs, at, s) == ToSeq(Processed(procs, at, s[0])) + PreprocessAll(procs, at + 1, s[1..])
  {
    assert s == [s[0]] + s[1..];
    OneEntry(procs, at, s[0]);
    PreprocessConcat(procs, at, [s[0]], s[1..]);
  }

  lemma ScrubHead(s: seq<Entry>)
    requires s != []
    ensures ScrubAll(s) == ToSeq(Scrub(s[0])) + ScrubAll(s[1..])
  {
    assert s == [s[0]] + s[1..];
    OneEntry([], 0, s[0]);
    ScrubConcat([s[0]], s[1..]);
  }

  // ---- the network --------------------------------------------------------------------------------------------

  /** A channel to a processor, with everything ever put on it, what the processor has received, how often it was closed,
      and, for the proof, which of the entries offered to it were put on it. */
  datatype Out = Out(sent: seq<Entry>, received: nat, closes: nat, drops: nat, marks: seq<bool>)

  /** input, mid and routerIn are the contents of the channels; preHand, safeHand and the last of `routed` are the entries
      a stage holds between receiving and sending. `next` is the router's position in its loop over the routes, which has
      ended when it is their number; `closing` is that of its closing loop. `entered` is everything the readers sent, `taken` how many of them
      were received; `given` is everything safety received. */
  datatype Net = Net(
    entered: seq<Entry>, input: seq<Entry>, inputClosed: bool, taken: nat,
    preHand: Option<Entry>, preDone: bool, mid: seq<Entry>,
    given: seq<Entry>, safeHand: Option<Entry>, safeDone: bool, routerIn: seq<Entry>,
    routed: seq<Entry>, next: nat, closing: nat, outs: seq<Out>)

  datatype Move =
    | Send(e: Entry) | CloseInput                           // the readers
    | PreTake | PrePut | PreClose
    | SafeTake | SafePut | SafeClose
    | RouterTake | RouterPush(waiting: bool) | RouterClose  // waiting: the processor is blocked in a receive
    | Receive(k: nat)

  function Start(c: Config): Net {
    Net([], [], false, 0, None, false, [], [], None, false, [], [], |c.caps|, 0, seq(|c.caps|, _ => Out([], 0, 0, 0, [])))
  }

  /** Whether the k-th processor's channel takes another entry at once. */
  predicate Room(c: Config, n: Net, k: nat, waiting: bool)
    requires k < |c.caps| && k < |n.outs|
  {
    |n.outs[k].sent| - n.outs[k].received < c.caps[k] || (waiting && |n.outs[k].sent| == n.outs[k].received)
  }

  function Delivered(o: Out, e: Entry): Out {
    o.(sent := o.sent + [e], marks := o.marks + [true])
  }

  function Dropped(o: Out): Out {
    o.(drops := o.drops + 1, marks := o.marks + [false])
  }

  function StepPre(c: Config, n: Net, m: Move): Net {
    match m
    case PreTake =>
      if n.preHand.Some? || n.input == [] then n
      else n.(input := n.input[1..], taken := n.taken + 1, preHand := Processed(c.procs, n.taken, n.input[0]))
    case PrePut => if n.preHand.None? || n.mid != [] then n else n.(preHand := None, mid := [n.preHand.value])
    case PreClose => if n.inputClosed && n.input == [] && n.preHand.None? then n.(preDone := true) else n
    case _ => n
  }

  /** Safety reads the preprocessors' output, or the readers' channel itself when there are none. */
  function StepSafe(c: Config, n: Net, m: Move): Net {
    match m
    case SafeTake =>
      if n.safeHand.Some? then n
      else if c.procs == [] then
        if n.input == [] then n else n.(input := n.input[1..], taken := n.taken + 1, given := n.given + [n.input[0]], safeHand := Scrub(n.input[0]))
      else if n.mid == [] then n else n.(mid := n.mid[1..], given := n.given + [n.mid[0]], safeHand := Scrub(n.mid[0]))
    case SafePut => if n.safeHand.None? || n.routerIn != [] then n else n.(safeHand := None, routerIn := [n.safeHand.value])
    case SafeClose =>
      if n.safeHand.None? && (if c.procs == [] then n.inputClosed && n.input == [] else n.preDone && n.mid == [])
      then n.(safeDone := true) else n
    case _ => n
  }

  /** handleInput's receive, between two turns of route's loop. */
  function RouterReceives(n: Net): Net {
    if n.next < |n.outs| || n.routerIn == [] then n
    else n.(routerIn := n.routerIn[1..], routed := n.routed + [n.routerIn[0]], next := 0)
  }

  /** push: a blocking router waits for room, any other counts the entry as dropped. */
  function RouterPushes(c: Config, n: Net, waiting: bool): Net {
    if n.next >= |n.outs| || n.next >= |c.caps| || n.routed == [] then n
    else
      var o, e := n.outs[n.next], n.routed[|n.routed| - 1];
      if Room(c, n, n.next, waiting) then n.(outs := n.outs[n.next := Delivered(o, e)], next := n.next + 1)
      else if c.blocking then n
      else n.(outs := n.outs[n.next := Dropped(o)], next := n.next + 1)
  }

  /** The loop after handleInput, which has returned because its channel is closed and empty. */
  function RouterCloses(n: Net): Net {
    if n.safeDone && n.routerIn == [] && n.next >= |n.outs| && n.closing < |n.outs| then
      n.(outs := n.outs[n.closing := n.outs[n.closing].(closes := n.outs[n.closing].closes + 1)], closing := n.closing + 1)
    else n
  }

  function Step(c: Config, n: Net, m: Move): Net {
    match m
    case Send(e) => if n.inputClosed then n else n.(entered := n.entered + [e], input := n.input + [e])
    case CloseInput => n.(inputClosed := true)
    case Receive(k) =>
      if k < |n.outs| && n.outs[k].received < |n.outs[k].sent| then
        n.(outs := n.outs[k := n.outs[k].(received := n.outs[k].received + 1)])
      else n
    case PreTake => if c.procs == [] then n else StepPre(c, n, m)
    case PrePut => if c.procs == [] then n else StepPre(c, n, m)
    case PreClose => if c.procs == [] then n else StepPre(c, n, m)
    case SafeTake => StepSafe(c, n, m)
    case SafePut => StepSafe(c, n, m)
    case SafeClose => StepSafe(c, n, m)
    case RouterTake => RouterReceives(n)
    case RouterPush(waiting) => RouterPushes(c, n, waiting)
    case RouterClose => RouterCloses(n)
  }

  function Run(c: Config, moves: seq<Move>): Net {
    if moves == [] then Start(c) else Step(c, Run(c, moves[..|moves| - 1]), moves[|moves| - 1])
  }

  // ---- what every interleaving keeps --------------------------------------------------------------------------

  /** What safety has still to read, as preprocessing leaves it. */
  function Source(c: Config, n: Net): seq<Entry> {
    n.mid + (ToSeq(n.preHand) + PreprocessAll(c.procs, n.taken, n.input))
  }

  /** What the router has read and what it will read: its own channel, what safety holds, and what safety will make of
      `rest`. */
  function Flow(routed: seq<Entry>, routerIn: seq<Entry>, hand: seq<Entry>, rest: seq<Entry>): seq<Entry> {
    routed + (routerIn + (hand + rest))
  }

  lemma FlowGrows(routed: seq<Entry>, routerIn: seq<Entry>, hand: seq<Entry>, rest: seq<Entry>, x: seq<Entry>)
    ensures Flow(routed, routerIn, hand, rest + x) == Flow(routed, routerIn, hand, rest) + x
  {
    assert hand + (rest + x) == (hand + rest) + x;
    assert routerIn + ((hand + rest) + x) == (routerIn + (hand + rest)) + x;
    assert routed + ((routerIn + (hand + rest)) + x) == (routed + (routerIn + (hand + rest))) + x;
  }

  lemma FlowRouted(routed: seq<Entry>, routerIn: seq<Entry>, hand: seq<Entry>, rest: seq<Entry>)
    requires routerIn != []
    ensures Flow(routed + [routerIn[0]], routerIn[1..], hand, rest) == Flow(routed, routerIn, hand, rest)
  {
    assert routerIn + (hand + rest) == [routerIn[0]] + (routerIn[1..] + (hand + rest));
    assert routed + ([routerIn[0]] + (routerIn[1..] + (hand + rest))) == (routed + [routerIn[0]]) + (routerIn[1..] + (hand + rest));
  }

  lemma FlowPut(routed: seq<Entry>, hand: seq<Entry>, rest: seq<Entry>)
    ensures Flow(routed, hand, [], rest) == Flow(routed, [], hand, rest)
  {
    assert [] + rest == rest && [] + (hand + rest) == hand + rest;
  }

  lemma FlowScrubbed(routed: seq<Entry>, routerIn: seq<Entry>, hand: seq<Entry>, rest: seq<Entry>, all: seq<Entry>)
    requires hand + rest == all
    ensures Flow(routed, routerIn, hand, rest) == Flow(routed, routerIn, [], all)
  {
    assert [] + all == all;
  }

  /** What the k-th route has been offered: the last entry routed only once the loop has passed it. */
  function OfferedTo(routed: seq<Entry>, next: nat, k: nat): seq<Entry> {
    if k >= next && routed != [] then routed[..|routed| - 1] else routed
  }

  /** A processor's channel carries a subsequence of what was offered to it, and the rest is counted. */
  ghost predicate OutOk(blocking: bool, o: Out, offered: seq<Entry>) {
    && |o.marks| == |offered| && o.sent == Kept(offered, o.marks) && |o.sent| + o.drops == |offered|
    && o.received <= |o.sent|
    && (blocking ==> o.drops == 0)
  }

  ghost predicate OutsOk(blocking: bool, outs: seq<Out>, routed: seq<Entry>, next: nat, closing: nat) {
    forall k :: 0 <= k < |outs| ==>
      OutOk(blocking, outs[k], OfferedTo(routed, next, k)) && outs[k].closes == if k < closing then 1 else 0
  }

  ghost predicate NetOutsOk(c: Config, n: Net) {
    OutsOk(c.blocking, n.outs, n.routed, n.next, n.closing)
  }

  ghost predicate FlowOk(c: Config, n: Net) {
    Flow(n.routed, n.routerIn, ToSeq(n.safeHand), ScrubAll(Source(c, n))) == Expected(c, n.entered)
  }

  ghost predicate ShapeOk(c: Config, n: Net) {
    && |n.outs| == |c.caps| && n.next <= |n.outs| && n.closing <= |n.outs|
    && n.taken <= |n.entered| && n.input == n.entered[n.taken..]
    && (n.next < |n.outs| ==> n.routed != [])
    && (c.procs == [] ==> n.preHand.None? && n.mid == [])
    && (n.preDone ==> n.inputClosed && n.input == [] && n.preHand.None?)
    && (n.safeDone ==> n.inputClosed && n.input == [] && n.preHand.None? && n.mid == [] && n.safeHand.None?)
    && (n.closing > 0 ==> n.safeDone && n.routerIn == [] && n.next == |n.outs|)
  }

  ghost predicate NetOk(c: Config, n: Net) {
    FlowOk(c, n) && ShapeOk(c, n) && NetOutsOk(c, n)
  }

  lemma StagesShape(c: Config, n: Net, m: Move)
    requires ShapeOk(c, n)
    ensures ShapeOk(c, StepPre(c, n, m)) || c.procs == []
    ensures ShapeOk(c, StepSafe(c, n, m))
  {
    if n.input != [] { assert n.input[1..] == n.entered[n.taken + 1..]; }
  }

  lemma RouterShape(c: Config, n: Net, waiting: bool)
    requires ShapeOk(c, n)
    ensures ShapeOk(c, RouterReceives(n)) && ShapeOk(c, RouterPushes(c, n, waiting)) && ShapeOk(c, RouterCloses(n))
  {
  }

  lemma SendShape(c: Config, n: Net, e: Entry)
    requires ShapeOk(c, n)
    ensures ShapeOk(c, Step(c, n, Send(e)))
  {
    assert (n.entered + [e])[n.taken..] == n.entered[n.taken..] + [e];
  }

  lemma ShapeKept(c: Config, n: Net, m: Move)
    requires ShapeOk(c, n)
    ensures ShapeOk(c, Step(c, n, m))
  {
    match m {
      case Send(e) => SendShape(c, n, e);
      case CloseInput =>
      case Receive(_) =>
      case RouterTake => RouterShape(c, n, false);
      case RouterPush(waiting) => RouterShape(c, n, waiting);
      case RouterClose => RouterShape(c, n, false);
      case _ => StagesShape(c, n, m);
    }
  }

  // the entries

  /** One more entry of the readers, in what preprocessing has still to make of its input. */
  lemma SourceSend(c: Config, n: Net, n': Net, e: Entry)
    requires n' == n.(entered := n.entered + [e], input := n.input + [e])
    ensures Source(c, n') == Source(c, n) + ToSeq(Processed(c.procs, n.taken + |n.input|, e))
  {
    RestSend(c.procs, n.taken, n.input, e);
    SourceGrows(n.mid, ToSeq(n.preHand), PreprocessAll(c.procs, n.taken, n.input), ToSeq(Processed(c.procs, n.taken + |n.input|, e)));
  }

  lemma RestSend(procs: seq<Processor>, at: nat, input: seq<Entry>, e: Entry)
    ensures PreprocessAll(procs, at, input + [e]) == PreprocessAll(procs, at, input) + ToSeq(Processed(procs, at + |input|, e))
  {
    assert (input + [e])[..|input|] == input;
  }

  lemma ExpectedSend(c: Config, entered: seq<Entry>, e: Entry)
    ensures Expected(c, entered + [e]) == Expected(c, entered) + ScrubAll(ToSeq(Processed(c.procs, |entered|, e)))
  {
    OneEntry(c.procs, |entered|, e);
    PreprocessConcat(c.procs, 0, entered, [e]);
    ScrubConcat(PreprocessAll(c.procs, 0, entered), ToSeq(Processed(c.procs, |entered|, e)));
  }

  lemma SendFlow(c: Config, n: Net, e: Entry)
    requires FlowOk(c, n) && n.taken + |n.input| == |n.entered| && !n.inputClosed
    ensures FlowOk(c, Step(c, n, Send(e)))
  {
    var x := ToSeq(Processed(c.procs, |n.entered|, e));
    var n' := Step(c, n, Send(e));
    SourceSend(c, n, n', e);
    ExpectedSend(c, n.entered, e);
    SentFlow(c, n, n', x);
  }

  lemma SentFlow(c: Config, n: Net, n': Net, x: seq<Entry>)
    requires FlowOk(c, n) && n'.routed == n.routed && n'.routerIn == n.routerIn && n'.safeHand == n.safeHand
    requires Source(c, n') == Source(c, n) + x && Expected(c, n'.entered) == Expected(c, n.entered) + ScrubAll(x)
    ensures FlowOk(c, n')
  {
    ScrubConcat(Source(c, n), x);
    FlowGrows(n.routed, n.routerIn, ToSeq(n.safeHand), ScrubAll(Source(c, n)), ScrubAll(x));
  }

  lemma SourceGrows(mid: seq<Entry>, hand: seq<Entry>, rest: seq<Entry>, x: seq<Entry>)
    ensures mid + (hand + (rest + x)) == (mid + (hand + rest)) + x
  {
  }

  lemma PreFlow(c: Config, n: Net, m: Move)
    requires FlowOk(c, n)
    ensures FlowOk(c, StepPre(c, n, m))
  {
    PreSource(c, n, m);
  }

  lemma PreSource(c: Config, n: Net, m: Move)
    ensures Source(c, StepPre(c, n, m)) == Source(c, n)
  {
    var n' := StepPre(c, n, m);
    if m.PreTake? && n.preHand.None? && n.input != [] {
      PreprocessHead(c.procs, n.taken, n.input);
      assert ToSeq(n'.preHand) + PreprocessAll(c.procs, n'.taken, n'.input) == ToSeq(n.preHand) + PreprocessAll(c.procs, n.taken, n.input);
    }
  }

  lemma SafeFlow(c: Config, n: Net, m: Move)
    requires FlowOk(c, n) && ShapeOk(c, n)
    ensures FlowOk(c, StepSafe(c, n, m))
  {
    var n' := StepSafe(c, n, m);
    if m.SafePut? && n.safeHand.Some? && n.routerIn == [] {
      FlowPut(n.routed, ToSeq(n.safeHand), ScrubAll(Source(c, n)));
    } else if m.SafeTake? && n.safeHand.None? && n' != n {
      SourceHead(c, n);
      ScrubHead(Source(c, n));
      FlowScrubbed(n.routed, n.routerIn, ToSeq(n'.safeHand), ScrubAll(Source(c, n')), ScrubAll(Source(c, n)));
    }
  }

  /** What safety takes next is the head of what it has still to read. */
  lemma SourceHead(c: Config, n: Net)
    requires ShapeOk(c, n) && n.safeHand.None? && StepSafe(c, n, SafeTake) != n
    ensures var n' := StepSafe(c, n, SafeTake);
            Source(c, n) != [] && n'.safeHand == Scrub(Source(c, n)[0]) && Source(c, n') == Source(c, n)[1..]
  {
    if c.procs == [] { InputHead(c, n); } else { MidHead(n.mid, ToSeq(n.preHand) + PreprocessAll(c.procs, n.taken, n.input)); }
  }

  lemma MidHead(mid: seq<Entry>, rest: seq<Entry>)
    requires mid != []
    ensures (mid + rest)[0] == mid[0] && mid[1..] + rest == (mid + rest)[1..]
  {
  }

  lemma InputHead(c: Config, n: Net)
    requires c.procs == [] && ShapeOk(c, n) && n.input != []
    ensures Source(c, n) == n.input
    ensures Source(c, n.(input := n.input[1..], taken := n.taken + 1, given := n.given + [n.input[0]], safeHand := Scrub(n.input[0]))) == n.input[1..]
  {
    NoProcessors(c.procs, n.taken, n.input);
    NoProcessors(c.procs, n.taken + 1, n.input[1..]);
  }

  /** Without preprocessors the readers' channel is safety's input. */
  lemma {:induction false} NoProcessors(procs: seq<Processor>, at: nat, s: seq<Entry>)
    requires procs == []
    ensures PreprocessAll(procs, at, s) == s
    decreases |s|
  {
    if s != [] { NoProcessors(procs, at, s[..|s| - 1]); }
  }

  lemma ReceiveFlow(c: Config, n: Net)
    requires FlowOk(c, n)
    ensures FlowOk(c, RouterReceives(n))
  {
    if n.routerIn != [] {
      FlowRouted(n.routed, n.routerIn, ToSeq(n.safeHand), ScrubAll(Source(c, n)));
    }
  }

  predicate SameFlow(n: Net, n': Net) {
    && n'.entered == n.entered && n'.input == n.input && n'.taken == n.taken && n'.preHand == n.preHand
    && n'.mid == n.mid && n'.safeHand == n.safeHand && n'.routerIn == n.routerIn && n'.routed == n.routed
  }

  predicate Stages(m: Move) {
    m.PreTake? || m.PrePut? || m.PreClose? || m.SafeTake? || m.SafePut? || m.SafeClose?
  }

  /** The flow does not depend on the router's loops, the processors or the closing of channels. */
  lemma FlowElsewhere(c: Config, n: Net, m: Move)
    requires !Stages(m) && !m.Send? && !m.RouterTake?
    ensures SameFlow(n, Step(c, n, m))
  {
  }

  lemma SameFlowOk(c: Config, n: Net, n': Net)
    requires FlowOk(c, n) && SameFlow(n, n')
    ensures FlowOk(c, n')
  {
  }

  lemma StagesFlow(c: Config, n: Net, m: Move)
    requires FlowOk(c, n) && ShapeOk(c, n) && Stages(m)
    ensures FlowOk(c, Step(c, n, m))
  {
    if m.PreTake? || m.PrePut? || m.PreClose? { PreFlow(c, n, m); } else { SafeFlow(c, n, m); }
  }

  lemma FlowKept(c: Config, n: Net, m: Move)
    requires FlowOk(c, n) && ShapeOk(c, n)
    ensures FlowOk(c, Step(c, n, m))
  {
    if Stages(m) {
      StagesFlow(c, n, m);
    } else if m.Send? {
      if !n.inputClosed { SendFlow(c, n, m.e); }
    } else if m.RouterTake? {
      ReceiveFlow(c, n);
    } else {
      FlowElsewhere(c, n, m);
      SameFlowOk(c, n, Step(c, n, m));
    }
  }

  // the outputs

  lemma PushOuts(blocking: bool, outs: seq<Out>, routed: seq<Entry>, next: nat, o: Out)
    requires OutsOk(blocking, outs, routed, next, 0) && next < |outs| && routed != []
    requires o == Delivered(outs[next], routed[|routed| - 1]) || (!blocking && o == Dropped(outs[next]))
    ensures OutsOk(blocking, outs[next := o], routed, next + 1, 0)
  {
    var e, before := routed[|routed| - 1], routed[..|routed| - 1];
    assert routed == before + [e];
    KeptSnoc(before, outs[next].marks, e, true);
    KeptSnoc(before, outs[next].marks, e, false);
    assert OutOk(blocking, outs[next], before);
    assert OutOk(blocking, o, routed);
    forall k | 0 <= k < |outs| && k != next
      ensures OfferedTo(routed, next + 1, k) == OfferedTo(routed, next, k)
    {
    }
  }

  lemma TakeOuts(blocking: bool, outs: seq<Out>, routed: seq<Entry>, next: nat, closing: nat, e: Entry)
    requires OutsOk(blocking, outs, routed, next, closing) && next >= |outs|
    ensures OutsOk(blocking, outs, routed + [e], 0, closing)
  {
    assert (routed + [e])[..|routed|] == routed;
    forall k | 0 <= k < |outs| ensures OfferedTo(routed + [e], 0, k) == OfferedTo(routed, next, k) {
    }
  }

  lemma ReceiveOuts(blocking: bool, outs: seq<Out>, routed: seq<Entry>, next: nat, closing: nat, k: nat)
    requires OutsOk(blocking, outs, routed, next, closing) && k < |outs| && outs[k].received < |outs[k].sent|
    ensures OutsOk(blocking, outs[k := outs[k].(received := outs[k].received + 1)], routed, next, closing)
  {
  }

  lemma CloseOuts(blocking: bool, outs: seq<Out>, routed: seq<Entry>, next: nat, closing: nat)
    requires OutsOk(blocking, outs, routed, next, closing) && closing < |outs|
    ensures OutsOk(blocking, outs[closing := outs[closing].(closes := outs[closing].closes + 1)], routed, next, closing + 1)
  {
  }

  lemma PushKept(c: Config, n: Net, waiting: bool)
    requires NetOutsOk(c, n) && ShapeOk(c, n)
    ensures NetOutsOk(c, RouterPushes(c, n, waiting))
  {
    if n.next < |n.outs| {
      assert n.closing == 0;
      var e := n.routed[|n.routed| - 1];
      if Room(c, n, n.next, waiting) {
        PushOuts(c.blocking, n.outs, n.routed, n.next, Delivered(n.outs[n.next], e));
      } else if !c.blocking {
        PushOuts(c.blocking, n.outs, n.routed, n.next, Dropped(n.outs[n.next]));
      }
    }
  }

  lemma CloseKept(c: Config, n: Net)
    requires NetOutsOk(c, n)
    ensures NetOutsOk(c, RouterCloses(n))
  {
    if n.closing < |n.outs| { CloseOuts(c.blocking, n.outs, n.routed, n.next, n.closing); }
  }

  lemma TakeKept(c: Config, n: Net)
    requires NetOutsOk(c, n)
    ensures NetOutsOk(c, RouterReceives(n))
  {
    if n.next >= |n.outs| && n.routerIn != [] {
      TakeOuts(c.blocking, n.outs, n.routed, n.next, n.closing, n.routerIn[0]);
    }
  }

  lemma ReceiveKept(c: Config, n: Net, k: nat)
    requires NetOutsOk(c, n)
    ensures NetOutsOk(c, Step(c, n, Receive(k)))
  {
    if k < |n.outs| && n.outs[k].received < |n.outs[k].sent| {
      ReceiveOuts(c.blocking, n.outs, n.routed, n.next, n.closing, k);
    }
  }

  lemma StagesLeaveOuts(c: Config, n: Net, m: Move)
    requires Stages(m) || m.Send? || m.CloseInput?
    ensures var n' := Step(c, n, m);
            n'.outs == n.outs && n'.routed == n.routed && n'.next == n.next && n'.closing == n.closing
  {
  }

  lemma OutsKept(c: Config, n: Net, m: Move)
    requires NetOutsOk(c, n) && ShapeOk(c, n)
    ensures NetOutsOk(c, Step(c, n, m))
  {
    match m {
      case Receive(k) => ReceiveKept(c, n, k);
      case RouterTake => TakeKept(c, n);
      case RouterPush(waiting) => PushKept(c, n, waiting);
      case RouterClose => CloseKept(c, n);
      case _ => StagesLeaveOuts(c, n, m);
    }
  }

  lemma {:induction false} RunOk(c: Config, moves: seq<Move>)
    ensures NetOk(c, Run(c, moves))
    decreases |moves|
  {
    if moves == [] {
      var n := Start(c);
      assert Source(c, n) == [];
      assert FlowOk(c, n);
    } else {
      var n := Run(c, moves[..|moves| - 1]);
      RunOk(c, moves[..|moves| - 1]);
      FlowKept(c, n, moves[|moves| - 1]);
      ShapeKept(c, n, moves[|moves| - 1]);
      OutsKept(c, n, moves[|moves| - 1]);
    }
  }

  // ---- the promises -------------------------------------------------------------------------------------------

  /** In every interleaving the router's input is, in order, a prefix of what preprocessing accepts of the readers'
      entries, scrubbed; and each processor's channel has carried a subsequence of what the router passed that route, in
      order, the rest being counted as dropped for it; with a blocking router it has carried all of it. */
  lemma PipelineRefines(c: Config, moves: seq<Move>, k: nat)
    requires k < |c.caps|
    ensures var n := Run(c, moves);
            var offered := OfferedTo(n.routed, n.next, k);
            && n.routed <= Expected(c, n.entered) && offered <= n.routed && |n.routed| <= |offered| + 1
            && |n.outs| == |c.caps| && OutOk(c.blocking, n.outs[k], offered)
            && (c.blocking ==> n.outs[k].sent == offered)
  {
    RunOk(c, moves);
    var n := Run(c, moves);
    KeptLength(OfferedTo(n.routed, n.next, k), n.outs[k].marks);
  }

  /** So nothing that reaches a processor has an environment variable with a value left, whatever preprocessors did to it,
      if the readers' entries have the tags their constructors give them. */
  lemma ProcessorsSeeCleanEntries(c: Config, moves: seq<Move>, k: nat, i: nat)
    requires k < |c.caps| && forall j :: 0 <= j < |Run(c, moves).entered| ==> Tagged(Run(c, moves).entered[j])
    ensures var n := Run(c, moves);
            |n.outs| == |c.caps| && (i < |n.outs[k].sent| ==> Clean(n.outs[k].sent[i]))
  {
    PipelineRefines(c, moves, k);
    var n := Run(c, moves);
    ExpectedClean(c, n.entered);
    var o := n.outs[k];
    if i < |o.sent| {
      KeptFrom(OfferedTo(n.routed, n.next, k), o.marks);
      assert o.sent[i] in OfferedTo(n.routed, n.next, k);
      assert o.sent[i] in Expected(c, n.entered);
    }
  }

  lemma {:induction false} KeptFrom(entries: seq<Entry>, marks: seq<bool>)
    requires |marks| == |entries|
    ensures forall e :: e in Kept(entries, marks) ==> e in entries
    decreases |entries|
  {
    if entries != [] { KeptFrom(entries[..|entries| - 1], marks[..|marks| - 1]); }
  }

  lemma {:induction false} PreprocessTagged(procs: seq<Processor>, at: nat, e: Entry)
    requires Tagged(e)
    ensures Processed(procs, at, e).Some? ==> Tagged(Processed(procs, at, e).value)
    decreases |procs|
  {
    if procs != [] { PreprocessTagged(procs[..|procs| - 1], at, e); }
  }

  lemma ScrubOne(x: Option<Entry>)
    requires x.Some? ==> Tagged(x.value)
    ensures |ScrubAll(ToSeq(x))| == |ToSeq(x)| && forall e :: e in ScrubAll(ToSeq(x)) ==> Clean(e)
  {
    if x.Some? {
      OneEntry([], 0, x.value);
      ScrubCleans(x.value);
    }
  }

  lemma {:induction false} ExpectedClean(c: Config, s: seq<Entry>)
    requires forall j :: 0 <= j < |s| ==> Tagged(s[j])
    ensures forall e :: e in Expected(c, s) ==> Clean(e)
    ensures |Expected(c, s)| == |PreprocessAll(c.procs, 0, s)|
    decreases |s|
  {
    if s != [] {
      var a, e := s[..|s| - 1], s[|s| - 1];
      ExpectedClean(c, a);
      PreprocessTagged(c.procs, |a|, e);
      var x := Processed(c.procs, |a|, e);
      assert PreprocessAll(c.procs, 0, s) == PreprocessAll(c.procs, 0, a) + ToSeq(x);
      ScrubConcat(PreprocessAll(c.procs, 0, a), ToSeq(x));
      ScrubOne(x);
    }
  }

  /** Shutting down: once a processor's channel has been closed, everything the readers sent has been through: each
      accepted entry was put on that channel or counted as dropped for it. No channel is closed twice. */
  lemma ClosedMeansDrained(c: Config, moves: seq<Move>, k: nat)
    requires k < |c.caps|
    ensures var n := Run(c, moves);
            && |n.outs| == |c.caps| && n.outs[k].closes <= 1
            && (n.outs[k].closes == 1 ==>
                  && n.inputClosed && OutOk(c.blocking, n.outs[k], Expected(c, n.entered))
                  && (c.blocking ==> n.outs[k].sent == Expected(c, n.entered)))
  {
    RunOk(c, moves);
    var n := Run(c, moves);
    if n.closing > 0 {
      assert Source(c, n) == [];
      assert n.routed == Expected(c, n.entered);
      KeptLength(n.routed, n.outs[k].marks);
    }
  }

  // ---- the cascade reaches the end ----------------------------------------------------------------------------

  function Unreceived(outs: seq<Out>): int {
    if outs == [] then 0 else Unreceived(outs[..|outs| - 1]) + |outs[|outs| - 1].sent| - outs[|outs| - 1].received
  }

  lemma {:induction false} UnreceivedUpdate(outs: seq<Out>, k: nat, o: Out)
    requires k < |outs|
    ensures Unreceived(outs[k := o])
         == Unreceived(outs) - (|outs[k].sent| - outs[k].received) + (|o.sent| - o.received)
    decreases |outs|
  {
    var last := |outs| - 1;
    if k == last {
      assert outs[k := o][..last] == outs[..last];
    } else {
      assert outs[k := o][..last] == outs[..last][k := o];
      UnreceivedUpdate(outs[..last], k, o);
    }
  }

  lemma {:induction false} UnreceivedNat(outs: seq<Out>)
    requires forall k :: 0 <= k < |outs| ==> outs[k].received <= |outs[k].sent|
    ensures Unreceived(outs) >= 0
    decreases |outs|
  {
    if outs != [] { UnreceivedNat(outs[..|outs| - 1]); }
  }

  function Bit(done: bool): nat {
    if done then 0 else 1
  }

  /** n' is nearer the end than n: what is left before the first stage in which they differ is less, in the well-founded
      lexicographic order of the stages. */
  ghost predicate Nearer(n': Net, n: Net) {
    (|n.input|, |ToSeq(n.preHand)|, |n.mid|, |ToSeq(n.safeHand)|, |n.routerIn|, |n.outs| - n.next, |n.outs| - n.closing,
     Bit(n.preDone), Bit(n.safeDone), Unreceived(n.outs)
     decreases to
     |n'.input|, |ToSeq(n'.preHand)|, |n'.mid|, |ToSeq(n'.safeHand)|, |n'.routerIn|, |n'.outs| - n'.next,
     |n'.outs| - n'.closing, Bit(n'.preDone), Bit(n'.safeDone), Unreceived(n'.outs))
  }

  lemma StagesProgress(c: Config, n: Net, m: Move)
    requires Stages(m) && ShapeOk(c, n) && Step(c, n, m) != n
    ensures Nearer(Step(c, n, m), n)
  {
  }

  lemma RouterProgress(c: Config, n: Net, m: Move)
    requires m.RouterTake? || m.RouterPush? || m.RouterClose? || m.Receive?
    requires ShapeOk(c, n) && Step(c, n, m) != n && Unreceived(n.outs) >= 0
    ensures Nearer(Step(c, n, m), n)
  {
    if m.Receive? { UnreceivedUpdate(n.outs, m.k, Step(c, n, m).outs[m.k]); }
  }

  /** In the middle of its loop the router can push, or the processor a blocking router waits for can receive. */
  lemma CanPush(c: Config, n: Net) returns (m: Move)
    requires ShapeOk(c, n) && n.next < |n.outs| && n.outs[n.next].received <= |n.outs[n.next].sent|
    ensures Step(c, n, m) != n
  {
    if Room(c, n, n.next, true) || !c.blocking {
      m := RouterPush(true);
      assert RouterPushes(c, n, true).next == n.next + 1;
    } else {
      m := Receive(n.next);
      assert Step(c, n, m).outs[n.next].received == n.outs[n.next].received + 1;
    }
  }

  /** The cascade cannot stall: with the input closed, as long as some processor's channel is open a stage can move, or
      the processor a blocking router waits for can receive. */
  lemma CanMove(c: Config, n: Net) returns (m: Move)
    requires NetOk(c, n) && n.inputClosed && n.closing < |n.outs|
    ensures Step(c, n, m) != n
  {
    if n.next < |n.outs| {
      assert OutOk(c.blocking, n.outs[n.next], OfferedTo(n.routed, n.next, n.next));
      m := CanPush(c, n);
      return;
    }
    if n.routerIn != [] || n.safeDone {
      m := CanRoute(c, n);
    } else {
      m := CanFeed(c, n);
    }
  }

  lemma CanRoute(c: Config, n: Net) returns (m: Move)
    requires n.next >= |n.outs| && n.closing < |n.outs| && (n.routerIn != [] || n.safeDone)
    ensures Step(c, n, m) != n
  {
    if n.routerIn != [] {
      assert |RouterReceives(n).routerIn| < |n.routerIn|;
      return RouterTake;
    }
    assert RouterCloses(n).closing == n.closing + 1;
    return RouterClose;
  }

  lemma CanFeed(c: Config, n: Net) returns (m: Move)
    requires ShapeOk(c, n) && n.inputClosed && n.routerIn == [] && !n.safeDone
    ensures Step(c, n, m) != n
  {
    if n.safeHand.Some? { return SafePut; }
    if c.procs == [] { return if n.input != [] then SafeTake else SafeClose; }
    if n.mid != [] { return SafeTake; }
    if n.preHand.Some? { return PrePut; }
    if n.input != [] { return PreTake; }
    return if n.preDone then SafeClose else PreClose;
  }

  /** After the input is closed every move that does anything brings the end nearer, in any interleaving, and until every
      processor's channel is closed there is one. So however the stages and processors are scheduled, the shutdown
      completes. */
  lemma ShutdownCompletes(c: Config, moves: seq<Move>, m: Move)
    requires Run(c, moves).inputClosed
    ensures var n := Run(c, moves);
            && (Step(c, n, m) != n ==> Nearer(Step(c, n, m), n))
            && (n.closing < |n.outs| ==> exists m' :: Step(c, n, m') != n)
  {
    RunOk(c, moves);
    var n := Run(c, moves);
    forall k | 0 <= k < |n.outs| ensures n.outs[k].received <= |n.outs[k].sent| {
      assert OutOk(c.blocking, n.outs[k], OfferedTo(n.routed, n.next, k));
    }
    UnreceivedNat(n.outs);
    if Step(c, n, m) != n {
      match m {
        case Send(_) =>
        case CloseInput =>
        case RouterTake => RouterProgress(c, n, m);
        case RouterPush(_) => RouterProgress(c, n, m);
        case RouterClose => RouterProgress(c, n, m);
        case Receive(_) => RouterProgress(c, n, m);
        case _ => StagesProgress(c, n, m);
      }
    }
    if n.closing < |n.outs| {
      var m' := CanMove(c, n);
    }
  }
}
