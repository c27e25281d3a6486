/** Relisting: a lister's pages are fetched with retries and sent on a channel (readers/.../relist/relist.go), and
    relistType forwards what the channel carries to the output, across attempts, each UID once. */
module Relist {
  import opened Wrappers
  import opened Data
  import opened Requests

  datatype RelistError = Api(error: ApiError) | ContextErr

  datatype Response = Value(entry: Entry) | Failed(error: RelistError)

  /** What one lister would return: the pages its continue tokens lead through. */
  type Pages = seq<seq<Entry>>

  function Flatten(pages: Pages): seq<Entry> {
    if pages == [] then [] else Flatten(pages[..|pages| - 1]) + pages[|pages| - 1]
  }

  function FlattenAll(listers: seq<Pages>): seq<Entry> {
    if listers == [] then [] else FlattenAll(listers[..|listers| - 1]) + Flatten(listers[|listers| - 1])
  }

  function Values(entries: seq<Entry>): seq<Response> {
    seq(|entries|, i requires 0 <= i < |entries| => Value(entries[i]))
  }

  lemma FlattenUpTo(pages: Pages, n: nat)
    requires n < |pages|
    ensures Flatten(pages[..n + 1]) == Flatten(pages[..n]) + pages[n]
  {
    assert pages[..n + 1][..n] == pages[..n];
  }

  lemma FlattenAllUpTo(listers: seq<Pages>, n: nat)
    requires n < |listers|
    ensures FlattenAll(listers[..n + 1]) == FlattenAll(listers[..n]) + Flatten(listers[n])
  {
    assert listers[..n + 1][..n] == listers[..n];
  }

  lemma {:induction false} FlattenPrefix(pages: Pages, n: nat)
    requires n <= |pages|
    ensures Flatten(pages[..n]) <= Flatten(pages)
    decreases |pages| - n
  {
    if n == |pages| {
      assert pages[..n] == pages;
    } else {
      FlattenUpTo(pages, n);
      FlattenPrefix(pages, n + 1);
    }
  }

  lemma {:induction false} FlattenAllPrefix(listers: seq<Pages>, n: nat)
    requires n <= |listers|
    ensures FlattenAll(listers[..n]) <= FlattenAll(listers)
    decreases |listers| - n
  {
    if n == |listers| {
      assert listers[..n] == listers;
    } else {
      FlattenAllUpTo(listers, n);
      FlattenAllPrefix(listers, n + 1);
    }
  }

  /** What happens at one request or send. Stop cancels the context; once it is cancelled, Bad makes a send or a retry
      give up, which it may but need not do. */
  datatype Happening = Fine | Fault(error: ApiError) | Stop | Bad

  /** What happens around a listing. exhaustedStops: the retry library marks an error that it gave up on after all attempts
      as one that no outer retry may repeat. */
  class Env {
    const exhaustedStops: bool
    var script: seq<Happening>
    var cancelled: bool
    ghost var used: seq<Happening>   // what has happened

    constructor (script: seq<Happening>, exhaustedStops: bool)
      ensures Valid() && !cancelled && used == [] && this.script == script && this.exhaustedStops == exhaustedStops
    {
      this.script, this.exhaustedStops, cancelled, used := script, exhaustedStops, false, [];
    }

    ghost predicate Valid()
      reads this
    {
      cancelled <==> Stop in used
    }

    method Next() returns (h: Happening)
      requires Valid()
      modifies this
      ensures Valid()
      ensures used == old(used) + [h] && cancelled == (old(cancelled) || h.Stop?)
      ensures h == if old(script) == [] then Fine else old(script)[0]
      ensures script == if old(script) == [] then [] else old(script)[1..]
    {
      h := Fine;
      if script != [] {
        h := script[0];
        script := script[1..];
      }
      used := used + [h];
      if h.Stop? { cancelled := true; }
    }

    /** chans.Put: delivers unless the context is done. */
    method Put() returns (ok: bool)
      requires Valid()
      modifies this
      ensures Valid() && old(used) <= used && (!ok ==> cancelled)
    {
      var h := Next();
      ok := !cancelled || h.Fine?;
    }
  }

  // ---- why a listing fails ------------------------------------------------------------------------------------

  /** From `from` on no request failed and the context lived. */
  predicate Quiet(used: seq<Happening>, from: nat) {
    forall i :: from <= i < |used| ==> !used[i].Fault? && !used[i].Stop?
  }

  /** At n, since `from`, a request failed with e, for good, or for the tenth time in a row. */
  predicate FailsAt(used: seq<Happening>, from: nat, n: nat, e: ApiError) {
    from <= n < |used| && used[n] == Fault(e) && (Hopeless(e) || TenInARow(used, from, n))
  }

  predicate TenInARow(used: seq<Happening>, from: nat, n: nat) {
    from + 9 <= n < |used| && forall k :: n - 9 <= k <= n ==> used[k].Fault?
  }

  /** Every error has a cause in what has happened since `from`. */
  ghost predicate Caused(err: RelistError, used: seq<Happening>, from: nat, cancelled: bool) {
    match err
    case Api(e) => exists n :: FailsAt(used, from, n, e)
    case ContextErr => cancelled
  }

  lemma CausedLater(err: RelistError, used: seq<Happening>, used': seq<Happening>, from: nat, from': nat, cancelled: bool, cancelled': bool)
    requires Caused(err, used, from, cancelled) && used <= used' && from' <= from && (cancelled ==> cancelled')
    ensures Caused(err, used', from', cancelled')
  {
    if err.Api? {
      var n :| FailsAt(used, from, n, err.error);
      assert FailsAt(used', from', n, err.error);
    }
  }

  class Channel {
    var sent: seq<Response>
    var closed: bool

    constructor ()
      ensures sent == [] && !closed
    {
      sent, closed := [], false;
    }
  }

  const LIST_ATTEMPTS := 10

  /** Another attempt may follow. */
  predicate Transient(h: Happening) {
    h.Fault? && !Hopeless(h.error)
  }

  /** retryableList: one page, with up to ten attempts at it, of which `tries` says how they went. Every attempt but the
      last failed for a passing reason; the last one brought the page, or an error that is permanent, or used up the
      attempts, or the context had ended. */
  method RetryableList(env: Env, pages: Pages, token: nat)
    returns (r: Result<(seq<Entry>, Option<nat>), RelistError>, ghost tries: seq<Happening>)
    requires token < |pages| && env.Valid()
    modifies env
    ensures env.Valid() && env.used == old(env.used) + tries
    ensures r.Ok? ==> r.value == (pages[token], if token + 1 < |pages| then Some(token + 1) else None)
    ensures r.Err? ==> Caused(r.error, env.used, |old(env.used)|, env.cancelled)
    ensures 1 <= |tries| <= LIST_ATTEMPTS && forall i :: 0 <= i < |tries| - 1 ==> Transient(tries[i])
    ensures tries + env.script == old(env.script) || (env.script == [] && tries == old(env.script) + [Fine])
    ensures var last := tries[|tries| - 1];
            match r
            case Ok(_) => !last.Fault? && (last.Fine? || !env.cancelled)
            case Err(Api(e)) => last == Fault(e) && !env.cancelled && (Hopeless(e) || |tries| == 10)
            case Err(ContextErr) => env.cancelled && !last.Fine?
  {
    var attempt := 1;
    tries := [];
    while true
      invariant 1 <= attempt <= LIST_ATTEMPTS && |tries| == attempt - 1
      invariant env.Valid() && env.used == old(env.used) + tries
      invariant tries + env.script == old(env.script) && forall i :: 0 <= i < |tries| ==> Transient(tries[i])
      decreases LIST_ATTEMPTS - attempt
    {
      var h := env.Next();
      tries := tries + [h];
      if env.cancelled && !h.Fine? { return Err(ContextErr), tries; }
      if !h.Fault? { return Ok((pages[token], if token + 1 < |pages| then Some(token + 1) else None)), tries; }
      if Permanent(h.error) || attempt == LIST_ATTEMPTS {
        LastFails(old(env.used), tries, h.error);
        return Err(Api(h.error)), tries;
      }
      attempt := attempt + 1;
    }
  }

  lemma LastFails(before: seq<Happening>, tries: seq<Happening>, e: ApiError)
    requires 1 <= |tries| <= 10 && tries[|tries| - 1] == Fault(e) && (Hopeless(e) || |tries| == 10)
    requires forall i :: 0 <= i < |tries| - 1 ==> Transient(tries[i])
    ensures Caused(Api(e), before + tries, |before|, false)
  {
    var n := |before| + |tries| - 1;
    forall k | |before| <= k <= n ensures (before + tries)[k] == tries[k - |before|] { }
    assert FailsAt(before + tries, |before|, n, e);
  }

  /** What a lister has put on the channel, after what was there before. */
  ghost predicate SentPrefix(ch: Channel, before: seq<Response>, all: seq<Entry>)
    reads ch
  {
    exists n: nat :: n <= |all| && ch.sent == before + Values(all[..n])
  }

  /** listOne: without an error every page was sent, in order; with one, which has its cause, a prefix of them. */
  method ListOne(env: Env, pages: Pages, ch: Channel) returns (err: Option<RelistError>)
    requires |pages| > 0 && env.Valid()
    modifies env, ch`sent
    ensures env.Valid() && old(env.used) <= env.used
    ensures err.Some? ==> Caused(err.value, env.used, |old(env.used)|, env.cancelled)
    ensures err.None? ==> ch.sent == old(ch.sent) + Values(Flatten(pages))
    ensures err.Some? ==> SentPrefix(ch, old(ch.sent), Flatten(pages))
  {
    var token: Option<nat> := Some(0);
    ghost var before := ch.sent;
    assert before == before + Values(Flatten(pages[..0]));
    while token.Some?
      invariant env.Valid() && old(env.used) <= env.used
      invariant token.Some? ==> token.value < |pages|
      invariant ch.sent == before + Values(Flatten(pages[..if token.Some? then token.value else |pages|]))
      decreases if token.Some? then |pages| - token.value else 0
    {
      var t := token.value;
      var r;
      ghost var tries, from := [], |env.used|;
      r, tries := RetryableList(env, pages, t);
      FlattenPrefix(pages, t);
      if r.Err? {
        CausedLater(r.error, env.used, env.used, from, |old(env.used)|, env.cancelled, env.cancelled);
        PrefixSent(ch, before, Flatten(pages[..t]), Flatten(pages));
        return Some(r.error);
      }
      FlattenUpTo(pages, t);
      FlattenPrefix(pages, t + 1);
      ghost var base := Flatten(pages[..t]);
      for i := 0 to |r.value.0|
        invariant env.Valid() && old(env.used) <= env.used
        invariant ch.sent == before + Values(base + pages[t][..i])
      {
        var ok := env.Put();
        if !ok {
          assert base + pages[t][..i] <= base + pages[t];
          PrefixSent(ch, before, base + pages[t][..i], Flatten(pages));
          return Some(ContextErr);
        }
        ch.sent := ch.sent + [Value(pages[t][i])];
        assert base + pages[t][..i + 1] == base + pages[t][..i] + [pages[t][i]];
      }
      assert base + pages[t][..|pages[t]|] == Flatten(pages[..t + 1]);
      token := r.value.1;
    }
    assert pages[..|pages|] == pages;
    err := None;
  }

  lemma PrefixSent(ch: Channel, before: seq<Response>, part: seq<Entry>, all: seq<Entry>)
    requires ch.sent == before + Values(part) && part <= all
    ensures SentPrefix(ch, before, all)
  {
    assert all[..|part|] == part;
  }

  /** A closed channel's content: a complete listing, or a part of one and then an error that has its cause in what happened
      since `from`; once the context is done the error may be missing. */
  ghost predicate Listing(sent: seq<Response>, all: seq<Entry>, used: seq<Happening>, from: nat, cancelled: bool) {
    || sent == Values(all)
    || (exists n: nat, e :: n <= |all| && sent == Values(all[..n]) + [Failed(e)] && Caused(e, used, from, cancelled))
    || (cancelled && exists n: nat :: n <= |all| && sent == Values(all[..n]))
  }

  /** When nothing fails and the context lives, the listing is complete. */
  lemma QuietListing(sent: seq<Response>, all: seq<Entry>, used: seq<Happening>, from: nat)
    requires Listing(sent, all, used, from, false) && Quiet(used, from)
    ensures sent == Values(all)
  {
  }

  /** listAll: the pages of every lister, one after another, then the channel is closed. The worker pool may decline the
      work once the context is done. */
  method ListAll(env: Env, listers: seq<Pages>) returns (ch: Channel)
    requires env.Valid() && forall i :: 0 <= i < |listers| ==> |listers[i]| > 0
    modifies env
    ensures fresh(ch) && ch.closed && env.Valid() && old(env.used) <= env.used
    ensures Listing(ch.sent, FlattenAll(listers), env.used, |old(env.used)|, env.cancelled)
    ensures !old(env.cancelled) && Quiet(env.used, |old(env.used)|) ==> ch.sent == Values(FlattenAll(listers))
  {
    ch := new Channel();
    ghost var all := FlattenAll(listers);
    SendListing(env, listers, ch);
    ch.closed := true;
    if !old(env.cancelled) && Quiet(env.used, |old(env.used)|) {
      StillLive(old(env.used), env.used);
      QuietListing(ch.sent, all, env.used, |old(env.used)|);
    }
  }

  lemma StillLive(before: seq<Happening>, used: seq<Happening>)
    requires before <= used && Stop !in before && Quiet(used, |before|)
    ensures Stop !in used
  {
    forall i | 0 <= i < |used| ensures used[i] != Stop {
      assert i < |before| ==> used[i] == before[i] && before[i] in before;
    }
  }

  method SendListing(env: Env, listers: seq<Pages>, ch: Channel)
    requires env.Valid() && ch.sent == [] && forall i :: 0 <= i < |listers| ==> |listers[i]| > 0
    modifies env, ch`sent
    ensures env.Valid() && old(env.used) <= env.used
    ensures Listing(ch.sent, FlattenAll(listers), env.used, |old(env.used)|, env.cancelled)
  {
    ghost var all, from := FlattenAll(listers), |env.used|;
    var h := env.Next();
    if env.cancelled && !h.Fine? {
      ch.sent := [Failed(ContextErr)];
      assert ch.sent == Values(all[..0]) + [Failed(ContextErr)] && Caused(ContextErr, env.used, from, env.cancelled);
      return;
    }
    for i := 0 to |listers|
      invariant env.Valid() && old(env.used) <= env.used
      invariant ch.sent == Values(FlattenAll(listers[..i]))
    {
      ghost var base, at := FlattenAll(listers[..i]), |env.used|;
      var err := ListOne(env, listers[i], ch);
      FlattenAllUpTo(listers, i);
      if err.Some? {
        FlattenAllPrefix(listers, i + 1);
        PartSent(ch.sent, base, Flatten(listers[i]), all);
        ghost var values, used, cancelled := ch.sent, env.used, env.cancelled;
        SendErr(env, ch, err.value);
        CausedLater(err.value, used, env.used, at, from, cancelled, env.cancelled);
        ErrorEnds(ch.sent, values, err.value, all, env.used, from, env.cancelled);
        return;
      }
      assert Values(base) + Values(Flatten(listers[i])) == Values(base + Flatten(listers[i]));
    }
    assert listers[..|listers|] == listers;
  }

  lemma ErrorEnds(sent: seq<Response>, values: seq<Response>, e: RelistError, all: seq<Entry>, used: seq<Happening>, from: nat, cancelled: bool)
    requires exists n: nat :: n <= |all| && values == Values(all[..n])
    requires sent == values + [Failed(e)] || (cancelled && sent == values)
    requires Caused(e, used, from, cancelled)
    ensures Listing(sent, all, used, from, cancelled)
  {
  }

  lemma PartSent(sent: seq<Response>, base: seq<Entry>, part: seq<Entry>, all: seq<Entry>)
    requires base + part <= all
    requires exists n: nat :: n <= |part| && sent == Values(base) + Values(part[..n])
    ensures exists n: nat :: n <= |all| && sent == Values(all[..n])
  {
    var n: nat :| n <= |part| && sent == Values(base) + Values(part[..n]);
    assert all[..|base| + n] == base + part[..n];
    assert sent == Values(all[..|base| + n]);
  }

  /** sendErr: the error is the last value on the channel; it is dropped only when the context is done. */
  method SendErr(env: Env, ch: Channel, e: RelistError)
    requires env.Valid()
    modifies env, ch`sent
    ensures env.Valid() && old(env.used) <= env.used && (old(env.cancelled) ==> env.cancelled)
    ensures ch.sent == old(ch.sent) + [Failed(e)] || (env.cancelled && ch.sent == old(ch.sent))
  {
    var h := env.Next();
    var room := h.Fine?;
    if !room {
      room := env.Put();
    }
    if room {
      ch.sent := ch.sent + [Failed(e)];
    }
  }

  // ---- relistType ---------------------------------------------------------------------------------------------

  const RELIST_ATTEMPTS := 7

  function Uids(entries: seq<Entry>): set<Uid> {
    set e | e in entries :: e.uid
  }

  predicate Once(entries: seq<Entry>) {
    forall i, j :: 0 <= i < j < |entries| ==> entries[i].uid != entries[j].uid
  }

  /** The output of one relistType call: dataCh with what this call has put on it, and its duplicate filter. */
  class Relisting {
    var out: seq<Entry>
    var seen: set<Uid>

    constructor ()
      ensures out == [] && seen == {}
    {
      out, seen := [], {};
    }

    /** Nothing is sent twice; while the context lives, what is filtered is exactly what was sent. */
    ghost predicate Valid(cancelled: bool)
      reads this
    {
      Once(out) && Uids(out) <= seen && (!cancelled ==> Uids(out) == seen)
    }

    /** One attempt: read the channel of a listing to its end, or to its error. */
    method Attempt(env: Env, listers: seq<Pages>) returns (err: Option<RelistError>)
      requires env.Valid() && Valid(env.cancelled)
      requires forall i :: 0 <= i < |listers| ==> |listers[i]| > 0
      modifies env, this
      ensures env.Valid() && old(env.used) <= env.used && Valid(env.cancelled)
      ensures err.Some? ==> Caused(err.value, env.used, |old(env.used)|, env.cancelled)
      ensures old(out) <= out && forall k :: |old(out)| <= k < |out| ==> out[k] in FlattenAll(listers)
      ensures err.None? ==> !env.cancelled && Uids(FlattenAll(listers)) <= Uids(out)
    {
      if env.cancelled { return Some(ContextErr); }
      ghost var from := |env.used|;
      var ch := ListAll(env, listers);
      var sent := ch.sent;
      ghost var all := FlattenAll(listers);
      ghost var used, cut := env.used, env.cancelled;
      ListingValues(sent, all, used, from, cut);
      for i := 0 to |sent|
        invariant env.Valid() && used <= env.used && Valid(env.cancelled) && (cut ==> env.cancelled)
        invariant old(out) <= out && forall k :: |old(out)| <= k < |out| ==> out[k] in all
        invariant forall k :: 0 <= k < i ==> sent[k].Value? && sent[k].entry.uid in seen
      {
        if sent[i].Failed? {
          CausedLater(sent[i].error, used, env.used, from, from, cut, env.cancelled);
          return Some(sent[i].error);
        }
        var entry := sent[i].entry;
        if entry.uid !in seen {
          seen := seen + {entry.uid};
          var ok := env.Put();
          if !ok { return Some(ContextErr); }
          OnceMore(out, entry);
          out := out + [entry];
        }
      }
      if env.cancelled { return Some(ContextErr); }
      // The channel carried no error, so what it carried is the whole listing.
      assert forall n: nat, e :: n <= |all| ==> (Values(all[..n]) + [Failed(e)])[n] == Failed(e);
      assert sent == Values(all);
      forall u | u in Uids(all) ensures u in seen {
        var x :| x in all && x.uid == u;
        var k :| 0 <= k < |all| && all[k] == x;
        assert sent[k] == Value(all[k]);
      }
      err := None;
    }
  }

  lemma ListingValues(sent: seq<Response>, all: seq<Entry>, used: seq<Happening>, from: nat, cancelled: bool)
    requires Listing(sent, all, used, from, cancelled)
    ensures forall k :: 0 <= k < |sent| && sent[k].Value? ==> sent[k].entry in all
    ensures forall k :: 0 <= k < |sent| && sent[k].Failed? ==> Caused(sent[k].error, used, from, cancelled)
  {
  }

  lemma OnceMore(out: seq<Entry>, e: Entry)
    requires Once(out) && e.uid !in Uids(out)
    ensures Once(out + [e]) && Uids(out + [e]) == Uids(out) + {e.uid}
  {
    forall i | 0 <= i < |out| ensures out[i].uid != e.uid {
      assert out[i] in out;
    }
    forall u | u in Uids(out) + {e.uid} ensures u in Uids(out + [e]) {
      if u != e.uid {
        var x :| x in out && x.uid == u;
        assert x in out + [e];
      } else {
        assert e in out + [e];
      }
    }
  }

  /** No other attempt follows a failed one: the error is one no retry can help, or the library marked it so after ten tries;
      or seven attempts are made; or the context is done. */
  predicate NoMore(env: Env, err: RelistError, used: nat)
    reads env
  {
    used == 7 || env.cancelled || (err.Api? && (Hopeless(err.error) || env.exhaustedStops))
  }

  /** relistType: up to seven attempts, the n-th of which finds the server's objects in listings[n]. Whatever fails, no UID
      is sent twice, and everything sent was listed; without an error the output covers the last attempt's listing. An
      error has a cause, for a known type, and ends the call only when no other attempt may follow; when nothing fails, the
      first attempt is enough. */
  method RelistType(env: Env, known: bool, listings: seq<seq<Pages>>) returns (out: seq<Entry>, err: Option<RelistError>, used: nat)
    requires |listings| == RELIST_ATTEMPTS && env.Valid()
    requires forall n, i :: 0 <= n < |listings| && 0 <= i < |listings[n]| ==> |listings[n][i]| > 0
    modifies env
    ensures Once(out) && env.Valid() && old(env.used) <= env.used
    ensures used <= RELIST_ATTEMPTS && forall k :: 0 <= k < |out| ==> ListedBy(out[k], listings, used)
    ensures err.None? ==> used > 0 && Uids(FlattenAll(listings[used - 1])) <= Uids(out)
    ensures !known ==> err.Some? && out == [] && used == 0
    ensures known && err.Some? ==> Caused(err.value, env.used, |old(env.used)|, env.cancelled) && NoMore(env, err.value, used)
    ensures known && !old(env.cancelled) && Quiet(env.used, |old(env.used)|) ==> err.None? && used == 1
  {
    used := 0;
    if !known { return [], Some(Api(NotFound)), 0; }
    var r := new Relisting();
    err := Some(ContextErr);
    var again := true;
    while again && used < RELIST_ATTEMPTS
      invariant used <= RELIST_ATTEMPTS && env.Valid() && r.Valid(env.cancelled) && fresh(r) && old(env.used) <= env.used
      invariant forall k :: 0 <= k < |r.out| ==> ListedBy(r.out[k], listings, used)
      invariant again ==> err.Some?
      invariant err.None? ==> used > 0 && Uids(FlattenAll(listings[used - 1])) <= Uids(r.out)
      invariant used == 0 ==> again && env.cancelled == old(env.cancelled)
      invariant used > 0 && err.Some? ==> Caused(err.value, env.used, |old(env.used)|, env.cancelled)
      invariant used > 0 && err.Some? && !again ==> NoMore(env, err.value, used)
      invariant used > 1 || (used == 1 && err.Some?) ==> old(env.cancelled) || !Quiet(env.used, |old(env.used)|)
      decreases RELIST_ATTEMPTS - used, again
    {
      ghost var before, began, from := r.out, env.used, |env.used|;
      err := r.Attempt(env, listings[used]);
      used := used + 1;
      forall k | 0 <= k < |r.out| ensures ListedBy(r.out[k], listings, used) {
        if k >= |before| {
          assert r.out[k] in FlattenAll(listings[used - 1]);
        } else {
          assert ListedBy(before[k], listings, used - 1);
        }
      }
      ghost var upto, cancelled := env.used, env.cancelled;
      var h := env.Next();
      LoudLater(|old(env.used)|, began, env.used);
      again := err.Some? && !(err.value.Api? && (Permanent(err.value.error) || env.exhaustedStops)) && (h.Fine? || !env.cancelled);
      if err.Some? {
        CausedLater(err.value, upto, env.used, from, |old(env.used)|, cancelled, env.cancelled);
        NotQuiet(err.value, old(env.used), env.used, env.cancelled);
      }
    }
    out := r.out;
  }

  lemma LoudLater(from: nat, used: seq<Happening>, used': seq<Happening>)
    requires used <= used'
    ensures Quiet(used', from) ==> Quiet(used, from)
  {
    assert forall i :: 0 <= i < |used| ==> used'[i] == used[i];
  }

  /** An error says that something failed. */
  lemma NotQuiet(err: RelistError, before: seq<Happening>, used: seq<Happening>, cancelled: bool)
    requires before <= used && Caused(err, used, |before|, cancelled) && (cancelled <==> Stop in used)
    ensures Stop in before || !Quiet(used, |before|)
  {
    if Stop !in before && Quiet(used, |before|) { StillLive(before, used); }
  }

  ghost predicate ListedBy(e: Entry, listings: seq<seq<Pages>>, used: nat)
    requires used <= |listings|
  {
    exists n :: 0 <= n < used && e in FlattenAll(listings[n])
  }
}
