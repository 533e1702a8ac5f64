/** What the provider-call specifications guarantee. */
module ProviderProps {
  import opened Wrappers
  import opened BggXml
  import opened RateGate
  import opened SearchCache
  import opened Provider

  lemma DropDrop(net: seq<Reply>, n: nat, m: nat)
    ensures Drop(Drop(net, n), m) == Drop(net, n + m)
  {
  }

  lemma ExtendsTrans(e1: Env, e2: Env, e3: Env)
    requires Extends(e1, e2) && Extends(e2, e3)
    ensures Extends(e1, e3)
  {
    DropDrop(e1.net, |e2.calls| - |e1.calls|, |e3.calls| - |e2.calls|);
  }

  /** Moving the clock forward keeps the history well spaced. */
  lemma LaterStaysSpaced(e: Env, t: int)
    requires Spaced(e) && t >= e.now
    ensures Spaced(e.(now := t))
  {
  }

  /**
   * One call waits exactly as long as the gate needs: it starts at least
   * `MinIntervalMs` after `lastExternalCall`, and at once when that much time
   * has already passed; an answer refreshes the timestamp to the call's end, a
   * thrown error leaves it alone.
   */
  lemma SendFacts(e: Env, host: Host, p: Params)
    ensures var (rep, e1) := Send(e, host, p);
      && Extends(e, e1)
      && |e1.calls| == |e.calls| + 1
      && CallsTo(e, e1, {host}, p)
      && e1.calls[|e.calls|].start - e.last >= MinIntervalMs
      && (e1.calls[|e.calls|].start == e.now <==> e.now - e.last >= MinIntervalMs)
      && e1.calls[|e.calls|].end == e1.now
      && (rep.Answer? ==> e1.last == e1.now)
      && (rep.NetworkError? ==> e1.last == e.last)
      && (|e.net| > 0 ==> rep == e.net[0])
  {
  }

  lemma SendSpaced(e: Env, host: Host, p: Params)
    requires Spaced(e)
    ensures Spaced(Send(e, host, p).1)
  {
    var e1 := Send(e, host, p).1;
    var c := e1.calls[|e.calls|];
    assert c.start >= e.now && c.start - e.last >= MinIntervalMs;
    forall j, k | 0 <= j < k < |e1.calls| && e1.calls[j].answered
      ensures e1.calls[k].start - e1.calls[j].end >= MinIntervalMs
    {
      if k == |e.calls| {
        assert e1.calls[j] == e.calls[j];
      }
    }
  }

  /** One failed attempt of the retrying loop: the call, then the back-off pause. */
  function AfterBusy(e: Env, host: Host, p: Params, i: nat): Env {
    var e1 := Send(e, host, p).1;
    e1.(now := e1.now + Backoff(i))
  }

  lemma RetryUnfoldsOnBusy(e: Env, host: Host, p: Params, i: nat)
    requires i < MaxAttempts && Busy(Send(e, host, p).0)
    ensures Retry(e, host, p, i) == Retry(AfterBusy(e, host, p, i), host, p, i + 1)
    ensures Extends(e, AfterBusy(e, host, p, i)) && |AfterBusy(e, host, p, i).calls| == |e.calls| + 1
    ensures CallsTo(e, AfterBusy(e, host, p, i), {host}, p)
    ensures Spaced(e) ==> Spaced(AfterBusy(e, host, p, i))
  {
    SendFacts(e, host, p);
    var e1 := Send(e, host, p).1;
    if Spaced(e) {
      SendSpaced(e, host, p);
      LaterStaysSpaced(e1, e1.now + Backoff(i));
    }
  }

  /**
   * The retrying loop: at most the remaining attempts (at least one when any
   * remain), all to its host with its parameters.
   */
  lemma {:induction false} RetryFacts(e: Env, host: Host, p: Params, i: nat)
    requires i <= MaxAttempts
    ensures var (f, e1) := Retry(e, host, p, i);
      && Extends(e, e1)
      && |e1.calls| - |e.calls| <= MaxAttempts - i
      && (i < MaxAttempts ==> |e1.calls| > |e.calls|)
      && CallsTo(e, e1, {host}, p)
    decreases MaxAttempts - i
  {
    if i < MaxAttempts {
      SendFacts(e, host, p);
      if Busy(Send(e, host, p).0) {
        var e2 := AfterBusy(e, host, p, i);
        RetryUnfoldsOnBusy(e, host, p, i);
        RetryFacts(e2, host, p, i + 1);
        ExtendsTrans(e, e2, Retry(e2, host, p, i + 1).1);
      }
    }
  }

  /** The loop never returns a document without an `items` root. */
  lemma {:induction false} RetryParsedHasItems(e: Env, host: Host, p: Params, i: nat)
    ensures Retry(e, host, p, i).0.Parsed? ==> Retry(e, host, p, i).0.doc.items.Some?
    decreases MaxAttempts - i
  {
    if i < MaxAttempts && Busy(Send(e, host, p).0) {
      RetryUnfoldsOnBusy(e, host, p, i);
      RetryParsedHasItems(AfterBusy(e, host, p, i), host, p, i + 1);
    }
  }

  /** The spacing guarantee survives the whole loop, back-off pauses included. */
  lemma {:induction false} RetrySpaced(e: Env, host: Host, p: Params, i: nat)
    requires Spaced(e)
    ensures Spaced(Retry(e, host, p, i).1)
    decreases MaxAttempts - i
  {
    if i < MaxAttempts {
      SendSpaced(e, host, p);
      if Busy(Send(e, host, p).0) {
        RetryUnfoldsOnBusy(e, host, p, i);
        RetrySpaced(AfterBusy(e, host, p, i), host, p, i + 1);
      }
    }
  }

  /**
   * A call that throws does not refresh `lastExternalCall`, so once the gate
   * is open a call that fails at once is followed by the next call at the
   * same instant: the spacing holds after answered calls only.
   */
  lemma NoSpacingAfterThrownCall(e: Env, h1: Host, p1: Params, h2: Host, p2: Params)
    requires e.now - e.last >= MinIntervalMs
    requires |e.net| > 0 && e.net[0] == NetworkError(0)
    ensures var e2 := Send(Send(e, h1, p1).1, h2, p2).1;
      |e2.calls| == |e.calls| + 2 && e2.calls[|e.calls|].start == e2.calls[|e.calls| + 1].start == e.now
  {
  }

  /** A 401 or 403 ends the loop after that one attempt, with `null`. */
  lemma RetryStopsOnRefusal(e: Env, host: Host, p: Params, i: nat)
    requires i < MaxAttempts && Refused(Peek(e.net))
    ensures Retry(e, host, p, i) == (NoData, Send(e, host, p).1)
  {
  }

  /** A usable 200 answer ends the loop at once with the parsed document. */
  lemma RetryStopsOnSuccess(e: Env, host: Host, p: Params, i: nat)
    requires i < MaxAttempts && Accepted(Peek(e.net))
    ensures Retry(e, host, p, i) == (Parsed(Peek(e.net).body.value), Send(e, host, p).1)
  {
  }

  /** A host that stays busy gets every remaining attempt, and then the loop gives `null`. */
  lemma {:induction false} RetryAllBusy(e: Env, host: Host, p: Params, i: nat)
    requires i <= MaxAttempts && |e.net| >= MaxAttempts - i
    requires forall k :: 0 <= k < MaxAttempts - i ==> Busy(e.net[k])
    ensures Retry(e, host, p, i).0 == NoData
    ensures |Retry(e, host, p, i).1.calls| == |e.calls| + (MaxAttempts - i)
    decreases MaxAttempts - i
  {
    if i < MaxAttempts {
      assert Send(e, host, p).0 == e.net[0];
      RetryUnfoldsOnBusy(e, host, p, i);
      var e2 := AfterBusy(e, host, p, i);
      assert e2.net == e.net[1..];
      RetryAllBusy(e2, host, p, i + 1);
    }
  }

  /**
   * The host fallback: at most two full retry budgets, to the primary host
   * and then the mirror, which is asked only when the primary gave `null`.
   */
  lemma FallbackFacts(e: Env, p: Params)
    ensures var (f, e1) := Fallback(e, p);
      && Extends(e, e1)
      && 1 <= |e1.calls| - |e.calls| <= 2 * MaxAttempts
      && CallsTo(e, e1, {Bgg, Geekdo}, p)
      && (Retry(e, Bgg, p, 0).0 != NoData ==> CallsTo(e, e1, {Bgg}, p))
      && (f.Parsed? ==> f.doc.items.Some?)
      && (Spaced(e) ==> Spaced(e1))
  {
    var (f, e1) := Retry(e, Bgg, p, 0);
    RetryFacts(e, Bgg, p, 0);
    RetryParsedHasItems(e, Bgg, p, 0);
    if Spaced(e) {
      RetrySpaced(e, Bgg, p, 0);
    }
    if f.NoData? {
      RetryFacts(e1, Geekdo, p, 0);
      RetryParsedHasItems(e1, Geekdo, p, 0);
      if Spaced(e1) {
        RetrySpaced(e1, Geekdo, p, 0);
      }
      ExtendsTrans(e, e1, Retry(e1, Geekdo, p, 0).1);
    }
  }

  /** Both hosts busy throughout: exactly four attempts on each, primary first, then `null`. */
  lemma FallbackAllBusy(e: Env, p: Params)
    requires |e.net| >= 2 * MaxAttempts
    requires forall k :: 0 <= k < 2 * MaxAttempts ==> Busy(e.net[k])
    ensures var (f, e2) := Fallback(e, p);
      && f == NoData
      && |e2.calls| == |e.calls| + 2 * MaxAttempts
      && (forall k :: |e.calls| <= k < |e.calls| + MaxAttempts ==> e2.calls[k].host == Bgg)
      && (forall k :: |e.calls| + MaxAttempts <= k < |e2.calls| ==> e2.calls[k].host == Geekdo)
  {
    var e1 := Retry(e, Bgg, p, 0).1;
    PrimaryAllBusy(e, p);
    RetryAllBusy(e1, Geekdo, p, 0);
    RetryFacts(e1, Geekdo, p, 0);
    var e2 := Retry(e1, Geekdo, p, 0).1;
    assert Fallback(e, p) == (NoData, e2);
    assert forall k :: |e.calls| <= k < |e1.calls| ==> e2.calls[k] == e1.calls[k];
  }

  /** The first half of `FallbackAllBusy`: the primary host uses up its budget and hands over the rest of the replies. */
  lemma PrimaryAllBusy(e: Env, p: Params)
    requires |e.net| >= 2 * MaxAttempts
    requires forall k :: 0 <= k < 2 * MaxAttempts ==> Busy(e.net[k])
    ensures var (f, e1) := Retry(e, Bgg, p, 0);
      && f == NoData
      && |e1.calls| == |e.calls| + MaxAttempts
      && (forall k :: |e.calls| <= k < |e1.calls| ==> e1.calls[k].host == Bgg)
      && |e1.net| >= MaxAttempts
      && (forall k :: 0 <= k < MaxAttempts ==> Busy(e1.net[k]))
  {
    RetryAllBusy(e, Bgg, p, 0);
    RetryFacts(e, Bgg, p, 0);
    var e1 := Retry(e, Bgg, p, 0).1;
    assert e1.net == e.net[MaxAttempts..];
    assert forall k :: 0 <= k < MaxAttempts ==> e1.net[k] == e.net[k + MaxAttempts];
  }

  /** A 401 or 403 from the primary host moves straight on to the mirror after that one attempt. */
  lemma FallbackAfterRefusal(e: Env, p: Params)
    requires Refused(Peek(e.net))
    ensures Fallback(e, p) == Retry(Send(e, Bgg, p).1, Geekdo, p, 0)
  {
    RetryStopsOnRefusal(e, Bgg, p, 0);
  }

  /** The single-attempt fetch with fallback: one call, or two when the primary gave `null`. */
  lemma OnceWithFallbackFacts(e: Env, p: Params)
    ensures var (f, e1) := OnceWithFallback(e, p);
      && Extends(e, e1)
      && 1 <= |e1.calls| - |e.calls| <= 2
      && (|e1.calls| - |e.calls| == 2 <==> Once(e, Bgg, p).0 == NoData)
      && CallsTo(e, e1, {Bgg, Geekdo}, p)
      && (Spaced(e) ==> Spaced(e1))
  {
    var (f, e1) := Once(e, Bgg, p);
    SendFacts(e, Bgg, p);
    if Spaced(e) {
      SendSpaced(e, Bgg, p);
    }
    if f.NoData? {
      SendFacts(e1, Geekdo, p);
      if Spaced(e1) {
        SendSpaced(e1, Geekdo, p);
      }
      ExtendsTrans(e, e1, Once(e1, Geekdo, p).1);
    }
  }
}
