/**
 The sliding-log login throttle of internal/web/ratelimit.go, proved against the full history
 of allowed attempts although old ones are pruned.
 */
module RateLimiter {

  /** How many of the times lie after the cutoff. */
  function CountAfter(times: seq<int>, cutoff: int): nat {
    if times == [] then 0 else (if times[0] > cutoff then 1 else 0) + CountAfter(times[1..], cutoff)
  }

  /** The times after the cutoff, in order. */
  function After(times: seq<int>, cutoff: int): seq<int> {
    if times == [] then [] else (if times[0] > cutoff then [times[0]] else []) + After(times[1..], cutoff)
  }

  /** How many of the times lie in the half-open interval (from, to]. */
  function CountWithin(times: seq<int>, from: int, to: int): nat {
    if times == [] then 0 else (if from < times[0] <= to then 1 else 0) + CountWithin(times[1..], from, to)
  }

  lemma {:induction false} AfterLaws(times: seq<int>, cutoff: int)
    ensures |After(times, cutoff)| == CountAfter(times, cutoff)
    ensures forall t <- After(times, cutoff) :: t in times && t > cutoff
  {
    if times != [] { AfterLaws(times[1..], cutoff); }
  }

  lemma {:induction false} AfterSnoc(times: seq<int>, t: int, cutoff: int)
    ensures After(times + [t], cutoff) == After(times, cutoff) + (if t > cutoff then [t] else [])
  {
    if times == [] {
      assert [t][1..] == [];
      assert After([t][1..], cutoff) == [];
      assert [] + [t] == [t];
    } else {
      assert (times + [t])[1..] == times[1..] + [t];
      AfterSnoc(times[1..], t, cutoff);
    }
  }

  lemma AfterNothing(cutoff: int)
    ensures After([], cutoff) == []
  {
  }

  /** Pruning at an earlier cutoff is not noticed at a later one. */
  lemma {:induction false} AfterAfter(times: seq<int>, early: int, late: int)
    requires early <= late
    ensures After(After(times, early), late) == After(times, late)
  {
    if times != [] {
      AfterAfter(times[1..], early, late);
      var rest := After(times[1..], early);
      if times[0] > early {
        assert [times[0]] + rest == After(times, early);
        assert ([times[0]] + rest)[1..] == rest;
      } else {
        assert [] + rest == rest;
      }
    }
  }

  lemma {:induction false} AllAfter(times: seq<int>, cutoff: int)
    requires forall t <- times :: t > cutoff
    ensures CountAfter(times, cutoff) == |times|
  {
    if times != [] {
      assert times[0] in times && forall t <- times[1..] :: t in times;
      AllAfter(times[1..], cutoff);
    }
  }

  /** Of times in order, fewer than n lie after the cutoff exactly when there are not n of them or
      the n-th last does not. */
  lemma {:induction false} FewerAfter(times: seq<int>, cutoff: int, n: nat)
    requires n > 0 && forall i, j :: 0 <= i < j < |times| ==> times[i] <= times[j]
    ensures CountAfter(times, cutoff) < n <==> |times| < n || times[|times| - n] <= cutoff
  {
    if times != [] {
      if times[0] > cutoff {
        forall t | t in times ensures t > cutoff {
          var i :| 0 <= i < |times| && times[i] == t;
          assert times[0] <= times[i];
        }
        AllAfter(times, cutoff);
      } else {
        FewerAfter(times[1..], cutoff, n);
      }
    }
  }

  // ---------------------------------------------------------------------
  // Histories
  // ---------------------------------------------------------------------

  /** The times one key was let through, oldest first, when the rule decides each. */
  ghost predicate Ruled(history: seq<int>, max: int, window: int) {
    && (forall i, j :: 0 <= i < j < |history| ==> history[i] <= history[j])
    && forall i :: 0 <= i < |history| ==> CountAfter(history[..i], history[i] - window) < max
  }

  lemma {:induction false} CountWithinSnoc(times: seq<int>, t: int, from: int, to: int)
    ensures CountWithin(times + [t], from, to) == CountWithin(times, from, to) + (if from < t <= to then 1 else 0)
  {
    if times == [] {
      assert [t][1..] == [];
      assert CountWithin([t][1..], from, to) == 0;
      assert [] + [t] == [t];
    } else {
      assert (times + [t])[1..] == times[1..] + [t];
      CountWithinSnoc(times[1..], t, from, to);
    }
  }

  lemma {:induction false} WithinIsAfter(times: seq<int>, from: int, to: int)
    ensures CountWithin(times, from, to) <= CountAfter(times, from)
  {
    if times != [] { WithinIsAfter(times[1..], from, to); }
  }

  lemma {:induction false} CountAfterAntitone(times: seq<int>, early: int, late: int)
    requires early <= late
    ensures CountAfter(times, late) <= CountAfter(times, early)
  {
    if times != [] { CountAfterAntitone(times[1..], early, late); }
  }

  /** The bound: whatever the calls were, no half-open interval of window length holds more
      than max allowed attempts of a key (none at all when max is not positive). */
  lemma {:induction false} WindowBound(history: seq<int>, max: int, window: int, t: int)
    requires Ruled(history, max, window)
    ensures CountWithin(history, t - window, t) <= if max > 0 then max else 0
    decreases |history|
  {
    if history != [] {
      var k := |history| - 1;
      var front, last := history[..k], history[k];
      assert history == front + [last];
      RuledPrefix(history, max, window);
      WindowBound(front, max, window, t);
      CountWithinSnoc(front, last, t - window, t);
      if t - window < last <= t {
        WithinIsAfterEarlier(front, last - window, t - window, t);
      }
    }
  }

  lemma RuledPrefix(history: seq<int>, max: int, window: int)
    requires Ruled(history, max, window) && history != []
    ensures Ruled(history[..|history| - 1], max, window)
  {
    var front := history[..|history| - 1];
    forall i | 0 <= i < |front| ensures CountAfter(front[..i], front[i] - window) < max {
      assert front[..i] == history[..i];
    }
  }

  lemma WithinIsAfterEarlier(times: seq<int>, early: int, from: int, to: int)
    requires early <= from
    ensures CountWithin(times, from, to) <= CountAfter(times, early)
  {
    WithinIsAfter(times, from, to);
    CountAfterAntitone(times, early, from);
  }

  // ---------------------------------------------------------------------
  // The limiter
  // ---------------------------------------------------------------------

  function HitsOf(hits: map<string, seq<int>>, key: string): seq<int> {
    if key in hits then hits[key] else []
  }

  /** From some cutoff on, the stored times are as good as the whole past. */
  ghost predicate Stands(stored: seq<int>, past: seq<int>, from: int) {
    forall cutoff :: cutoff >= from ==> After(stored, cutoff) == After(past, cutoff)
  }

  lemma StandsAfter(stored: seq<int>, past: seq<int>, from: int, to: int)
    requires Stands(stored, past, from) && from <= to
    ensures Stands(stored, past, to) && Stands(After(stored, to), past, to)
  {
    forall cutoff | cutoff >= to ensures After(After(stored, to), cutoff) == After(past, cutoff) {
      AfterAfter(stored, to, cutoff);
    }
  }

  lemma StandsSnoc(stored: seq<int>, past: seq<int>, from: int, t: int)
    requires Stands(stored, past, from)
    ensures Stands(stored + [t], past + [t], from)
  {
    forall cutoff | cutoff >= from ensures After(stored + [t], cutoff) == After(past + [t], cutoff) {
      AfterSnoc(stored, t, cutoff);
      AfterSnoc(past, t, cutoff);
    }
  }

  lemma RuledSnoc(history: seq<int>, t: int, max: int, window: int)
    requires Ruled(history, max, window) && (forall s <- history :: s <= t) && CountAfter(history, t - window) < max
    ensures Ruled(history + [t], max, window)
  {
    var longer := history + [t];
    forall i, j | 0 <= i < j < |longer| ensures longer[i] <= longer[j] {
      assert history[i] in history;
    }
    forall i | 0 <= i < |longer| ensures CountAfter(longer[..i], longer[i] - window) < max {
      assert longer[..i] == history[..i];
      assert i == |history| ==> history[..i] == history;
    }
  }

  /** A key's history obeys the rule, and its stored times stand for it from now on. */
  ghost predicate Tracks(stored: seq<int>, past: seq<int>, clock: int, max: int, window: int) {
    && (forall t <- past :: t <= clock) && Ruled(past, max, window)
    && Stands(stored, past, clock - window)
  }

  lemma TracksLater(stored: seq<int>, past: seq<int>, clock: int, max: int, window: int, now: int)
    requires Tracks(stored, past, clock, max, window) && clock <= now
    ensures Tracks(stored, past, now, max, window)
    ensures Tracks(After(stored, now - window), past, now, max, window)
    ensures |After(stored, now - window)| == CountAfter(past, now - window)
  {
    StandsAfter(stored, past, clock - window, now - window);
    AfterLaws(past, now - window);
    hide Ruled;
  }

  lemma TracksSnoc(stored: seq<int>, past: seq<int>, clock: int, max: int, window: int)
    requires Tracks(stored, past, clock, max, window) && CountAfter(past, clock - window) < max
    ensures Tracks(stored + [clock], past + [clock], clock, max, window)
  {
    StandsSnoc(stored, past, clock - window, clock);
    RuledSnoc(past, clock, max, window);
    hide Ruled, Stands;
  }

  ghost predicate TracksAll(hits: map<string, seq<int>>, history: map<string, seq<int>>, clock: int, max: int,
                            window: int) {
    forall key :: Tracks(HitsOf(hits, key), HitsOf(history, key), clock, max, window)
  }

  /** A call's update: one key's pruned times and history, at a later clock. */
  lemma CallKeepsTracks(hits: map<string, seq<int>>, history: map<string, seq<int>>, clock: int, max: int, window: int,
                        key: string, now: int)
    requires TracksAll(hits, history, clock, max, window) && clock <= now
    ensures var past, kept := HitsOf(history, key), After(HitsOf(hits, key), now - window);
            && |kept| == CountAfter(past, now - window)
            && TracksAll(hits[key := kept], history, now, max, window)
            && (|kept| < max ==> TracksAll(hits[key := kept + [now]], history[key := past + [now]], now, max, window))
  {
    var past, kept := HitsOf(history, key), After(HitsOf(hits, key), now - window);
    hide Tracks, After;
    forall k
      ensures Tracks(HitsOf(hits, k), HitsOf(history, k), now, max, window)
      ensures Tracks(After(HitsOf(hits, k), now - window), HitsOf(history, k), now, max, window)
    {
      TracksLater(HitsOf(hits, k), HitsOf(history, k), clock, max, window, now);
    }
    TracksLater(HitsOf(hits, key), past, clock, max, window, now);
    if |kept| < max {
      TracksSnoc(kept, past, now, max, window);
      var hits', history' := hits[key := kept + [now]], history[key := past + [now]];
      forall k ensures Tracks(HitsOf(hits', k), HitsOf(history', k), now, max, window) {
        assert Tracks(HitsOf(hits, k), HitsOf(history, k), now, max, window);
      }
    }
  }

  lemma FewerInWindow(hits: map<string, seq<int>>, history: map<string, seq<int>>, clock: int, max: int, window: int,
                      key: string, cutoff: int)
    requires TracksAll(hits, history, clock, max, window) && max > 0
    ensures var past := HitsOf(history, key);
            CountAfter(past, cutoff) < max <==> |past| < max || past[|past| - max] <= cutoff
  {
    assert Tracks(HitsOf(hits, key), HitsOf(history, key), clock, max, window);
    FewerAfter(HitsOf(history, key), cutoff, max);
  }

  class Limiter {
    var hits: map<string, seq<int>>
    const max: int
    const window: int
    /** Everything ever allowed, and the latest call's time. */
    ghost var history: map<string, seq<int>>
    ghost var clock: int

    ghost predicate Valid()
      reads this
    {
      TracksAll(hits, history, clock, max, window)
    }

    constructor (max: int, window: int, start: int)
      ensures Valid() && this.max == max && this.window == window && history == map[] && clock == start
    {
      this.max, this.window := max, window;
      hits, history, clock := map[], map[], start;
    }

    /** After any calls: no key was let through more than max times within any window. */
    lemma NeverTooMany(key: string, t: int)
      requires Valid()
      ensures CountWithin(HitsOf(history, key), t - window, t) <= if max > 0 then max else 0
    {
      assert Tracks(HitsOf(hits, key), HitsOf(history, key), clock, max, window);
      WindowBound(HitsOf(history, key), max, window, t);
    }

    /** An attempt is allowed exactly when fewer than max attempts of the same key, out of all
        ever allowed, lie within the window before it; other keys do not matter and are not
        touched, and what is stored for this one is only what the window still needs. */
    method Allow(key: string, now: int) returns (ok: bool)
      requires Valid() && clock <= now
      modifies this
      ensures Valid() && clock == now
      ensures ok <==> CountAfter(HitsOf(old(history), key), now - window) < max
      ensures var past := HitsOf(old(history), key);
              max > 0 ==> (ok <==> |past| < max || past[|past| - max] <= now - window)
      ensures history == if ok then old(history)[key := HitsOf(old(history), key) + [now]] else old(history)
      ensures ok ==> hits == old(hits)[key := After(HitsOf(old(hits), key), now - window) + [now]]
      ensures !ok ==> hits == old(hits)[key := After(HitsOf(old(hits), key), now - window)]
    {
      hide TracksAll, CountAfter, HitsOf, After;
      var cutoff := now - window;
      if max > 0 { FewerInWindow(hits, history, clock, max, window, key, cutoff); }
      AfterNothing(cutoff);
      var stored := HitsOf(hits, key);
      var kept: seq<int> := [];
      for i := 0 to |stored|
        invariant hits == old(hits) && history == old(history) && clock == old(clock)
        invariant kept == After(stored[..i], cutoff)
      {
        assert stored[..i + 1] == stored[..i] + [stored[i]];
        AfterSnoc(stored[..i], stored[i], cutoff);
        if stored[i] > cutoff {
          kept := kept + [stored[i]];
        }
      }
      assert stored[..|stored|] == stored;
      CallKeepsTracks(hits, history, clock, max, window, key, now);
      clock := now;
      if |kept| >= max {
        hits := hits[key := kept];
        return false;
      }
      history := history[key := HitsOf(history, key) + [now]];
      hits := hits[key := kept + [now]];
      return true;
    }
  }
}
