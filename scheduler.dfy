/**
 * The scheduler bookkeeping of Game. Per-frame and interval registrations
 * are records of one type, Entry; the game keeps them in two registries,
 * and the host clock (pyglet.clock) holds the live entries it will fire.
 */
module Scheduler {

  /** A callable, compared with Python's `==`, abstracted as Dafny equality on an opaque type. */
  type Callback(==, !new)

  /** An argument value passed through to a callback. */
  type Value(==, !new)

  datatype Entry =
    | Frame(cb: Callback, args: seq<Value>, kwargs: map<string, Value>)
    | Interval(cb: Callback, interval: real, args: seq<Value>, kwargs: map<string, Value>)

  /** The entries of s whose callback is not in cbs, in their order. */
  function Detached(s: seq<Entry>, cbs: set<Callback>): (r: seq<Entry>)
    ensures |r| <= |s|
    ensures forall e :: e in r <==> e in s && e.cb !in cbs
  {
    if s == [] then []
    else if s[0].cb in cbs then Detached(s[1..], cbs)
    else [s[0]] + Detached(s[1..], cbs)
  }

  /** The callbacks named in s. */
  function Callbacks(s: seq<Entry>): set<Callback>
  {
    set e | e in s :: e.cb
  }

  /** Detaching is a filter: it distributes over concatenation. */
  lemma {:induction false} DetachedAppend(s: seq<Entry>, t: seq<Entry>, cbs: set<Callback>)
    ensures Detached(s + t, cbs) == Detached(s, cbs) + Detached(t, cbs)
  {
    if s != [] {
      assert (s + t)[1..] == s[1..] + t;
      DetachedAppend(s[1..], t, cbs);
      if s[0].cb !in cbs {
        assert [s[0]] + (Detached(s[1..], cbs) + Detached(t, cbs))
            == ([s[0]] + Detached(s[1..], cbs)) + Detached(t, cbs);
      }
    } else {
      assert s + t == t;
    }
  }

  /** Entries whose callbacks are all outside cbs are kept as they are. */
  lemma {:induction false} DetachedKeeps(s: seq<Entry>, cbs: set<Callback>)
    requires forall e :: e in s ==> e.cb !in cbs
    ensures Detached(s, cbs) == s
  {
    if s != [] {
      DetachedKeeps(s[1..], cbs);
    }
  }

  /** Entries whose callbacks are all in cbs are all removed. */
  lemma {:induction false} DetachedDrops(s: seq<Entry>, cbs: set<Callback>)
    requires forall e :: e in s ==> e.cb in cbs
    ensures Detached(s, cbs) == []
  {
    if s != [] {
      DetachedDrops(s[1..], cbs);
    }
  }

  /** Detaching two sets one after the other detaches their union. */
  lemma {:induction false} DetachedTwice(s: seq<Entry>, a: set<Callback>, b: set<Callback>)
    ensures Detached(Detached(s, a), b) == Detached(s, a + b)
  {
    if s != [] {
      DetachedTwice(s[1..], a, b);
    }
  }

  /** Detaching the same callbacks again changes nothing. */
  lemma DetachedIdempotent(s: seq<Entry>, cbs: set<Callback>)
    ensures Detached(Detached(s, cbs), cbs) == Detached(s, cbs)
  {
    DetachedTwice(s, cbs, cbs);
    assert cbs + cbs == cbs;
  }

  /**
   * Pausing a clock that holds other entries followed by registered ones
   * leaves exactly the other entries.
   */
  lemma PauseLeavesOthers(others: seq<Entry>, registered: seq<Entry>)
    requires forall e :: e in others ==> e.cb !in Callbacks(registered)
    ensures Detached(others + registered, Callbacks(registered)) == others
  {
    DetachedAppend(others, registered, Callbacks(registered));
    DetachedKeeps(others, Callbacks(registered));
    DetachedDrops(registered, Callbacks(registered));
  }

  /** How often an entry survives detaching: never if its callback is detached, otherwise as often as before. */
  lemma {:induction false} DetachedCount(s: seq<Entry>, cbs: set<Callback>, e: Entry)
    ensures multiset(Detached(s, cbs))[e] == if e.cb in cbs then 0 else multiset(s)[e]
  {
    if s != [] {
      DetachedCount(s[1..], cbs, e);
      assert s == [s[0]] + s[1..];
      assert multiset(s) == multiset{s[0]} + multiset(s[1..]);
    }
  }

  /**
   * Pausing and then resuming restores the live entries: whatever mix of
   * other entries and registered records the clock held, detaching the
   * registered callbacks and re-attaching the interval records and then
   * the per-frame records gives back the same entries, each as often as
   * before (the order may differ).
   */
  lemma PauseResumeRestores(live: seq<Entry>, others: seq<Entry>, intervals: seq<Entry>, frames: seq<Entry>)
    requires multiset(live) == multiset(others) + multiset(intervals + frames)
    requires forall e :: e in others ==> e.cb !in Callbacks(intervals + frames)
    ensures multiset(Detached(live, Callbacks(intervals + frames)) + intervals + frames) == multiset(live)
  {
    var regs := intervals + frames;
    var cbs := Callbacks(regs);
    var kept := Detached(live, cbs);
    forall e
      ensures multiset(kept)[e] == multiset(others)[e]
    {
      DetachedCount(live, cbs, e);
      if e.cb in cbs {
        assert e !in others;
      } else {
        assert e !in regs;
      }
    }
    assert multiset(kept) == multiset(others);
    assert kept + intervals + frames == kept + regs;
  }

  /** schedule(f, ...) followed by unschedule(f) leaves what was there, less f's entries. */
  lemma ScheduleThenUnschedule(s: seq<Entry>, e: Entry)
    ensures Detached(s + [e], {e.cb}) == Detached(s, {e.cb})
  {
    DetachedAppend(s, [e], {e.cb});
    assert Detached([e], {e.cb}) == [];
  }

  /**
   * The host clock, pyglet.clock: schedule and schedule_interval each add
   * one live entry; unschedule removes every entry of that callback and is
   * silent when there is none.
   */
  class Clock {
    var entries: seq<Entry>

    constructor (entries: seq<Entry>)
      ensures this.entries == entries
    {
      this.entries := entries;
    }

    method Schedule(cb: Callback, args: seq<Value>, kwargs: map<string, Value>)
      modifies this
      ensures entries == old(entries) + [Frame(cb, args, kwargs)]
    {
      entries := entries + [Frame(cb, args, kwargs)];
    }

    method ScheduleInterval(cb: Callback, interval: real, args: seq<Value>, kwargs: map<string, Value>)
      modifies this
      ensures entries == old(entries) + [Interval(cb, interval, args, kwargs)]
    {
      entries := entries + [Interval(cb, interval, args, kwargs)];
    }

    method Unschedule(cb: Callback)
      modifies this
      ensures entries == Detached(old(entries), {cb})
    {
      entries := Detached(entries, {cb});
    }
  }
}
