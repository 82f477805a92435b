/** The two filter streams of the order list
    (src/app/components/order-list/order-list.component.ts): each is
    `debounceTime(400)` followed by `distinctUntilChanged()`.

    Debouncing is modelled on timestamped input events: an event survives
    when nothing follows it within the quiet period. The stream as the
    component holds it is a small machine with a pending value (not yet
    settled) and the last value it let through; `DriveMatchesSpec` proves
    that machine, fed the same events, emits exactly what the declarative
    definition says. */
module FilterPipeline {
  import opened Models

  const QuietPeriodMs: int := 400

  /** One raw change: its time in milliseconds and the input's value. */
  datatype InputEvent = InputEvent(at: int, value: string)

  /** `debounceTime(QuietPeriodMs)`: the values followed by at least the
      quiet period of silence, or by nothing at all. */
  function Debounce(evs: seq<InputEvent>): seq<string> {
    if evs == [] then []
    else if |evs| == 1 then [evs[0].value]
    else (if evs[1].at - evs[0].at >= QuietPeriodMs then [evs[0].value] else []) + Debounce(evs[1..])
  }

  /** `distinctUntilChanged()`, given the last value let through so far. */
  function Distinct(vs: seq<string>, last: Option<string>): seq<string> {
    if vs == [] then []
    else if last == Some(vs[0]) then Distinct(vs[1..], last)
    else [vs[0]] + Distinct(vs[1..], Some(vs[0]))
  }

  /** The stream as held between events. */
  datatype Stream = Stream(pending: Option<string>, last: Option<string>)

  /** A stream nothing has gone through. */
  const Idle: Stream := Stream(None, None)

  /** What `Settle` produces: the new stream and the value it lets through,
      if any. */
  datatype Settled = Settled(stream: Stream, emitted: Option<string>)

  /** A new value replaces whatever was pending: a burst keeps only its last. */
  function Feed(s: Stream, v: string): (r: Stream)
    ensures r.pending == Some(v) && r.last == s.last
  {
    s.(pending := Some(v))
  }

  /** The quiet period elapses: the pending value, if any, settles and is let
      through unless it equals the last value let through. */
  function Settle(s: Stream): (r: Settled)
    ensures r.stream.pending == None
    ensures r.emitted.Some? <==> s.pending.Some? && s.pending != s.last
    ensures r.emitted.Some? ==> r.emitted == s.pending && r.stream.last == s.pending
    ensures r.emitted.None? ==> r.stream.last == s.last
  {
    match s.pending
    case None => Settled(s, None)
    case Some(v) =>
      if s.last == Some(v) then Settled(Stream(None, s.last), None)
      else Settled(Stream(None, Some(v)), Some(v))
  }

  function OptionSeq(o: Option<string>): seq<string> {
    if o.Some? then [o.value] else []
  }

  /** The machine driven by timestamped events: each event is fed, and the
      stream settles whenever the next event is at least the quiet period
      away or there is none. */
  function Drive(s: Stream, evs: seq<InputEvent>): seq<string>
    decreases |evs|
  {
    if evs == [] then []
    else
      var s1 := Feed(s, evs[0].value);
      if |evs| == 1 || evs[1].at - evs[0].at >= QuietPeriodMs then
        var r := Settle(s1);
        OptionSeq(r.emitted) + Drive(r.stream, evs[1..])
      else Drive(s1, evs[1..])
  }

  /** The machine emits exactly the distinct debounced values, whatever was
      pending before the events: the first event replaces it. */
  lemma {:induction false} DriveMatchesSpec(pending: Option<string>, last: Option<string>, evs: seq<InputEvent>)
    ensures Drive(Stream(pending, last), evs) == Distinct(Debounce(evs), last)
    decreases |evs|
  {
    if evs != [] {
      var v := evs[0].value;
      var s1 := Feed(Stream(pending, last), v);
      if |evs| == 1 || evs[1].at - evs[0].at >= QuietPeriodMs {
        var r := Settle(s1);
        DriveMatchesSpec(None, Some(v), evs[1..]);
        assert Debounce(evs) == [v] + Debounce(evs[1..]);
        assert ([v] + Debounce(evs[1..]))[1..] == Debounce(evs[1..]);
        if last == Some(v) {
          assert r.emitted == None && r.stream == Stream(None, Some(v));
        } else {
          assert r.emitted == Some(v) && r.stream == Stream(None, Some(v));
        }
      } else {
        DriveMatchesSpec(Some(v), last, evs[1..]);
        assert Debounce(evs) == Debounce(evs[1..]);
      }
    }
  }

  /** Events that each come less than the quiet period after the previous
      one collapse to the last of them. */
  predicate IsBurst(evs: seq<InputEvent>) {
    forall i :: 0 <= i < |evs| - 1 ==> evs[i + 1].at - evs[i].at < QuietPeriodMs
  }

  lemma {:induction false} BurstCollapses(evs: seq<InputEvent>)
    requires evs != [] && IsBurst(evs)
    ensures Debounce(evs) == [evs[|evs| - 1].value]
  {
    if |evs| > 1 {
      assert IsBurst(evs[1..]) by {
        forall i | 0 <= i < |evs[1..]| - 1
          ensures evs[1..][i + 1].at - evs[1..][i].at < QuietPeriodMs
        {
          assert evs[1..][i] == evs[i + 1] && evs[1..][i + 1] == evs[i + 2];
        }
      }
      BurstCollapses(evs[1..]);
    }
  }

  /** A whole burst therefore triggers at most one query: its last value,
      and only when that differs from the last value let through. */
  lemma BurstTriggersAtMostOnce(last: Option<string>, evs: seq<InputEvent>)
    requires evs != [] && IsBurst(evs)
    ensures var v := evs[|evs| - 1].value;
      Drive(Stream(None, last), evs) == if last == Some(v) then [] else [v]
  {
    BurstCollapses(evs);
    DriveMatchesSpec(None, last, evs);
    var v := evs[|evs| - 1].value;
    assert [v][1..] == [];
  }

  /** What the filter lets through never repeats the previous value: neither
      two consecutive outputs nor the first output and the last value before
      them are equal. */
  lemma {:induction false} DistinctNeverRepeats(vs: seq<string>, last: Option<string>)
    ensures var out := Distinct(vs, last);
      (out != [] ==> last != Some(out[0]))
      && forall i :: 0 <= i < |out| - 1 ==> out[i] != out[i + 1]
  {
    if vs != [] {
      DistinctNeverRepeats(vs[1..], last);
      DistinctNeverRepeats(vs[1..], Some(vs[0]));
      var rest := Distinct(vs[1..], Some(vs[0]));
      if last != Some(vs[0]) {
        var out := [vs[0]] + rest;
        forall i | 0 <= i < |out| - 1 ensures out[i] != out[i + 1] {
          if i > 0 {
            assert out[i] == rest[i - 1] && out[i + 1] == rest[i];
          }
        }
      }
    }
  }

  /** `xs` is `ys` with some elements left out, the rest in their order. */
  predicate IsSubsequence(xs: seq<string>, ys: seq<string>)
    decreases |ys|
  {
    xs == [] || (ys != [] && ((xs[0] == ys[0] && IsSubsequence(xs[1..], ys[1..])) || IsSubsequence(xs, ys[1..])))
  }

  /** What the filter lets through are input values, in their input order. */
  lemma {:induction false} DistinctKeepsOrder(vs: seq<string>, last: Option<string>)
    ensures |Distinct(vs, last)| <= |vs|
    ensures IsSubsequence(Distinct(vs, last), vs)
    ensures forall x :: x in Distinct(vs, last) ==> x in vs
  {
    if vs != [] {
      DistinctKeepsOrder(vs[1..], last);
      DistinctKeepsOrder(vs[1..], Some(vs[0]));
      if last != Some(vs[0]) {
        var out := Distinct(vs, last);
        assert out[0] == vs[0] && out[1..] == Distinct(vs[1..], Some(vs[0]));
      }
    }
  }

  /** The last value let through, starting from `last`. */
  function LastLetThrough(out: seq<string>, last: Option<string>): Option<string> {
    if out == [] then last else Some(out[|out| - 1])
  }

  /** Nothing is lost for good: once the input stops, the last value let
      through is the last input value (or the previous one, for no input). */
  lemma {:induction false} DistinctEndsOnLastValue(vs: seq<string>, last: Option<string>)
    ensures LastLetThrough(Distinct(vs, last), last) == if vs == [] then last else Some(vs[|vs| - 1])
  {
    if vs != [] {
      DistinctEndsOnLastValue(vs[1..], last);
      DistinctEndsOnLastValue(vs[1..], Some(vs[0]));
      if last != Some(vs[0]) {
        var rest := Distinct(vs[1..], Some(vs[0]));
        if rest != [] {
          assert ([vs[0]] + rest)[|rest|] == rest[|rest| - 1];
        }
      }
    }
  }

  /** The stream state after the filters are cleared: nothing pending, and
      the cleared value counts as the last one let through. */
  const Cleared: Stream := Stream(None, Some(""))

  /** After the filters are cleared with the streams reset, re-entering a
      non-empty value lets it through after one quiet period. */
  lemma RepeatAfterClear(again: seq<InputEvent>)
    requires again != [] && IsBurst(again) && again[|again| - 1].value != ""
    ensures Drive(Cleared, again) == [again[|again| - 1].value]
  {
    BurstTriggersAtMostOnce(Some(""), again);
  }

  /** The source's `clearFilters` leaves the streams as they were. A stream
      that last let `v` through then swallows a later burst ending in `v`,
      although the list was reloaded unfiltered in between. */
  lemma RepeatAfterClearAsWritten(s: Stream, again: seq<InputEvent>)
    requires s.pending == None && again != [] && IsBurst(again)
    requires s.last == Some(again[|again| - 1].value)
    ensures Drive(s, again) == []
  {
    BurstTriggersAtMostOnce(s.last, again);
  }
}
