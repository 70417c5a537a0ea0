// Stepping a link in segments and capturing selected frames
// (scripts/diagnose_pair_trade.py, scripts/_diagnose_pair_trade_support.py).
module CaptureProxy {
  import opened Common

  // ------------------------------------------------- one frame at a time

  // The selected frames after `start` and up to `end`, stepping one frame at a time.
  function Crossed(selected: set<nat>, start: nat, end: nat): (c: seq<nat>)
    decreases end
  {
    if end <= start then []
    else Crossed(selected, start, end - 1) + if end in selected then [end] else []
  }

  predicate Increasing(s: seq<nat>) {
    forall i, j :: 0 <= i < j < |s| ==> s[i] < s[j]
  }

  lemma Append(s: seq<nat>, x: nat)
    requires Increasing(s) && forall f :: f in s ==> f < x
    ensures Increasing(s + [x])
  {
    assert forall i :: 0 <= i < |s| ==> s[i] in s;
  }

  // Each selected frame crossed appears exactly once, in order.
  lemma {:induction false} CrossedExactly(selected: set<nat>, start: nat, end: nat)
    ensures Increasing(Crossed(selected, start, end))
    ensures forall f :: f in Crossed(selected, start, end) <==> f in selected && start < f <= end
    decreases end
  {
    if start < end {
      CrossedExactly(selected, start, end - 1);
      Append(Crossed(selected, start, end - 1), end);
    }
  }

  lemma {:induction false} CrossedSplits(selected: set<nat>, start: nat, mid: nat, end: nat)
    requires start <= mid <= end
    ensures Crossed(selected, start, end) == Crossed(selected, start, mid) + Crossed(selected, mid, end)
    decreases end
  {
    if mid < end {
      CrossedSplits(selected, start, mid, end - 1);
    }
  }

  // No selected frame strictly inside a stretch: only its end can be captured.
  lemma {:induction false} CrossedQuiet(selected: set<nat>, start: nat, end: nat)
    requires start < end && forall f :: start < f < end ==> f !in selected
    ensures Crossed(selected, start, end) == if end in selected then [end] else []
    decreases end
  {
    if start < end - 1 { CrossedQuiet(selected, start, end - 1); }
  }

  // What a number of frames means: the position moves by it and the crossed
  // selected frames are captured in order.
  datatype Progress = Progress(frame: nat, captures: seq<nat>)

  function After(selected: set<nat>, p: Progress, frames: nat): Progress {
    Progress(p.frame + frames, p.captures + Crossed(selected, p.frame, p.frame + frames))
  }

  lemma Associates(a: seq<nat>, b: seq<nat>, c: seq<nat>)
    ensures (a + b) + c == a + (b + c)
  {
  }

  // Advancing by a and then by b is advancing by a + b.
  lemma AdvancesCompose(selected: set<nat>, p: Progress, a: nat, b: nat)
    ensures After(selected, After(selected, p, a), b) == After(selected, p, a + b)
  {
    hide Crossed;
    CrossedSplits(selected, p.frame, p.frame + a, p.frame + a + b);
    Associates(p.captures, Crossed(selected, p.frame, p.frame + a), Crossed(selected, p.frame + a, p.frame + a + b));
  }

  // ------------------------------------------------------ stepping in segments

  // The first selected frame after the position, or the end of the request.
  function NextBoundary(selected: set<nat>, start: nat, end: nat): (b: nat)
    requires start < end
    ensures start < b <= end && forall f :: start < f < b ==> f !in selected
    ensures b == end || b in selected
    decreases end - start
  {
    if start + 1 == end || start + 1 in selected then start + 1 else NextBoundary(selected, start + 1, end)
  }

  function Total(segments: seq<nat>): nat {
    if segments == [] then 0 else Total(segments[..|segments| - 1]) + segments[|segments| - 1]
  }

  ghost predicate Bounded(segments: seq<nat>, longest: Option<nat>) {
    forall k :: 0 <= k < |segments| ==> segments[k] >= 1 && (longest.Some? ==> segments[k] <= longest.value)
  }

  lemma PushSegment(segments: seq<nat>, longest: Option<nat>, segment: nat)
    requires Bounded(segments, longest) && segment >= 1 && (longest.Some? ==> segment <= longest.value)
    ensures Bounded(segments + [segment], longest) && Total(segments + [segment]) == Total(segments) + segment
  {
    assert (segments + [segment])[..|segments|] == segments;
  }

  // The set kept by the proxy holds the captures made, each once.
  ghost predicate Recorded(captures: seq<nat>, captured: set<nat>) {
    Increasing(captures) && (forall f :: f in captures <==> f in captured) && |captured| == |captures|
  }

  lemma PushCapture(captures: seq<nat>, captured: set<nat>, x: nat)
    requires Recorded(captures, captured) && forall f :: f in captures ==> f < x
    ensures Recorded(captures + [x], captured + {x})
  {
    Append(captures, x);
    assert x !in captured;
  }

  datatype Stop = Finished | NotPositive | DeadlinePassed | TargetFailed | CaptureFailed

  class CaptureLinkProxy {
    const selected: set<nat>
    const maxSegment: Option<nat>
    var frameOrdinal: nat
    var captured: set<nat>
    // Every capture made and every operation asked of the link, in order.
    ghost var captures: seq<nat>
    ghost var segments: seq<nat>

    ghost predicate Valid()
      reads this
    {
      && (maxSegment.Some? ==> maxSegment.value >= 1)
      && Bounded(segments, maxSegment) && Total(segments) == frameOrdinal
      && captures != [] && captures[0] == 0 && Recorded(captures, captured)
      && (forall f :: f in captures ==> f <= frameOrdinal && (f == 0 || f in selected))
    }

    constructor (selectedFrames: seq<nat>, longest: Option<nat>)
      requires longest.Some? ==> longest.value >= 1
      ensures Valid() && frameOrdinal == 0 && captures == [0] && segments == []
      ensures selected == (set f | f in selectedFrames) && maxSegment == longest
    {
      selected := set f | f in selectedFrames;
      maxSegment := longest;
      frameOrdinal, captured := 0, {0};
      captures, segments := [0], [];
    }

    ghost function State(): Progress
      reads this
    {
      Progress(frameOrdinal, captures)
    }

    // Everything up to the position is done, except that a stop may have come between
    // reaching a selected frame and capturing it.
    ghost predicate StoppedAfter(before: Progress)
      reads this
    {
      && before.frame <= frameOrdinal
      && var reached := After(selected, before, frameOrdinal - before.frame);
         captures == reached.captures || (frameOrdinal in selected && captures + [frameOrdinal] == reached.captures)
    }

    // The link runs the segment, or fails without it.
    method StepTarget(segment: nat) returns (ok: bool)
      requires Valid() && segment >= 1 && (maxSegment.Some? ==> segment <= maxSegment.value)
      modifies this`segments, this`frameOrdinal
      ensures Valid() && old(segments) <= segments
      ensures frameOrdinal == old(frameOrdinal) + if ok then segment else 0
    {
      if * {
        return false;
      }
      hide Bounded, Recorded, Total;
      PushSegment(segments, maxSegment, segment);
      segments := segments + [segment];
      frameOrdinal := frameOrdinal + segment;
      ok := true;
    }

    // The deadline is checked once more, then the frame is captured.
    method CaptureHere() returns (stop: Stop)
      requires Valid() && frameOrdinal in selected && forall f :: f in captures ==> f < frameOrdinal
      modifies this`captures, this`captured
      ensures Valid() && stop != NotPositive
      ensures captures == old(captures) + if stop == Finished then [frameOrdinal] else []
    {
      if * {
        stop := DeadlinePassed;
      } else if * {
        stop := CaptureFailed;
      } else {
        hide Bounded, Recorded, Total;
        PushCapture(captures, captured, frameOrdinal);
        captures := captures + [frameOrdinal];
        captured := captured + {frameOrdinal};
        stop := Finished;
      }
    }

    // One operation of the link and the capture at its end, if that frame is selected.
    method RunSegment(segment: nat) returns (stop: Stop)
      requires Valid() && segment >= 1 && (maxSegment.Some? ==> segment <= maxSegment.value)
      requires forall f :: frameOrdinal < f < frameOrdinal + segment ==> f !in selected
      modifies this
      ensures Valid() && stop != NotPositive && old(segments) <= segments
      ensures old(frameOrdinal) <= frameOrdinal <= old(frameOrdinal) + segment
      ensures stop == Finished ==>
        frameOrdinal == old(frameOrdinal) + segment && State() == After(selected, old(State()), segment)
      ensures stop != Finished ==> StoppedAfter(old(State()))
    {
      ghost var before := State();
      CapturesSoFar();
      NoFrames(selected, before);
      CrossedQuiet(selected, frameOrdinal, frameOrdinal + segment);
      hide Valid, Crossed;
      stop := TargetFailed;
      var ok := StepTarget(segment);
      if ok {
        stop := Finished;
        if frameOrdinal in selected {
          stop := CaptureHere();
        }
      }
    }

    lemma CapturesSoFar()
      requires Valid()
      ensures forall f :: f in captures ==> f <= frameOrdinal
    {
    }

    // The segment loop. The deadline, the link and the capture may each end it early.
    method Advance(frames: int) returns (stop: Stop)
      requires Valid()
      modifies this
      ensures Valid() && old(segments) <= segments
      ensures stop == NotPositive <==> frames <= 0
      ensures stop == NotPositive ==> State() == old(State()) && segments == old(segments)
      ensures stop == Finished ==> State() == After(selected, old(State()), frames)
      ensures stop != NotPositive ==> StoppedAfter(old(State())) && frameOrdinal <= old(frameOrdinal) + frames
    {
      if frames <= 0 {
        return NotPositive;
      }
      stop := AdvanceTo(frameOrdinal + frames);
    }

    method AdvanceTo(requestedEnd: nat) returns (stop: Stop)
      requires Valid() && frameOrdinal < requestedEnd
      modifies this
      ensures Valid() && old(segments) <= segments && stop != NotPositive
      ensures stop == Finished ==> State() == After(selected, old(State()), requestedEnd - old(frameOrdinal))
      ensures StoppedAfter(old(State())) && frameOrdinal <= requestedEnd
    {
      hide Valid, After, StoppedAfter, Crossed, NextBoundary;
      ghost var before := State();
      NoFrames(selected, before);
      AtRest(before);
      stop := Finished;
      while stop == Finished && frameOrdinal < requestedEnd
        invariant Valid() && old(segments) <= segments && stop != NotPositive
        invariant before.frame <= frameOrdinal <= requestedEnd
        invariant stop == Finished ==> State() == After(selected, before, frameOrdinal - before.frame)
        invariant StoppedAfter(before)
        decreases stop == Finished, requestedEnd - frameOrdinal
      {
        if * {
          stop := DeadlinePassed;
        } else {
          var segment := NextSegment(requestedEnd);
          ghost var here := State();
          stop := RunSegment(segment);
          if stop == Finished {
            AdvancesCompose(selected, before, here.frame - before.frame, segment);
            AtRest(before);
          } else {
            StoppedFurther(before, here);
          }
        }
      }
    }

    // Up to the next selected frame or the end, but no longer than one operation may be.
    function NextSegment(requestedEnd: nat): (segment: nat)
      requires Valid() && frameOrdinal < requestedEnd
      reads this
      ensures 1 <= segment <= requestedEnd - frameOrdinal && (maxSegment.Some? ==> segment <= maxSegment.value)
      ensures forall f :: frameOrdinal < f < frameOrdinal + segment ==> f !in selected
    {
      var segment := NextBoundary(selected, frameOrdinal, requestedEnd) - frameOrdinal;
      if maxSegment.Some? && maxSegment.value < segment then maxSegment.value else segment
    }

    lemma AtRest(before: Progress)
      requires before.frame <= frameOrdinal && State() == After(selected, before, frameOrdinal - before.frame)
      ensures StoppedAfter(before)
    {
    }

    // A frame reached and not captured is behind the position for good: no later
    // advance, however it ends, captures it.
    lemma MissedStaysMissed(before: Progress)
      requires StoppedAfter(before) && before.frame !in before.captures
      ensures before.frame !in captures
    {
      CrossedExactly(selected, before.frame, frameOrdinal);
      hide Crossed;
      var reached := After(selected, before, frameOrdinal - before.frame);
      assert before.frame !in reached.captures;
    }

    lemma StoppedFurther(before: Progress, here: Progress)
      requires before.frame <= here.frame && here == After(selected, before, here.frame - before.frame)
      requires StoppedAfter(here)
      ensures StoppedAfter(before)
    {
      AdvancesCompose(selected, before, here.frame - before.frame, frameOrdinal - here.frame);
    }
  }

  lemma NoFrames(selected: set<nat>, p: Progress)
    ensures After(selected, p, 0) == p
  {
  }

  // --------------------------------------------------------- how many captures

  // Requested frame numbers, validated, each once, in order, frame zero left out.
  method NormaliseCaptureFrames(values: Option<seq<int>>) returns (r: Option<seq<nat>>)
    ensures r.Some? <==> values == None || forall v :: v in values.value ==> v >= 0
    ensures r.Some? ==> Increasing(r.value)
    ensures r.Some? ==> forall f: nat :: f in r.value <==> values.Some? && f in values.value && f != 0
  {
    if values == None {
      return Some([]);
    }
    var normalised: set<nat> := {};
    for i := 0 to |values.value|
      invariant forall v :: v in values.value[..i] ==> v >= 0
      invariant forall f: nat :: f in normalised <==> f in values.value[..i] && f != 0
    {
      assert values.value[..i + 1] == values.value[..i] + [values.value[i]];
      if values.value[i] < 0 {
        assert values.value[i] in values.value;
        return None;
      }
      if values.value[i] != 0 {
        normalised := normalised + {values.value[i]};
      }
    }
    assert values.value[..|values.value|] == values.value;
    var sorted := Sorted(normalised);
    r := Some(sorted);
  }

  lemma {:induction false} HasLeast(s: set<nat>) returns (m: nat)
    requires s != {}
    ensures m in s && forall x :: x in s ==> m <= x
    decreases |s|
  {
    var a :| a in s;
    var others := s - {a};
    if others == {} {
      assert s == {a};
      m := a;
    } else {
      var n := HasLeast(others);
      m := if a < n then a else n;
      assert forall x :: x in s ==> x == a || x in others;
    }
  }

  lemma Smaller<T>(a: set<T>, b: set<T>)
    requires a < b
    ensures |a| < |b|
  {
    assert b == a + (b - a);
    assert b - a != {};
  }

  method Sorted(s: set<nat>) returns (sorted: seq<nat>)
    ensures Increasing(sorted) && forall f :: f in sorted <==> f in s
  {
    sorted := [];
    var rest := s;
    while rest != {}
      invariant rest <= s && Increasing(sorted)
      invariant forall f :: f in s <==> f in sorted || f in rest
      invariant forall f, x :: f in sorted && x in rest ==> f < x
      decreases |rest|
    {
      ghost var m := HasLeast(rest);
      var least :| least in rest && forall x :: x in rest ==> least <= x;
      Append(sorted, least);
      sorted := sorted + [least];
      rest := rest - {least};
    }
  }

  lemma {:induction false} IncreasingLength(s: seq<nat>)
    requires Increasing(s)
    ensures |Elements(s)| == |s|
  {
    if s != [] {
      var init, last := s[..|s| - 1], s[|s| - 1];
      IncreasingLength(init);
      assert s == init + [last];
      assert Elements(s) == Elements(init) + {last} && last !in Elements(init);
    }
  }

  // The frames asked for besides frame zero, which is always captured.
  function Wanted(values: Option<seq<int>>): set<nat> {
    if values.Some? then set v | v in values.value && v > 0 :: v as nat else {}
  }

  // The frames the run captures: zero and every frame wanted, each once and in order.
  // Refused exactly for a negative frame or for more frames than are allowed.
  method SelectFrames(values: Option<seq<int>>, maxCaptures: int) returns (r: Option<seq<nat>>)
    ensures r.Some? <==>
      && (values.Some? ==> forall v :: v in values.value ==> v >= 0)
      && 1 + |Wanted(values)| <= maxCaptures
    ensures r.Some? ==> Increasing(r.value) && forall f :: f in r.value <==> f == 0 || f in Wanted(values)
    ensures r.Some? ==> |r.value| == 1 + |Wanted(values)|
  {
    var requested := NormaliseCaptureFrames(values);
    if requested == None || maxCaptures <= 0 {
      return None;
    }
    var all := [0] + requested.value;
    IncreasingLength(requested.value);
    assert Elements(requested.value) == Wanted(values);
    assert forall i :: 0 <= i < |requested.value| ==> requested.value[i] in requested.value;
    if |all| > maxCaptures {
      return None;
    }
    r := Some(all);
  }

  // However often and however far a proxy advances, it never captures more frames
  // than the run selected, and never one frame twice.
  lemma CapturesWithinSelection(proxy: CaptureLinkProxy, frames: seq<nat>)
    requires proxy.Valid() && 0 in frames && forall f :: f in proxy.selected ==> f in frames
    ensures |proxy.captures| <= |frames|
    ensures Increasing(proxy.captures)
  {
    AtMostLength(frames);
    var all := Elements(frames);
    assert proxy.captured <= all;
    if proxy.captured != all { Smaller(proxy.captured, all); }
  }

  function Elements(s: seq<nat>): set<nat> { set f | f in s }

  lemma {:induction false} AtMostLength(s: seq<nat>)
    ensures |Elements(s)| <= |s|
  {
    if s == [] {
      assert Elements(s) == {};
    } else {
      var init, last := s[..|s| - 1], s[|s| - 1];
      AtMostLength(init);
      assert s == init + [last];
      assert Elements(s) == Elements(init) + {last};
    }
  }
}
