/**
 What the main loop (User/core/src/main.c) has to do, without driver or chip: a function of the frames its turns
 consumed and of the stack's decisions. The loop itself is in the module Program.
 */
module Account {
  import opened Bytes
  import opened Options
  import opened ChipModel
  import opened Interface
  import opened Station

  /** What becomes of a consumed frame. */
  datatype Fate = Handed | NoBuffer | Empty

  /** The stack's counters afterwards, the packets handed to it, and the chains it asked to send. */
  datatype Outcome = Outcome(counters: Counters, given: seq<seq<byte>>, out: seq<Pbuf>)

  /** A frame without bytes is dropped without asking for a buffer. */
  function FateOf(f: Frame, granted: bool, maxlen: nat): Fate {
    if Delivered(f, maxlen) == [] then Empty else if granted then Handed else NoBuffer
  }

  /** One turn, which consumed the frame `event`, or none. */
  function TurnOf(choices: Choices, k: Counters, event: Option<Frame>, maxlen: nat): Outcome {
    var idle := k.(ticks := k.ticks + 1);
    var due := choices.timers(k.ticks);
    if event.None? then Outcome(idle, [], due)
    else
      match FateOf(event.value, choices.grants(k.allocs), maxlen)
      case Empty => Outcome(idle, [], due)
      case NoBuffer => Outcome(idle.(allocs := k.allocs + 1), [], due)
      case Handed =>
        Outcome(idle.(allocs := k.allocs + 1, inputs := k.inputs + 1), [Delivered(event.value, maxlen)],
                choices.replies(k.inputs) + due)
  }

  /** The record carried on. */
  function Then(r: Record, o: Outcome): Record {
    Record(o.counters, r.handed + o.given, r.requested + o.out)
  }

  /** Turns one after another. */
  function RunOf(choices: Choices, k: Counters, events: seq<Option<Frame>>, maxlen: nat): Outcome {
    if events == [] then Outcome(k, [], [])
    else
      var n := |events| - 1;
      var before := RunOf(choices, k, events[..n], maxlen);
      var last := TurnOf(choices, before.counters, events[n], maxlen);
      Outcome(last.counters, before.given + last.given, before.out + last.out)
  }

  /** The frames consumed, in order. */
  function Consumed(events: seq<Option<Frame>>): seq<Frame> {
    if events == [] then []
    else
      var n := |events| - 1;
      Consumed(events[..n]) + if events[n].Some? then [events[n].value] else []
  }

  lemma RunOfAppend(choices: Choices, k: Counters, events: seq<Option<Frame>>, event: Option<Frame>, maxlen: nat)
    ensures var before := RunOf(choices, k, events, maxlen);
            var last := TurnOf(choices, before.counters, event, maxlen);
            RunOf(choices, k, events + [event], maxlen)
            == Outcome(last.counters, before.given + last.given, before.out + last.out)
    ensures Consumed(events + [event]) == Consumed(events) + if event.Some? then [event.value] else []
  {
    assert (events + [event])[..|events|] == events;
    hide TurnOf;
  }

  lemma ThenNext(choices: Choices, r0: Record, r: Record, events: seq<Option<Frame>>, event: Option<Frame>, maxlen: nat)
    requires r == Then(r0, RunOf(choices, r0.counts, events, maxlen))
    ensures var last := TurnOf(choices, r.counts, event, maxlen);
            && Then(r, last) == Then(r0, RunOf(choices, r0.counts, events + [event], maxlen))
            && RunOf(choices, r0.counts, events + [event], maxlen).out
               == RunOf(choices, r0.counts, events, maxlen).out + last.out
  {
    hide RunOf, TurnOf;
    RunOfAppend(choices, r0.counts, events, event, maxlen);
    var before, last := RunOf(choices, r0.counts, events, maxlen), TurnOf(choices, r.counts, event, maxlen);
    ConcatAssociates(r0.handed, before.given, last.given);
    ConcatAssociates(r0.requested, before.out, last.out);
  }

  // ---------- The frames alone ----------

  /** How many of the frames have bytes: so many buffers are asked for. */
  function NonEmpty(frames: seq<Frame>, maxlen: nat): nat {
    if frames == [] then 0
    else
      var n := |frames| - 1;
      NonEmpty(frames[..n], maxlen) + if Delivered(frames[n], maxlen) == [] then 0 else 1
  }

  /** The fate of the frame `i`, when the first buffer asked for is the pool's request `a`. */
  function FateAt(frames: seq<Frame>, grants: nat -> bool, a: nat, maxlen: nat, i: nat): Fate
    requires i < |frames|
  {
    FateOf(frames[i], grants(a + NonEmpty(frames[..i], maxlen)), maxlen)
  }

  /** The bytes of the frames that are handed over, in order. */
  function GivenOf(frames: seq<Frame>, grants: nat -> bool, a: nat, maxlen: nat): seq<seq<byte>> {
    if frames == [] then []
    else
      var n := |frames| - 1;
      GivenOf(frames[..n], grants, a, maxlen)
      + if FateAt(frames, grants, a, maxlen, n).Handed? then [Delivered(frames[n], maxlen)] else []
  }

  /** The frames that met a given fate. */
  function WithFate(frames: seq<Frame>, grants: nat -> bool, a: nat, maxlen: nat, fate: Fate): set<nat> {
    set i: nat | i < |frames| && FateAt(frames, grants, a, maxlen, i) == fate
  }

  lemma FrameAppend(frames: seq<Frame>, grants: nat -> bool, a: nat, maxlen: nat, f: Frame)
    ensures var fate := FateOf(f, grants(a + NonEmpty(frames, maxlen)), maxlen);
            && NonEmpty(frames + [f], maxlen) == NonEmpty(frames, maxlen) + (if fate.Empty? then 0 else 1)
            && GivenOf(frames + [f], grants, a, maxlen)
               == GivenOf(frames, grants, a, maxlen) + if fate.Handed? then [Delivered(f, maxlen)] else []
  {
    assert (frames + [f])[..|frames|] == frames;
    hide Delivered;
  }

  /** Turns that consume nothing do not matter: what is handed over depends on the frames and the pool only. */
  lemma {:induction false} RunDependsOnFrames(choices: Choices, k: Counters, events: seq<Option<Frame>>, maxlen: nat)
    ensures var run, frames := RunOf(choices, k, events, maxlen), Consumed(events);
            && run.given == GivenOf(frames, choices.grants, k.allocs, maxlen)
            && run.counters == Counters(k.allocs + NonEmpty(frames, maxlen), k.inputs + |run.given|, k.ticks + |events|)
  {
    hide RunOf, Consumed, GivenOf, NonEmpty, FateOf, Delivered;
    if events == [] {
      RunOfNothing(choices, k, maxlen);
    } else {
      var n := |events| - 1;
      var u, event := events[..n], events[n];
      assert events == u + [event];
      RunDependsOnFrames(choices, k, u, maxlen);
      RunOfAppend(choices, k, u, event, maxlen);
      var given := RunOf(choices, k, u, maxlen).given;
      assert given + [] == given;
      if event.Some? {
        FrameAppend(Consumed(u), choices.grants, k.allocs, maxlen, event.value);
      } else {
        assert Consumed(u) + [] == Consumed(u);
      }
    }
  }

  lemma RunOfNothing(choices: Choices, k: Counters, maxlen: nat)
    ensures RunOf(choices, k, [], maxlen) == Outcome(k, [], []) && Consumed([]) == []
    ensures NonEmpty([], maxlen) == 0 && GivenOf([], choices.grants, k.allocs, maxlen) == []
  {
  }

  /** The frames of a prefix meet the same fates. */
  lemma FateOfPrefix(frames: seq<Frame>, grants: nat -> bool, a: nat, maxlen: nat, n: nat, i: nat)
    requires i < n <= |frames|
    ensures FateAt(frames[..n], grants, a, maxlen, i) == FateAt(frames, grants, a, maxlen, i)
  {
    hide NonEmpty, FateOf;
    assert frames[..n][..i] == frames[..i];
  }

  lemma OneMore(before: set<nat>, after: set<nat>, n: nat)
    requires (forall i :: i in before ==> i < n) && (forall i :: i in after ==> i <= n)
    requires forall i: nat :: i < n ==> (i in before <==> i in after)
    ensures |after| == |before| + if n in after then 1 else 0
  {
    assert after == before + if n in after then {n} else {};
  }

  lemma WithFateStep(frames: seq<Frame>, grants: nat -> bool, a: nat, maxlen: nat, fate: Fate)
    requires frames != []
    ensures var n := |frames| - 1;
            |WithFate(frames, grants, a, maxlen, fate)|
            == |WithFate(frames[..n], grants, a, maxlen, fate)|
               + if FateAt(frames, grants, a, maxlen, n) == fate then 1 else 0
  {
    hide FateAt;
    var n := |frames| - 1;
    var u := frames[..n];
    var before := WithFate(u, grants, a, maxlen, fate);
    forall i: nat | i < n ensures FateAt(u, grants, a, maxlen, i) == FateAt(frames, grants, a, maxlen, i) {
      FateOfPrefix(frames, grants, a, maxlen, n, i);
    }
    var after := WithFate(frames, grants, a, maxlen, fate);
    forall i: nat | i < n ensures i in before <==> i in after {
    }
    assert n in after <==> FateAt(frames, grants, a, maxlen, n) == fate;
    assert (forall i :: i in before ==> i < n) && (forall i :: i in after ==> i <= n);
    hide WithFate;
    OneMore(before, after, n);
  }

  /**
   Every consumed frame is handed over, or has bytes and is refused a buffer by the pool, or is empty. Which of them it
   is depends on the frames and on the pool's decisions only.
   */
  lemma {:induction false} Conservation(frames: seq<Frame>, grants: nat -> bool, a: nat, maxlen: nat)
    ensures |GivenOf(frames, grants, a, maxlen)| == |WithFate(frames, grants, a, maxlen, Handed)|
    ensures |frames| == |GivenOf(frames, grants, a, maxlen)| + |WithFate(frames, grants, a, maxlen, NoBuffer)|
                        + |WithFate(frames, grants, a, maxlen, Empty)|
  {
    hide FateAt, Delivered;
    if frames != [] {
      hide WithFate;
      var n := |frames| - 1;
      Conservation(frames[..n], grants, a, maxlen);
      WithFateStep(frames, grants, a, maxlen, Handed);
      WithFateStep(frames, grants, a, maxlen, NoBuffer);
      WithFateStep(frames, grants, a, maxlen, Empty);
    }
  }

  // ---------- Frame by frame ----------

  /** A frame is dropped exactly if there is nothing to deliver, or the pool refuses the request made for it. */
  lemma FateMeaning(frames: seq<Frame>, grants: nat -> bool, a: nat, maxlen: nat, i: nat)
    requires i < |frames|
    ensures FateAt(frames, grants, a, maxlen, i) == Empty <==> frames[i].data == [] || maxlen == 0
    ensures FateAt(frames, grants, a, maxlen, i) == Handed <==>
              frames[i].data != [] && maxlen != 0 && grants(a + NonEmpty(frames[..i], maxlen))
  {
    hide Delivered, NonEmpty;
    DeliveredPayload(frames[i].data, frames[i].status, maxlen);
  }

  lemma GivenOfPrefix(frames: seq<Frame>, grants: nat -> bool, a: nat, maxlen: nat, n: nat, i: nat)
    requires i <= n <= |frames|
    ensures GivenOf(frames[..n][..i], grants, a, maxlen) == GivenOf(frames[..i], grants, a, maxlen)
  {
    assert frames[..n][..i] == frames[..i];
  }

  /** A frame handed over comes behind what those before it gave. */
  lemma {:induction false} GivenAt(frames: seq<Frame>, grants: nat -> bool, a: nat, maxlen: nat, i: nat)
    requires i < |frames| && FateAt(frames, grants, a, maxlen, i) == Handed
    ensures var k := |GivenOf(frames[..i], grants, a, maxlen)|;
            k < |GivenOf(frames, grants, a, maxlen)|
            && GivenOf(frames, grants, a, maxlen)[k] == Delivered(frames[i], maxlen)
    decreases |frames|
  {
    hide FateAt, Delivered;
    var n := |frames| - 1;
    if i < n {
      FateOfPrefix(frames, grants, a, maxlen, n, i);
      GivenAt(frames[..n], grants, a, maxlen, i);
      GivenOfPrefix(frames, grants, a, maxlen, n, i);
      assert frames[..n][i] == frames[i];
    }
  }

  /**
   Each of the frames that has more than a CRC and at most `longest` bytes and is granted a buffer is in `given`, all of
   it but the CRC, behind what the frames before it gave.
   */
  ghost predicate HandedWhole(frames: seq<Frame>, grants: nat -> bool, a: nat, maxlen: nat,
                              given: seq<seq<byte>>, longest: nat) {
    forall i :: 0 <= i < |frames| && 4 < |frames[i].data| <= longest && grants(a + NonEmpty(frames[..i], maxlen)) ==>
      var k := |GivenOf(frames[..i], grants, a, maxlen)|;
      k < |given| && given[k] == frames[i].data[..|frames[i].data| - 4]
  }

  /** The buffer is long enough for all of them. */
  lemma GivenWhole(frames: seq<Frame>, grants: nat -> bool, a: nat, maxlen: nat, longest: nat)
    requires longest <= maxlen + 4
    ensures HandedWhole(frames, grants, a, maxlen, GivenOf(frames, grants, a, maxlen), longest)
  {
    hide FateAt, Delivered, GivenOf, NonEmpty;
    forall i | 0 <= i < |frames| && 4 < |frames[i].data| <= longest && grants(a + NonEmpty(frames[..i], maxlen))
      ensures var k, given := |GivenOf(frames[..i], grants, a, maxlen)|, GivenOf(frames, grants, a, maxlen);
              k < |given| && given[k] == frames[i].data[..|frames[i].data| - 4]
    {
      var data := frames[i].data;
      FateMeaning(frames, grants, a, maxlen, i);
      GivenAt(frames, grants, a, maxlen, i);
      DeliveredPayload(data, frames[i].status, maxlen);
      assert data == data[..|data| - 4] + data[|data| - 4..];
    }
  }

  // ---------- Promptness ----------

  /**
   `begun[i]` is how many frames the chip had stored when turn `i` began, the last entry how many when the last turn
   ended, and `from` how many were consumed before the first. A turn without a frame began with none waiting.
   */
  ghost predicate Prompt(events: seq<Option<Frame>>, begun: seq<nat>, from: nat) {
    && |begun| == |events| + 1 && from <= begun[0]
    && (forall i, j :: 0 <= i < j < |begun| ==> begun[i] <= begun[j])
    && (forall i :: 0 <= i < |events| && events[i].None? ==> begun[i] == from + |Consumed(events[..i])|)
  }

  lemma PromptNext(events: seq<Option<Frame>>, begun: seq<nat>, from: nat, event: Option<Frame>, now: nat)
    requires Prompt(events, begun, from) && begun[|events|] <= now
    requires event.None? ==> begun[|events|] == from + |Consumed(events)|
    ensures Prompt(events + [event], begun + [now], from)
  {
    hide Consumed;
    var events', begun' := events + [event], begun + [now];
    forall i | 0 <= i < |events'| && events'[i].None? ensures begun'[i] == from + |Consumed(events'[..i])| {
      assert events'[..i] == events[..i];
      assert i == |events| ==> events[..i] == events;
    }
  }

  /** The turns but the last, and the last one. */
  lemma PromptBefore(events: seq<Option<Frame>>, begun: seq<nat>, from: nat, i: nat)
    requires Prompt(events, begun, from) && i < |events|
    ensures |begun| == |events| + 1
    ensures var n := |events| - 1;
            && Prompt(events[..n], begun[..n + 1], from) && begun[i] <= begun[n]
            && (events[n].None? ==> begun[n] == from + |Consumed(events[..n])|)
  {
    hide Consumed;
    var n := |events| - 1;
    var u, t := events[..n], begun[..n + 1];
    forall j | 0 <= j < n && u[j].None? ensures t[j] == from + |Consumed(u[..j])| {
      assert u[..j] == events[..j];
    }
    assert begun[i] <= begun[n];
  }

  lemma ConsumedLast(events: seq<Option<Frame>>)
    requires events != []
    ensures var n := |events| - 1;
            |Consumed(events)| == |Consumed(events[..n])| + if events[n].Some? then 1 else 0
  {
  }

  /** From any turn on: as long as one of the frames stored when it began is left, every turn consumes one. */
  lemma {:induction false} PromptConsumes(events: seq<Option<Frame>>, begun: seq<nat>, from: nat, i: nat)
    requires Prompt(events, begun, from) && i <= |events|
    ensures || |Consumed(events)| - |Consumed(events[..i])| == |events| - i
            || from + |Consumed(events)| >= begun[i]
    decreases |events|
  {
    hide Prompt, Consumed;
    if i == |events| {
      assert events[..i] == events;
    } else {
      var n := |events| - 1;
      PromptBefore(events, begun, from, i);
      assert events[..n][..i] == events[..i] && begun[..n + 1][i] == begun[i];
      PromptConsumes(events[..n], begun[..n + 1], from, i);
      ConsumedLast(events);
    }
  }
}
