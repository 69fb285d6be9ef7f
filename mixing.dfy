/** The mixer: a queue of playing sounds and the mixing pass the audio
    backend runs once per period. The mixer is generic in the sample type S
    of its stream; the element addition `plus` is the one performed by the
    adder selected from the stream format (wrapping int16 addition, Add16, for
    CA_FMT_I16; IEEE single addition, not modelled, for CA_FMT_F32). */
module Mixing {
  import opened Common

  /** paContinue */
  const PaContinue: int := 0

  /** The two per-format sample adders. */
  datatype Adder = AdderI16 | AdderF32

  /** The choice made once at mixer creation: float streams get the float
      adder, every other format the int16 adder. */
  function SelectAdder(fmt: AudioFmt): (a: Adder)
    ensures a == AdderF32 <==> fmt == FmtF32
    ensures a == AdderI16 <==> fmt != FmtF32
  {
    if fmt == FmtF32 then AdderF32 else AdderI16
  }

  /** Narrowing an int to int16_t, modulo 2^16 as common compilers do. */
  function Wrap16(x: int): Int16
  {
    (x + 0x8000) % 0x1_0000 - 0x8000
  }

  /** `dst[i] += src[j]` on int16_t: unclamped, wrapping modulo 2^16. */
  function Add16(a: Int16, b: Int16): (c: Int16)
    ensures (c - (a + b)) % 0x1_0000 == 0
    ensures -0x8000 <= a + b < 0x8000 ==> c == a + b
  {
    Wrap16(a + b)
  }

  /** An application-owned bool location a node signals through. */
  class Flag {
    var value: bool

    constructor (v: bool)
      ensures value == v
    {
      value := v;
    }
  }

  /** sound_node_t: a non-owning view of a sound's samples, the play cursor
      and the location that is cleared when the sound finishes. */
  datatype Node<S> = Node(data: seq<S>, numSamples: nat, curSample: nat, signal: Flag)

  /** The node's samples are readable and its cursor has not passed its end,
      so `numSamples - curSample` does not underflow. */
  predicate Playable<S>(n: Node<S>)
  {
    n.curSample <= n.numSamples <= |n.data|
  }

  /** The cursor reached or passed the end: the node is removed by the clean-up. */
  predicate Finished<S>(n: Node<S>)
  {
    n.curSample >= n.numSamples
  }

  /** The number of samples an adder actually adds: min(req, numSamples - curSample). */
  function Count<S>(n: Node<S>, req: nat): nat
    requires n.curSample <= n.numSamples
  {
    if req < n.numSamples - n.curSample then req else n.numSamples - n.curSample
  }

  /** The output after one adder call on the node: the first Count samples
      get the node's samples from its cursor added, the rest stay. */
  function AddNode<S>(out: seq<S>, n: Node<S>, req: nat, plus: (S, S) -> S): seq<S>
    requires Playable(n) && req <= |out|
  {
    seq(|out|, i requires 0 <= i < |out| =>
      if i < Count(n, req) then plus(out[i], n.data[n.curSample + i]) else out[i])
  }

  /** The output after every node of the queue, front to back, was added. */
  function MixAll<S>(out: seq<S>, ns: seq<Node<S>>, req: nat, plus: (S, S) -> S): (r: seq<S>)
    requires req <= |out|
    requires forall k :: 0 <= k < |ns| ==> Playable(ns[k])
    ensures |r| == |out|
    decreases |ns|
  {
    if ns == [] then out
    else AddNode(MixAll(out, ns[..|ns| - 1], req, plus), ns[|ns| - 1], req, plus)
  }

  /** The output after the memset: the first req samples silent. */
  function Silenced<S>(out: seq<S>, req: nat, silence: S): seq<S>
  {
    seq(|out|, i requires 0 <= i < |out| => if i < req then silence else out[i])
  }

  /** Every cursor moved by the requested count. */
  function Advance<S>(ns: seq<Node<S>>, req: nat): seq<Node<S>>
  {
    seq(|ns|, k requires 0 <= k < |ns| => ns[k].(curSample := ns[k].curSample + req))
  }

  /** The nodes the clean-up keeps, in their order. */
  function Unfinished<S>(ns: seq<Node<S>>): (r: seq<Node<S>>)
    ensures |r| <= |ns|
    ensures forall k :: 0 <= k < |r| ==> r[k].curSample < r[k].numSamples
  {
    if ns == [] then []
    else
      var last := ns[|ns| - 1];
      Unfinished(ns[..|ns| - 1]) + if Finished(last) then [] else [last]
  }

  /** The nodes the clean-up removes, in their order. */
  function Pruned<S>(ns: seq<Node<S>>): seq<Node<S>>
  {
    if ns == [] then []
    else
      var last := ns[|ns| - 1];
      Pruned(ns[..|ns| - 1]) + if Finished(last) then [last] else []
  }

  /** The locations the clean-up writes false to. */
  function FinishedSignals<S>(ns: seq<Node<S>>): set<Flag>
  {
    set k | 0 <= k < |ns| && Finished(ns[k]) :: ns[k].signal
  }

  /** One more node seen by the clean-up: it is kept or its signal is cleared. */
  lemma StepPrefix<S>(ns: seq<Node<S>>, i: nat)
    requires i < |ns|
    ensures Unfinished(ns[..i + 1]) == Unfinished(ns[..i]) + if Finished(ns[i]) then [] else [ns[i]]
    ensures FinishedSignals(ns[..i + 1]) == FinishedSignals(ns[..i]) + if Finished(ns[i]) then {ns[i].signal} else {}
  {
    assert ns[..i + 1][..i] == ns[..i];
  }

  /** caMixerSampleAdderI16 / caMixerSampleAdderF32 (the two differ only in
      the element addition): adds min(req, numSamples - curSample) samples of
      the node from its cursor to the start of dst, and advances the cursor by
      the full requested count. */
  method AddSamples<S>(dst: array<S>, node: Node<S>, req: nat, plus: (S, S) -> S) returns (next: Node<S>)
    requires Playable(node) && req <= dst.Length
    modifies dst
    ensures forall i :: 0 <= i < Count(node, req) ==> dst[i] == plus(old(dst[i]), node.data[node.curSample + i])
    ensures forall i :: Count(node, req) <= i < dst.Length ==> dst[i] == old(dst[i])
    ensures dst[..] == AddNode(old(dst[..]), node, req, plus)
    ensures next == node.(curSample := node.curSample + req)
  {
    var n := if req < node.numSamples - node.curSample then req else node.numSamples - node.curSample;
    var i := 0;
    while i < n
      invariant 0 <= i <= n
      invariant forall j :: 0 <= j < i ==> dst[j] == plus(old(dst[j]), node.data[node.curSample + j])
      invariant forall j :: i <= j < dst.Length ==> dst[j] == old(dst[j])
    {
      dst[i] := plus(dst[i], node.data[node.curSample + i]);
      i := i + 1;
    }
    next := node.(curSample := node.curSample + req);
  }

  /** The clean-up keeps a node exactly when it is in the queue and not finished. */
  lemma {:induction false} UnfinishedMembers<S>(ns: seq<Node<S>>, x: Node<S>)
    ensures x in Unfinished(ns) <==> x in ns && !Finished(x)
  {
    if ns != [] {
      var init := ns[..|ns| - 1];
      UnfinishedMembers(init, x);
      assert ns == init + [ns[|ns| - 1]];
    }
  }

  /** The clean-up keeps the relative order of the survivors: filtering a
      concatenation is the concatenation of the filtered parts. */
  lemma {:induction false} UnfinishedConcat<S>(xs: seq<Node<S>>, ys: seq<Node<S>>)
    ensures Unfinished(xs + ys) == Unfinished(xs) + Unfinished(ys)
    decreases |ys|
  {
    if ys == [] {
      assert xs + ys == xs;
    } else {
      var init := ys[..|ys| - 1];
      assert (xs + ys)[..|xs + ys| - 1] == xs + init;
      UnfinishedConcat(xs, init);
    }
  }

  /** Every node is either kept or removed: the live nodes after a clean-up
      are the nodes before it minus the removed ones. */
  lemma {:induction false} QueueAccounting<S>(ns: seq<Node<S>>)
    ensures |Unfinished(ns)| + |Pruned(ns)| == |ns|
  {
    if ns != [] {
      QueueAccounting(ns[..|ns| - 1]);
    }
  }

  /** The locations the clean-up writes false to are exactly the signals of
      the nodes it removes. */
  lemma {:induction false} PrunedSignals<S>(ns: seq<Node<S>>)
    ensures FinishedSignals(ns) == set k | 0 <= k < |Pruned(ns)| :: Pruned(ns)[k].signal
  {
    if ns != [] {
      var init, last := ns[..|ns| - 1], ns[|ns| - 1];
      PrunedSignals(init);
      StepPrefix(ns, |ns| - 1);
      assert ns[..|ns| - 1 + 1] == ns;
      var p := Pruned(ns);
      assert p == Pruned(init) + if Finished(last) then [last] else [];
      forall f | f in FinishedSignals(ns)
        ensures f in set k | 0 <= k < |p| :: p[k].signal
      {
        if f in FinishedSignals(init) {
          var k :| 0 <= k < |Pruned(init)| && Pruned(init)[k].signal == f;
          assert p[k] == Pruned(init)[k];
        } else {
          assert p[|p| - 1] == last;
        }
      }
      forall f | f in set k | 0 <= k < |p| :: p[k].signal
        ensures f in FinishedSignals(ns)
      {
        var k :| 0 <= k < |p| && p[k].signal == f;
        if k < |Pruned(init)| {
          assert p[k] == Pruned(init)[k];
        }
      }
    }
  }

  /** A node leaves the queue in the very pass whose cursor advance takes
      its cursor to or past its length, and survives it otherwise. */
  lemma PrunedInSamePeriod<S>(q: seq<Node<S>>, req: nat, j: nat)
    requires j < |q|
    ensures Advance(q, req)[j] in Unfinished(Advance(q, req)) <==> q[j].curSample + req < q[j].numSamples
  {
    UnfinishedMembers(Advance(q, req), Advance(q, req)[j]);
  }

  /** Mixing one more node of the queue is one more adder call. */
  lemma MixAllStep<S>(out: seq<S>, ns: seq<Node<S>>, req: nat, plus: (S, S) -> S, k: nat)
    requires req <= |out| && k < |ns|
    requires forall j :: 0 <= j < |ns| ==> Playable(ns[j])
    ensures MixAll(out, ns[..k + 1], req, plus) == AddNode(MixAll(out, ns[..k], req, plus), ns[k], req, plus)
  {
    assert ns[..k + 1][..k] == ns[..k];
  }

  /** Output samples at or past the requested count are never written. */
  lemma {:induction false} MixAllBeyond<S>(out: seq<S>, ns: seq<Node<S>>, req: nat, plus: (S, S) -> S, i: nat)
    requires req <= i < |out|
    requires forall k :: 0 <= k < |ns| ==> Playable(ns[k])
    ensures MixAll(out, ns, req, plus)[i] == out[i]
    decreases |ns|
  {
    if ns != [] {
      MixAllBeyond(out, ns[..|ns| - 1], req, plus, i);
    }
  }

  /** Reference definition: the plain integer sum, over the queue, of the
      sample each node contributes at output index i. */
  function SumAt(ns: seq<Node<Int16>>, req: nat, i: nat): int
    requires forall k :: 0 <= k < |ns| ==> Playable(ns[k])
  {
    if ns == [] then 0
    else SumAt(ns[..|ns| - 1], req, i) + Contribution(ns[|ns| - 1], req, i)
  }

  /** The sample a node adds at output index i, or 0 when it adds none there. */
  function Contribution(n: Node<Int16>, req: nat, i: nat): int
    requires Playable(n)
  {
    if i < Count(n, req) then n.data[n.curSample + i] else 0
  }

  lemma WrapAdd(x: int, y: int)
    ensures Wrap16(Wrap16(x) + y) == Wrap16(x + y)
  {
    var q := (x + 0x8000) / 0x1_0000;
    assert Wrap16(x) == x - q * 0x1_0000;
    assert Wrap16(x) + y + 0x8000 == (x + y + 0x8000) - q * 0x1_0000;
  }

  /** One int16 adder call adds the node's contribution modulo 2^16. */
  lemma AddNodeInt16(prev: seq<Int16>, n: Node<Int16>, req: nat, i: nat, x: int)
    requires Playable(n) && req <= |prev| && i < |prev|
    requires prev[i] == Wrap16(x)
    ensures AddNode<Int16>(prev, n, req, Add16)[i] == Wrap16(x + Contribution(n, req, i))
  {
    var c := Contribution(n, req, i);
    if i < Count(n, req) {
      assert AddNode<Int16>(prev, n, req, Add16)[i] == Wrap16(prev[i] + c);
    } else {
      assert AddNode<Int16>(prev, n, req, Add16)[i] == prev[i] && c == 0;
    }
    WrapAdd(x, c);
  }

  /** Int16 mixing is additive modulo 2^16: each output sample is the
      wrapped integer sum of what it held and of every node's contribution. */
  lemma {:induction false} MixAllInt16(out: seq<Int16>, ns: seq<Node<Int16>>, req: nat, i: nat)
    requires req <= |out| && i < |out|
    requires forall k :: 0 <= k < |ns| ==> Playable(ns[k])
    ensures MixAll(out, ns, req, Add16)[i] == Wrap16(out[i] + SumAt(ns, req, i))
    decreases |ns|
  {
    if ns == [] {
      assert Wrap16(out[i]) == out[i];
    } else {
      var init := ns[..|ns| - 1];
      var n := ns[|ns| - 1];
      var prev: seq<Int16> := MixAll<Int16>(out, init, req, Add16);
      MixAllInt16(out, init, req, i);
      AddNodeInt16(prev, n, req, i, out[i] + SumAt(init, req, i));
      assert MixAll<Int16>(out, ns, req, Add16) == AddNode<Int16>(prev, n, req, Add16);
    }
  }

  /** One int16 period: the first req output samples are the wrapped sum of
      the queued nodes' samples at their cursors; the others are unchanged. */
  lemma MixedPeriodInt16(out: seq<Int16>, ns: seq<Node<Int16>>, req: nat, i: nat)
    requires req <= |out| && i < |out|
    requires forall k :: 0 <= k < |ns| ==> Playable(ns[k])
    ensures i < req ==> MixAll(Silenced(out, req, 0), ns, req, Add16)[i] == Wrap16(SumAt(ns, req, i))
    ensures req <= i ==> MixAll(Silenced(out, req, 0), ns, req, Add16)[i] == out[i]
  {
    if i < req {
      MixAllInt16(Silenced(out, req, 0), ns, req, i);
    } else {
      MixAllBeyond(Silenced(out, req, 0), ns, req, Add16, i);
    }
  }

  /** Two int16 sounds, four samples of 1000 and two of 500, played one
      after the other (so the second is in front) and mixed with a
      four-sample period: the pass outputs 1500, 1500, 1000, 1000. */
  lemma TwoSoundsMixed(out: seq<Int16>, a: Flag, b: Flag)
    requires |out| == 4
    ensures MixAll(Silenced(out, 4, 0), [Node([500, 500], 2, 0, b), Node([1000, 1000, 1000, 1000], 4, 0, a)], 4, Add16)
            == [1500, 1500, 1000, 1000]
  {
    var q: seq<Node<Int16>> := [Node([500, 500], 2, 0, b), Node([1000, 1000, 1000, 1000], 4, 0, a)];
    var z: seq<Int16> := Silenced(out, 4, 0);
    assert z == [0, 0, 0, 0];
    assert q[..1] == [q[0]] && q[..1][..0] == [];
    assert MixAll<Int16>(z, q[..1][..0], 4, Add16) == z;
    var first: seq<Int16> := MixAll<Int16>(z, q[..1], 4, Add16);
    assert first == AddNode<Int16>(z, q[0], 4, Add16);
    assert first == [500, 500, 0, 0];
    var second: seq<Int16> := AddNode<Int16>(first, q[1], 4, Add16);
    assert MixAll<Int16>(z, q, 4, Add16) == second;
    assert second == [1500, 1500, 1000, 1000];
  }

  /** The same pass advances both cursors to 4, so both nodes leave the
      queue in it and both signals are cleared; the next pass mixes an
      empty queue and outputs silence. */
  lemma TwoSoundsPruned(a: Flag, b: Flag)
    ensures var q := [Node([500, 500], 2, 0, b), Node([1000, 1000, 1000, 1000], 4, 0, a)];
      && Unfinished(Advance(q, 4)) == []
      && FinishedSignals(Advance(q, 4)) == {a, b}
  {
    var q: seq<Node<Int16>> := [Node([500, 500], 2, 0, b), Node([1000, 1000, 1000, 1000], 4, 0, a)];
    var adv := Advance(q, 4);
    assert adv == [Node([500, 500], 2, 4, b), Node([1000, 1000, 1000, 1000], 4, 4, a)];
    assert adv[..1] == [adv[0]] && adv[..1][..0] == [];
    assert Unfinished(adv[..1]) == [];
    assert adv[..|adv| - 1] == adv[..1];
    assert b in FinishedSignals(adv) by { assert Finished(adv[0]); }
    assert a in FinishedSignals(adv) by { assert Finished(adv[1]); }
  }

  /** The loop of caMixerCleanQueue over the nodes after the sentinel: the
      kept nodes, in order, and false written through every removed node's
      signal. */
  method Unlink<S>(q: seq<Node<S>>) returns (kept: seq<Node<S>>)
    modifies FinishedSignals(q)
    ensures kept == Unfinished(q)
    ensures forall f :: f in FinishedSignals(q) ==> !f.value
  {
    kept := [];
    var i := 0;
    while i < |q|
      invariant 0 <= i <= |q|
      invariant kept == Unfinished(q[..i])
      invariant forall f :: f in FinishedSignals(q[..i]) ==> !f.value
    {
      var node := q[i];
      StepPrefix(q, i);
      if node.curSample < node.numSamples {
        kept := kept + [node];
      } else {
        assert node.signal in FinishedSignals(q);
        node.signal.value := false;
      }
      i := i + 1;
    }
    assert q[..i] == q;
  }

  /** mixer_t: the queue behind the sentinel head, the adder fixed at
      creation and the stream description. */
  class Mixer<S> {
    const fmt: AudioFmt
    const sampleRate: U32
    const numChannels: U16
    const adder: Adder
    /** The element addition of the selected adder. */
    const plus: (S, S) -> S
    /** The sample whose bytes are all zero. */
    const silence: S
    /** Where nodes played without a signal point. */
    const dummySignal: Flag
    /** The nodes after the sentinel, front first. */
    var queue: seq<Node<S>>

    ghost predicate Valid()
      reads this
    {
      forall k :: 0 <= k < |queue| ==> Playable(queue[k])
    }

    /** The queue and adder part of caMixerCreate; NewMixerI16 and
      NewMixerF32 tie plus and silence to the adder it selects. */
    constructor (fmt: AudioFmt, sampleRate: U32, numChannels: U16, plus: (S, S) -> S, silence: S)
      ensures Valid() && queue == []
      ensures this.fmt == fmt && this.sampleRate == sampleRate && this.numChannels == numChannels
      ensures adder == SelectAdder(fmt) && this.plus == plus && this.silence == silence
      ensures fresh(dummySignal)
    {
      this.fmt := fmt;
      this.sampleRate := sampleRate;
      this.numChannels := numChannels;
      adder := SelectAdder(fmt);
      this.plus := plus;
      this.silence := silence;
      dummySignal := new Flag(false);
      queue := [];
    }

    /** caMixerPlaySound: a new node for the sound, cursor at 0, goes right
      after the sentinel. A given signal is set to true and kept in the
      node; without one the node keeps the dummy location and nothing the
      caller can see is written. */
    method Play(data: seq<S>, numSamples: nat, signal: Flag?, allocFails: bool) returns (r: CaResult)
      requires Valid()
      requires numSamples <= |data|
      modifies this, signal
      ensures Valid()
      ensures allocFails ==> r == ErrAlloc && queue == old(queue)
      ensures allocFails && signal != null ==> signal.value == old(signal.value)
      ensures !allocFails ==> r == Success
      ensures !allocFails ==> queue == [Node(data, numSamples, 0, if signal != null then signal else dummySignal)] + old(queue)
      ensures !allocFails && signal != null ==> signal.value
      ensures forall f: Flag :: old(allocated(f)) && f != signal ==> f.value == old(f.value)
    {
      if allocFails {
        return ErrAlloc;
      }
      var node := Node(data, numSamples, 0, dummySignal);
      if signal != null {
        node := node.(signal := signal);
        signal.value := true;
      }
      queue := [node] + queue;
      r := Success;
    }

    /** caMixerCleanQueue: unlinks every finished node, writing false through
      its signal, and keeps the others in their order. */
    method Clean()
      requires forall k :: 0 <= k < |queue| ==> queue[k].numSamples <= |queue[k].data|
      modifies this, FinishedSignals(queue)
      ensures queue == Unfinished(old(queue))
      ensures Valid()
      ensures forall f :: f in old(FinishedSignals(queue)) ==> !f.value
      ensures forall f: Flag :: old(allocated(f)) && f !in old(FinishedSignals(queue)) ==> f.value == old(f.value)
    {
      var q := queue;
      var kept := Unlink(q);
      queue := kept;
      forall k | 0 <= k < |queue|
        ensures Playable(queue[k])
      {
        UnfinishedMembers(q, queue[k]);
      }
    }

    /** The adder loop of caMixerAudioCallback: every node, front to back,
      adds its samples to dst and has its cursor advanced. */
    method AddAll(dst: array<S>, req: nat)
      requires Valid() && req <= dst.Length
      modifies this, dst
      ensures dst[..] == MixAll(old(dst[..]), old(queue), req, plus)
      ensures queue == Advance(old(queue), req)
    {
      ghost var q0 := queue;
      ghost var d0 := dst[..];
      var k := 0;
      while k < |queue|
        invariant 0 <= k <= |queue| == |q0|
        invariant forall j :: 0 <= j < k ==> queue[j] == q0[j].(curSample := q0[j].curSample + req)
        invariant forall j :: k <= j < |queue| ==> queue[j] == q0[j]
        invariant dst[..] == MixAll(d0, q0[..k], req, plus)
      {
        MixAllStep(d0, q0, req, plus, k);
        var next := AddSamples(dst, queue[k], req, plus);
        queue := queue[k := next];
        k := k + 1;
      }
      assert q0[..k] == q0;
    }

    /** The output samples the memset of the callback clears: it clears
      req * fmt bytes, which are req samples of a format with a width and
      none without. */
    function SilencedCount(req: nat): nat
    {
      if fmt == FmtNone then 0 else req
    }

    /** caMixerAudioCallback: silences the first numFrames * numChannels
      output samples, lets the adder add every queued node, cleans the queue
      and asks the backend to continue. */
    method Callback(dst: array<S>, numFrames: nat) returns (r: int)
      requires Valid()
      requires numFrames * numChannels as int <= dst.Length
      modifies this, dst, FinishedSignals(Advance(queue, numFrames * numChannels as int))
      ensures Valid()
      ensures dst[..] == MixAll(Silenced(old(dst[..]), SilencedCount(numFrames * numChannels as int), silence),
                                old(queue), numFrames * numChannels as int, plus)
      ensures queue == Unfinished(Advance(old(queue), numFrames * numChannels as int))
      ensures forall k :: 0 <= k < |queue| ==> queue[k].curSample < queue[k].numSamples
      ensures forall f :: f in FinishedSignals(Advance(old(queue), numFrames * numChannels as int)) ==> !f.value
      ensures forall f: Flag :: old(allocated(f)) && f !in FinishedSignals(Advance(old(queue), numFrames * numChannels as int)) ==> f.value == old(f.value)
      ensures r == PaContinue
    {
      var req := numFrames * numChannels as int;
      ghost var q0 := queue;
      ghost var d0 := dst[..];
      var silent := SilencedCount(req);
      forall i | 0 <= i < silent {
        dst[i] := silence;
      }
      assert dst[..] == Silenced(d0, silent, silence);
      AddAll(dst, req);
      assert queue == Advance(q0, req);
      Clean();
      r := PaContinue;
    }

    /** The node-freeing loop of caMixerDestroy: every node, the sentinel
      included, is released; no signal is written. */
    method Destroy() returns (freed: nat)
      modifies this
      ensures queue == [] && freed == |old(queue)| + 1
    {
      freed := 1;
      while queue != []
        invariant freed + |queue| == |old(queue)| + 1
      {
        queue := queue[1..];
        freed := freed + 1;
      }
    }
  }

  /** caMixerCreate for a stream of any format other than CA_FMT_F32: the
      int16 adder, whose element addition is the wrapping Add16, onto output
      samples the memset sets to 0. */
  method NewMixerI16(fmt: AudioFmt, sampleRate: U32, numChannels: U16) returns (m: Mixer<Int16>)
    requires fmt != FmtF32
    ensures fresh(m) && m.Valid() && m.queue == []
    ensures m.fmt == fmt && m.sampleRate == sampleRate && m.numChannels == numChannels
    ensures m.adder == AdderI16 && m.plus == Add16 && m.silence == 0
    ensures fresh(m.dummySignal)
  {
    m := new Mixer<Int16>(fmt, sampleRate, numChannels, Add16, 0);
  }

  /** caMixerCreate for a CA_FMT_F32 stream: the float adder, whose IEEE
      single addition is the parameter fadd, onto output samples whose bits
      the memset clears. */
  method NewMixerF32(sampleRate: U32, numChannels: U16, fadd: (F32, F32) -> F32) returns (m: Mixer<F32>)
    ensures fresh(m) && m.Valid() && m.queue == []
    ensures m.fmt == FmtF32 && m.sampleRate == sampleRate && m.numChannels == numChannels
    ensures m.adder == AdderF32 && m.plus == fadd && m.silence == 0
    ensures fresh(m.dummySignal)
  {
    m := new Mixer<F32>(FmtF32, sampleRate, numChannels, fadd, 0);
  }

  /** The int16 output of one pass at index i, whether the memset cleared
      the first req samples (silent == req) or nothing (silent == 0). */
  lemma PassI16(d0: seq<Int16>, q0: seq<Node<Int16>>, req: nat, silent: nat, i: nat)
    requires req <= |d0| && i < |d0| && (silent == req || silent == 0)
    requires forall k :: 0 <= k < |q0| ==> Playable(q0[k])
    ensures silent == req && i < req ==> MixAll(Silenced(d0, silent, 0), q0, req, Add16)[i] == Wrap16(SumAt(q0, req, i))
    ensures silent == 0 && i < req ==> MixAll(Silenced(d0, silent, 0), q0, req, Add16)[i] == Wrap16(d0[i] + SumAt(q0, req, i))
    ensures req <= i ==> MixAll(Silenced(d0, silent, 0), q0, req, Add16)[i] == d0[i]
  {
    if silent == req {
      MixedPeriodInt16(d0, q0, req, i);
    } else {
      assert Silenced(d0, 0, 0) == d0;
      if i < req {
        MixAllInt16(d0, q0, req, i);
      } else {
        MixAllBeyond(d0, q0, req, Add16, i);
      }
    }
  }

  /** One callback of an int16 mixer (as NewMixerI16 makes it): each of the
      first numFrames * numChannels output samples becomes the wrapped
      integer sum of the queued sounds' samples at their cursors. For
      CA_FMT_NONE, whose memset clears nothing, the sum is added onto the
      sample already there. The other output samples keep their value. */
  method CallbackI16(m: Mixer<Int16>, dst: array<Int16>, numFrames: nat) returns (r: int)
    requires m.Valid() && m.fmt != FmtF32 && m.plus == Add16 && m.silence == 0
    requires numFrames * m.numChannels as int <= dst.Length
    modifies m, dst, FinishedSignals(Advance(m.queue, numFrames * m.numChannels as int))
    ensures m.fmt == FmtI16 ==> forall i :: 0 <= i < numFrames * m.numChannels as int ==>
              dst[i] == Wrap16(SumAt(old(m.queue), numFrames * m.numChannels as int, i))
    ensures m.fmt == FmtNone ==> forall i :: 0 <= i < numFrames * m.numChannels as int ==>
              dst[i] == Wrap16(old(dst[i]) + SumAt(old(m.queue), numFrames * m.numChannels as int, i))
    ensures forall i :: numFrames * m.numChannels as int <= i < dst.Length ==> dst[i] == old(dst[i])
    ensures m.Valid()
    ensures m.queue == Unfinished(Advance(old(m.queue), numFrames * m.numChannels as int))
    ensures forall f :: f in FinishedSignals(Advance(old(m.queue), numFrames * m.numChannels as int)) ==> !f.value
    ensures forall f: Flag :: old(allocated(f)) && f !in FinishedSignals(Advance(old(m.queue), numFrames * m.numChannels as int)) ==> f.value == old(f.value)
    ensures r == PaContinue
  {
    var req := numFrames * m.numChannels as int;
    ghost var q0 := m.queue;
    ghost var d0 := dst[..];
    ghost var silent := m.SilencedCount(req);
    r := m.Callback(dst, numFrames);
    ghost var out := dst[..];
    assert out == MixAll(Silenced(d0, silent, 0), q0, req, Add16);
    forall i | 0 <= i < dst.Length
      ensures m.fmt == FmtI16 && i < req ==> dst[i] == Wrap16(SumAt(q0, req, i))
      ensures m.fmt == FmtNone && i < req ==> dst[i] == Wrap16(d0[i] + SumAt(q0, req, i))
      ensures req <= i ==> dst[i] == d0[i]
    {
      PassI16(d0, q0, req, silent, i);
      assert dst[i] == out[i];
    }
  }
}
