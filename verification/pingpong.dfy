/**
 Abstract model of how a node's executed passes are chained.

 Each pass of a node obtains a fresh source/destination pair from the view
 target: it samples the current main texture and draws into the other one,
 which then becomes the main texture. The swap itself belongs to the host
 renderer; only its observable effect is modelled here. The image math of a
 pass (its shader) is the parameter `effect`.
 */
module PingPong {

  /** The two color textures of a view target. */
  datatype Texture = A | B {
    function Other(): (t: Texture)
      ensures t != this
    {
      if A? then B else A
    }
  }

  /** A view target: which texture is current, and the contents of both. */
  datatype Target<T> = Target(main: Texture, a: T, b: T) {
    function Get(t: Texture): T {
      if t.A? then a else b
    }

    /** The image the next pass samples. */
    function Source(): T {
      Get(main)
    }
  }

  /** One executed pass: the textures it sampled and drew into. */
  datatype DrawCall = DrawCall(pass: nat, source: Texture, destination: Texture)

  /** The texture that is current after `n` swaps starting from `main`. */
  function AfterSwaps(main: Texture, n: nat): Texture {
    if n % 2 == 0 then main else main.Other()
  }

  /**
   One pass: sample the main texture, write `effect(pass, source)` into the
   other texture, and make that texture the main one.
   */
  function Draw<T>(t: Target<T>, pass: nat, effect: (nat, T) -> T): (r: Target<T>)
    ensures r.main == t.main.Other()
    ensures r.Source() == effect(pass, t.Source())
    ensures r.Get(t.main) == t.Source()
  {
    var out := effect(pass, t.Source());
    if t.main.A? then Target(B, t.a, out) else Target(A, out, t.b)
  }

  /** Executes `passes` in order, each one on the previous one's output. */
  function RunPasses<T>(t: Target<T>, passes: seq<nat>, effect: (nat, T) -> T): (r: Target<T>)
    ensures r.main == AfterSwaps(t.main, |passes|)
    ensures passes == [] ==> r == t
    decreases |passes|
  {
    if passes == [] then t
    else RunPasses(Draw(t, passes[0], effect), passes[1..], effect)
  }

  /** Reference meaning of a pass list: the effects composed in order. */
  function Composite<T>(passes: seq<nat>, img: T, effect: (nat, T) -> T): T
    decreases |passes|
  {
    if passes == [] then img
    else effect(passes[|passes| - 1], Composite(passes[..|passes| - 1], img, effect))
  }

  /** Running `p` and then `q` composes their effects. */
  lemma {:induction false} CompositeAppend<T>(p: seq<nat>, q: seq<nat>, img: T, effect: (nat, T) -> T)
    ensures Composite(p + q, img, effect) == Composite(q, Composite(p, img, effect), effect)
    decreases |q|
  {
    if q == [] {
      assert p + q == p;
    } else {
      var q' := q[..|q| - 1];
      assert (p + q)[..|p + q| - 1] == p + q';
      assert (p + q)[|p + q| - 1] == q[|q| - 1];
      CompositeAppend(p, q', img, effect);
    }
  }

  /**
   The main texture after a node has run holds exactly the composition of
   the executed passes applied to the image the node started from.
   */
  lemma {:induction false} RunPassesComposes<T>(t: Target<T>, passes: seq<nat>, effect: (nat, T) -> T)
    ensures RunPasses(t, passes, effect).Source() == Composite(passes, t.Source(), effect)
    decreases |passes|
  {
    if passes != [] {
      var t' := Draw(t, passes[0], effect);
      RunPassesComposes(t', passes[1..], effect);
      CompositeAppend([passes[0]], passes[1..], t.Source(), effect);
      assert [passes[0]] + passes[1..] == passes;
      assert Composite([passes[0]], t.Source(), effect) == effect(passes[0], t.Source()) by {
        assert [passes[0]][..0] == [];
      }
    }
  }

  /**
   Running a pass list is running a prefix of it and then the rest on the
   prefix's result.
   */
  lemma {:induction false} RunPassesSplit<T>(t: Target<T>, passes: seq<nat>, i: nat, effect: (nat, T) -> T)
    requires i <= |passes|
    ensures RunPasses(t, passes, effect) == RunPasses(RunPasses(t, passes[..i], effect), passes[i..], effect)
    decreases i
  {
    if i == 0 {
      assert passes[..0] == [] && passes[0..] == passes;
    } else {
      var t' := Draw(t, passes[0], effect);
      RunPassesSplit(t', passes[1..], i - 1, effect);
      assert passes[..i] != [] && passes[..i][0] == passes[0];
      assert passes[..i][1..] == passes[1..][..i - 1];
      assert passes[1..][i - 1..] == passes[i..];
    }
  }

  /**
   The draw calls of a pass list starting from `main`: call `i` executes
   `passes[i]`, sampling the texture current after `i` swaps and drawing into
   the one current after `i + 1`.
   */
  predicate IsSchedule(draws: seq<DrawCall>, passes: seq<nat>, main: Texture) {
    && |draws| == |passes|
    && forall i :: 0 <= i < |draws| ==>
      draws[i] == DrawCall(passes[i], AfterSwaps(main, i), AfterSwaps(main, i + 1))
  }

  /**
   `call` is what turned `before` into `after`: it sampled the current texture,
   drew its pass's output into the other one, which became current, and left
   the texture it sampled alone.
   */
  ghost predicate Performs<T>(before: Target<T>, call: DrawCall, after: Target<T>, effect: (nat, T) -> T) {
    && call.source == before.main
    && call.destination == after.main
    && after.Get(call.destination) == effect(call.pass, before.Get(call.source))
    && after.Get(call.source) == before.Get(call.source)
  }

  /**
   The scheduled draw calls are the steps of `RunPasses`: call `i` is exactly
   the draw that takes the target after the first `i` passes to the target
   after the first `i + 1`.
   */
  lemma ScheduleMatchesRunPasses<T>(t: Target<T>, passes: seq<nat>, effect: (nat, T) -> T, draws: seq<DrawCall>, i: nat)
    requires IsSchedule(draws, passes, t.main) && i < |passes|
    ensures Performs(RunPasses(t, passes[..i], effect), draws[i], RunPasses(t, passes[..i + 1], effect), effect)
  {
    var before := RunPasses(t, passes[..i], effect);
    var q := passes[..i + 1];
    RunPassesSplit(t, q, i, effect);
    assert q[..i] == passes[..i];
    assert q[i..] == [passes[i]];
    assert RunPasses(t, q, effect) == Draw(before, passes[i], effect) by {
      assert [passes[i]][1..] == [];
    }
  }

  /**
   The draw calls a node issues for `passes`, starting with `main` current:
   every pass samples what the previous executed pass drew.
   */
  method Schedule(passes: seq<nat>, main: Texture) returns (draws: seq<DrawCall>, last: Texture)
    ensures IsSchedule(draws, passes, main)
    ensures |draws| == |passes|
    ensures forall i :: 0 <= i < |draws| ==>
      draws[i].pass == passes[i] && draws[i].destination == draws[i].source.Other()
    ensures |draws| > 0 ==> draws[0].source == main
    ensures forall i :: 0 < i < |draws| ==> draws[i].source == draws[i - 1].destination
    ensures last == (if |draws| == 0 then main else draws[|draws| - 1].destination)
    ensures last == AfterSwaps(main, |passes|)
  {
    draws := [];
    last := main;
    var k := 0;
    while k < |passes|
      invariant 0 <= k <= |passes|
      invariant |draws| == k
      invariant forall i :: 0 <= i < k ==>
        draws[i].pass == passes[i] && draws[i].destination == draws[i].source.Other()
      invariant k > 0 ==> draws[0].source == main
      invariant forall i :: 0 < i < k ==> draws[i].source == draws[i - 1].destination
      invariant last == (if k == 0 then main else draws[k - 1].destination)
      invariant last == AfterSwaps(main, k)
      invariant forall i :: 0 <= i < k ==>
        draws[i] == DrawCall(passes[i], AfterSwaps(main, i), AfterSwaps(main, i + 1))
    {
      draws := draws + [DrawCall(passes[k], last, last.Other())];
      last := last.Other();
      k := k + 1;
    }
  }
}
