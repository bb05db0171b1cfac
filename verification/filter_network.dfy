/**
 The reverberator's filter network: eight damped feedback comb filters in
 parallel, two averaging mixers over groups of four combs, a third averaging
 mixer over those two, and four allpass filters in series.

 The filter and mixer primitives themselves belong to an audio library this
 model does not contain; their per-block behaviour is supplied as `Kernels`,
 uninterpreted functions. What is modelled here is the fixed wiring and the
 fact that running a block only advances each filter's memory, never its
 length or coefficients.
 */
module FilterNetwork {

  /** A low-pass feedback comb filter: its delay length, feedback ("room
      size") and damping coefficients, and its opaque running memory (delay
      line contents, cursor and low-pass state). */
  datatype CombFilter = CombFilter(length: int, feedback: real, damping: real, memory: seq<real>)

  /** An allpass filter: delay length, fixed gain and opaque running memory. */
  datatype AllpassFilter = AllpassFilter(length: int, gain: real, memory: seq<real>)

  /** One block through one comb: its memory afterwards and the samples it produced. */
  datatype CombRun = CombRun(memory: seq<real>, output: seq<real>)

  /** One block through one allpass: its memory afterwards, the samples it
      produced and the sample count its read returned. */
  datatype AllpassRun = AllpassRun(memory: seq<real>, output: seq<real>, count: int)

  /** The unseen primitives, as functions:
      - `comb`: one comb filter reading one block of input,
      - `average`: an averaging mixer over a list of input blocks,
      - `allpass`: one allpass filter reading one block of input,
      - `combInitial`, `allpassInitial`: the memory of a comb or allpass
        filter just constructed with a given delay length. */
  datatype Kernels = Kernels(
    comb: (CombFilter, seq<real>) -> CombRun,
    average: seq<seq<real>> -> seq<real>,
    allpass: (AllpassFilter, seq<real>) -> AllpassRun,
    combInitial: int -> seq<real>,
    allpassInitial: int -> seq<real>)

  /** The network's filters: combs in construction order, allpasses in chain order. */
  datatype Network = Network(combs: seq<CombFilter>, allpasses: seq<AllpassFilter>)

  /** The outcome of pulling one block through the network. */
  datatype WetRun = WetRun(net: Network, output: seq<real>, count: int)

  const CombCount: nat := 8
  const AllpassCount: nat := 4

  /** Which comb filters each of the two first-stage averaging mixers reads. */
  const MixerInputs: seq<seq<nat>> := [[0, 1, 2, 3], [4, 5, 6, 7]]

  /** The network has the fixed shape the reverberator builds. */
  predicate Shaped(net: Network) {
    |net.combs| == CombCount && |net.allpasses| == AllpassCount
  }

  /** `b` is `a` with, at most, the filters' memories changed. */
  predicate SameSettings(a: Network, b: Network) {
    && |a.combs| == |b.combs|
    && |a.allpasses| == |b.allpasses|
    && (forall i :: 0 <= i < |a.combs| ==>
          && b.combs[i].length == a.combs[i].length
          && b.combs[i].feedback == a.combs[i].feedback
          && b.combs[i].damping == a.combs[i].damping)
    && (forall i :: 0 <= i < |a.allpasses| ==>
          && b.allpasses[i].length == a.allpasses[i].length
          && b.allpasses[i].gain == a.allpasses[i].gain)
  }

  /** Every comb reads the same dry block independently; each keeps its
      settings and takes the memory its own run leaves behind. */
  function RunCombs(combs: seq<CombFilter>, k: Kernels, input: seq<real>): (r: (seq<CombFilter>, seq<seq<real>>))
    ensures |r.0| == |combs| && |r.1| == |combs|
    ensures forall i :: 0 <= i < |combs| ==>
              && r.0[i] == combs[i].(memory := k.comb(combs[i], input).memory)
              && r.1[i] == k.comb(combs[i], input).output
  {
    if |combs| == 0 then ([], [])
    else
      var run := k.comb(combs[0], input);
      var rest := RunCombs(combs[1..], k, input);
      ([combs[0].(memory := run.memory)] + rest.0, [run.output] + rest.1)
  }

  /** The allpass chain: the first filter reads `input`, each later one reads
      its predecessor's output; the chain's output and count are the last
      filter's. */
  function RunChain(aps: seq<AllpassFilter>, k: Kernels, input: seq<real>): (r: WetRun)
    requires |aps| > 0
    ensures |r.net.allpasses| == |aps| && r.net.combs == []
    ensures forall i :: 0 <= i < |aps| ==>
              && r.net.allpasses[i].length == aps[i].length
              && r.net.allpasses[i].gain == aps[i].gain
    ensures r.net.allpasses[0] == aps[0].(memory := k.allpass(aps[0], input).memory)
    ensures |aps| == 1 ==>
              r.output == k.allpass(aps[0], input).output && r.count == k.allpass(aps[0], input).count
    ensures |aps| > 1 ==>
              var rest := RunChain(aps[1..], k, k.allpass(aps[0], input).output);
              && r.net.allpasses[1..] == rest.net.allpasses
              && r.output == rest.output
              && r.count == rest.count
    decreases |aps|
  {
    var run := k.allpass(aps[0], input);
    var head := aps[0].(memory := run.memory);
    if |aps| == 1 then WetRun(Network([], [head]), run.output, run.count)
    else
      var rest := RunChain(aps[1..], k, run.output);
      WetRun(Network([], [head] + rest.net.allpasses), rest.output, rest.count)
  }

  /** The block a first-stage mixer reads: the outputs of the combs that
      `MixerInputs` wires to it, in order. */
  function MixerGroup(outputs: seq<seq<real>>, mixer: nat): (g: seq<seq<real>>)
    requires mixer < |MixerInputs|
    requires |outputs| == CombCount
    ensures |g| == |MixerInputs[mixer]|
    ensures forall j :: 0 <= j < |g| ==> g[j] == outputs[MixerInputs[mixer][j]]
  {
    var wires := MixerInputs[mixer];
    seq(|wires|, j requires 0 <= j < |wires| => outputs[wires[j]])
  }

  /** One block pulled through the whole network from the dry block `dry`. */
  function Wet(net: Network, k: Kernels, dry: seq<real>): (r: WetRun)
    requires Shaped(net)
    ensures Shaped(r.net)
    ensures SameSettings(net, r.net)
  {
    var (combs, outputs) := RunCombs(net.combs, k, dry);
    var mixed := k.average([k.average(MixerGroup(outputs, 0)), k.average(MixerGroup(outputs, 1))]);
    var chain := RunChain(net.allpasses, k, mixed);
    WetRun(Network(combs, chain.net.allpasses), chain.output, chain.count)
  }

  /** Each comb filter feeds exactly one first-stage mixer: combs 0 to 3
      feed mixer 0 and combs 4 to 7 feed mixer 1 (so comb 4 is in the
      second group). */
  lemma MixerGroupsPartitionCombs()
    ensures forall c :: 0 <= c < CombCount ==>
              (c in MixerInputs[0] <==> c < 4) && (c in MixerInputs[1] <==> 4 <= c)
    ensures forall c :: c in MixerInputs[0] || c in MixerInputs[1] ==> c < CombCount
  {
  }

  /** The wiring table reproduces the source's literal groups: mixer 0
      reads the first four comb outputs and mixer 1 the last four. */
  lemma MixerGroupsAreHalves(outputs: seq<seq<real>>)
    requires |outputs| == CombCount
    ensures MixerGroup(outputs, 0) == outputs[..4]
    ensures MixerGroup(outputs, 1) == outputs[4..]
  {
  }

  /** The wet signal is the allpass chain applied to the average of the two
      group averages, the comb filters all reading the dry block; afterwards
      every comb and every allpass holds the memory its own run left. */
  lemma WetTopology(net: Network, k: Kernels, dry: seq<real>)
    requires Shaped(net)
    ensures
      var outs := seq(CombCount, i requires 0 <= i < CombCount => k.comb(net.combs[i], dry).output);
      var mixed := k.average([k.average(outs[..4]), k.average(outs[4..])]);
      var aps := net.allpasses;
      var a0 := k.allpass(aps[0], mixed);
      var a1 := k.allpass(aps[1], a0.output);
      var a2 := k.allpass(aps[2], a1.output);
      var a3 := k.allpass(aps[3], a2.output);
      && Wet(net, k, dry).output == a3.output
      && Wet(net, k, dry).count == a3.count
      && Wet(net, k, dry).net == Network(
           seq(CombCount, i requires 0 <= i < CombCount =>
             net.combs[i].(memory := k.comb(net.combs[i], dry).memory)),
           [aps[0].(memory := a0.memory), aps[1].(memory := a1.memory),
            aps[2].(memory := a2.memory), aps[3].(memory := a3.memory)])
  {
    var outs := seq(CombCount, i requires 0 <= i < CombCount => k.comb(net.combs[i], dry).output);
    var (combs, outputs) := RunCombs(net.combs, k, dry);
    assert outputs == outs;
    MixerGroupsAreHalves(outputs);
    var mixed := k.average([k.average(outs[..4]), k.average(outs[4..])]);
    var aps := net.allpasses;
    var a0 := k.allpass(aps[0], mixed);
    var a1 := k.allpass(aps[1], a0.output);
    var a2 := k.allpass(aps[2], a1.output);
    var a3 := k.allpass(aps[3], a2.output);
    assert aps[1..][1..][1..] == [aps[3]];
    var c3 := RunChain(aps[1..][1..][1..], k, a2.output);
    var c2 := RunChain(aps[1..][1..], k, a1.output);
    var c1 := RunChain(aps[1..], k, a0.output);
    var c0 := RunChain(aps, k, mixed);
    assert c3.net.allpasses == [aps[3].(memory := a3.memory)];
    assert c2.net.allpasses == [aps[2].(memory := a2.memory)] + c3.net.allpasses;
    assert c1.net.allpasses == [aps[1].(memory := a1.memory)] + c2.net.allpasses;
    assert c0.net.allpasses == [aps[0].(memory := a0.memory)] + c1.net.allpasses;
    assert c0.output == a3.output && c0.count == a3.count;
    assert combs == seq(CombCount, i requires 0 <= i < CombCount =>
      net.combs[i].(memory := k.comb(net.combs[i], dry).memory));
  }
}
