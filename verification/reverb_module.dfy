/**
 The reverberator's parameter surface and block processing.

 The module owns the filter network, a dry/wet blend factor and a bypass
 switch. Room size and damping are not stored on their own: each setter
 clamps its value to [0, 1] and writes it into all eight comb filters, and
 each getter reads it back from comb 0. A block read pulls from upstream,
 returns it untouched when bypassed, and otherwise replaces it by a linear
 blend of the dry block and the network's wet output.
 */
module ReverbModule {
  import opened DelayLengths
  import opened FilterNetwork

  /** The upstream stream format, fixed for the module's lifetime. */
  datatype WaveFormat = WaveFormat(sampleRate: int, channels: int)

  /** The whole state of a reverberator. */
  datatype Reverb = Reverb(format: WaveFormat, net: Network, dryWet: real, enabled: bool)

  /** What the upstream read did: the caller's buffer as it left it, and the
      sample count it reported. */
  datatype Pull = Pull(buffer: seq<real>, count: int)

  /** A successful block read: the module afterwards, the buffer afterwards
      and the count returned to the caller. */
  datatype ReadOutcome = ReadOutcome(state: Reverb, buffer: seq<real>, count: int)

  /** The blend loop indexes outside the caller's buffer. */
  datatype ReadError = IndexOutOfRange

  datatype Result<T> = Ok(value: T) | Err(error: ReadError)

  /** Initial room size and damping given to every comb filter. */
  const InitialRoomSize: real := 0.5
  const InitialDamping: real := 0.5

  /** Gain of every allpass filter. */
  const AllpassGain: real := 0.5

  /** All comb filters share one feedback and one damping value. */
  predicate Lockstep(net: Network) {
    forall i :: 0 <= i < |net.combs| ==>
      net.combs[i].feedback == net.combs[0].feedback && net.combs[i].damping == net.combs[0].damping
  }

  /** The state invariant: the fixed shape, delay lengths scaled for the
      format's sample rate, allpass gains, coefficients in [0, 1] and kept in
      lockstep. */
  predicate Valid(m: Reverb) {
    && Shaped(m.net)
    && (forall i :: 0 <= i < CombCount ==>
          m.net.combs[i].length == ScaledLength(CombReferences[i], m.format.sampleRate))
    && (forall i :: 0 <= i < AllpassCount ==>
          && m.net.allpasses[i].length == ScaledLength(AllpassReferences[i], m.format.sampleRate)
          && m.net.allpasses[i].gain == AllpassGain)
    && (forall i :: 0 <= i < CombCount ==>
          0.0 <= m.net.combs[i].feedback <= 1.0 && 0.0 <= m.net.combs[i].damping <= 1.0)
    && Lockstep(m.net)
  }

  /** A freshly constructed reverberator for the upstream format `format`. */
  function New(format: WaveFormat, k: Kernels): (m: Reverb)
    ensures Valid(m)
    ensures m.format == format
    ensures forall i :: 0 <= i < CombCount ==>
              && m.net.combs[i].length == CombLengths(format.sampleRate)[i]
              && m.net.combs[i].feedback == InitialRoomSize
              && m.net.combs[i].damping == InitialDamping
              && m.net.combs[i].memory == k.combInitial(m.net.combs[i].length)
    ensures forall i :: 0 <= i < AllpassCount ==>
              && m.net.allpasses[i].length == AllpassLengths(format.sampleRate)[i]
              && m.net.allpasses[i].memory == k.allpassInitial(m.net.allpasses[i].length)
    ensures m.dryWet == 1.0 && !m.enabled
    ensures RoomSize(m) == InitialRoomSize && Damping(m) == InitialDamping
  {
    var combLengths := CombLengths(format.sampleRate);
    var allpassLengths := AllpassLengths(format.sampleRate);
    var combs := seq(CombCount, i requires 0 <= i < CombCount =>
      CombFilter(combLengths[i], InitialRoomSize, InitialDamping, k.combInitial(combLengths[i])));
    var allpasses := seq(AllpassCount, i requires 0 <= i < AllpassCount =>
      AllpassFilter(allpassLengths[i], AllpassGain, k.allpassInitial(allpassLengths[i])));
    Reverb(format, Network(combs, allpasses), 1.0, false)
  }

  /** Math.Clamp(v, 0, 1). */
  function Clamp(v: real): (r: real)
    ensures 0.0 <= r <= 1.0
    ensures 0.0 <= v <= 1.0 ==> r == v
  {
    if v < 0.0 then 0.0 else if v > 1.0 then 1.0 else v
  }

  /** Every comb with its feedback replaced by `v`, all else kept. */
  function WithFeedback(combs: seq<CombFilter>, v: real): (r: seq<CombFilter>)
    ensures |r| == |combs|
    ensures forall i :: 0 <= i < |r| ==>
              && r[i].feedback == v
              && r[i].length == combs[i].length
              && r[i].damping == combs[i].damping
              && r[i].memory == combs[i].memory
  {
    if |combs| == 0 then [] else [combs[0].(feedback := v)] + WithFeedback(combs[1..], v)
  }

  /** Every comb with its damping replaced by `v`, all else kept. */
  function WithDamping(combs: seq<CombFilter>, v: real): (r: seq<CombFilter>)
    ensures |r| == |combs|
    ensures forall i :: 0 <= i < |r| ==>
              && r[i].damping == v
              && r[i].length == combs[i].length
              && r[i].feedback == combs[i].feedback
              && r[i].memory == combs[i].memory
  {
    if |combs| == 0 then [] else [combs[0].(damping := v)] + WithDamping(combs[1..], v)
  }

  /** The RoomSize getter: comb 0's feedback, which under lockstep is every comb's. */
  function RoomSize(m: Reverb): (r: real)
    requires |m.net.combs| > 0
    ensures Lockstep(m.net) ==> forall i :: 0 <= i < |m.net.combs| ==> m.net.combs[i].feedback == r
  {
    m.net.combs[0].feedback
  }

  /** The Damping getter: comb 0's damping, which under lockstep is every comb's. */
  function Damping(m: Reverb): (r: real)
    requires |m.net.combs| > 0
    ensures Lockstep(m.net) ==> forall i :: 0 <= i < |m.net.combs| ==> m.net.combs[i].damping == r
  {
    m.net.combs[0].damping
  }

  /** The RoomSize setter: the clamped value becomes every comb's feedback;
      dampings, memories, allpasses, dry/wet and bypass are untouched. */
  function SetRoomSize(m: Reverb, v: real): (r: Reverb)
    ensures |r.net.combs| == |m.net.combs|
    ensures forall i :: 0 <= i < |r.net.combs| ==>
              && r.net.combs[i].feedback == Clamp(v)
              && r.net.combs[i].damping == m.net.combs[i].damping
              && r.net.combs[i].length == m.net.combs[i].length
              && r.net.combs[i].memory == m.net.combs[i].memory
    ensures r.net.allpasses == m.net.allpasses
    ensures r.format == m.format && r.dryWet == m.dryWet && r.enabled == m.enabled
    ensures |m.net.combs| > 0 ==> RoomSize(r) == Clamp(v)
    ensures Valid(m) ==> Valid(r)
  {
    m.(net := m.net.(combs := WithFeedback(m.net.combs, Clamp(v))))
  }

  /** The Damping setter: the clamped value becomes every comb's damping;
      feedbacks, memories, allpasses, dry/wet and bypass are untouched. */
  function SetDamping(m: Reverb, v: real): (r: Reverb)
    ensures |r.net.combs| == |m.net.combs|
    ensures forall i :: 0 <= i < |r.net.combs| ==>
              && r.net.combs[i].damping == Clamp(v)
              && r.net.combs[i].feedback == m.net.combs[i].feedback
              && r.net.combs[i].length == m.net.combs[i].length
              && r.net.combs[i].memory == m.net.combs[i].memory
    ensures r.net.allpasses == m.net.allpasses
    ensures r.format == m.format && r.dryWet == m.dryWet && r.enabled == m.enabled
    ensures |m.net.combs| > 0 ==> Damping(r) == Clamp(v)
    ensures Valid(m) ==> Valid(r)
  {
    m.(net := m.net.(combs := WithDamping(m.net.combs, Clamp(v))))
  }

  /** The DryWet setter stores the value as given, with no clamping. */
  function SetDryWet(m: Reverb, v: real): (r: Reverb)
    ensures r.dryWet == v
    ensures r.net == m.net && r.format == m.format && r.enabled == m.enabled
    ensures Valid(m) ==> Valid(r)
  {
    m.(dryWet := v)
  }

  /** The Enabled setter. */
  function SetEnabled(m: Reverb, b: bool): (r: Reverb)
    ensures r.enabled == b
    ensures r.net == m.net && r.format == m.format && r.dryWet == m.dryWet
    ensures Valid(m) ==> Valid(r)
  {
    m.(enabled := b)
  }

  /** Clamping picks the point of [0, 1] nearest to `v`. */
  lemma ClampIsNearest(v: real, w: real)
    requires 0.0 <= w <= 1.0
    ensures 0.0 <= Clamp(v) <= 1.0
    ensures Abs(Clamp(v) - v) <= Abs(w - v)
  {
  }

  function Abs(x: real): real {
    if x < 0.0 then -x else x
  }

  /** Clamping twice is clamping once. */
  lemma ClampIdempotent(v: real)
    ensures Clamp(Clamp(v)) == Clamp(v)
  {
  }

  /** Out-of-range room size and damping are clamped, while dry/wet is
      stored as given and so extrapolates the blend. */
  lemma OutOfRangeValues(m: Reverb)
    requires Valid(m)
    ensures RoomSize(SetRoomSize(m, 1.7)) == 1.0
    ensures Damping(SetDamping(m, -0.5)) == 0.0
    ensures SetDryWet(m, 1.7).dryWet == 1.7 && SetDryWet(m, -0.5).dryWet == -0.5
  {
  }

  /** Setting room size twice keeps only the last value. */
  lemma RoomSizeLastWriteWins(m: Reverb, a: real, b: real)
    ensures SetRoomSize(SetRoomSize(m, a), b) == SetRoomSize(m, b)
  {
  }

  /** Setting damping twice keeps only the last value. */
  lemma DampingLastWriteWins(m: Reverb, a: real, b: real)
    ensures SetDamping(SetDamping(m, a), b) == SetDamping(m, b)
  {
  }

  /** The two setters act on disjoint coefficients, so their order does not matter. */
  lemma SettersCommute(m: Reverb, a: real, b: real)
    ensures SetDamping(SetRoomSize(m, a), b) == SetRoomSize(SetDamping(m, b), a)
  {
  }

  /** The block the dry copy holds: the `count` samples at `offset`. */
  function DryBlock(buffer: seq<real>, offset: int, count: int): (d: seq<real>)
    requires count <= 0 || (0 <= offset && offset + count <= |buffer|)
    ensures |d| == if count > 0 then count else 0
    ensures forall i :: 0 <= i < |d| ==> d[i] == buffer[offset + i]
  {
    if count <= 0 then [] else buffer[offset..offset + count]
  }

  /** The sample at window position `i` after the final allpass wrote its
      output at the window's start: what it produced, or, past the end of
      its output, the dry sample still there. The second case is a modelling
      assumption: the unseen chain may write those positions itself. */
  function WetSample(output: seq<real>, dry: seq<real>, i: nat): real
    requires i < |dry|
  {
    if i < |output| then output[i] else dry[i]
  }

  /** The buffer after the final allpass wrote its output into the window
      of `count` samples at `offset`, assuming the wet chain writes only its
      own output samples and nothing outside the window. */
  function AfterWet(buffer: seq<real>, offset: int, output: seq<real>, count: int): (b: seq<real>)
    requires count <= 0 || (0 <= offset && offset + count <= |buffer|)
    ensures |b| == |buffer|
    ensures forall j :: 0 <= j < |b| && !(offset <= j < offset + count) ==> b[j] == buffer[j]
    ensures forall i :: 0 <= i < count ==>
              b[offset + i] == WetSample(output, DryBlock(buffer, offset, count), i)
  {
    seq(|buffer|, j requires 0 <= j < |buffer| =>
      if offset <= j < offset + count && j - offset < |output| then output[j - offset] else buffer[j])
  }

  /** The per-sample blend of a wet and a dry sample by the factor `dryWet`. */
  function Mix(dryWet: real, wet: real, dry: real): real {
    dryWet * wet + (1.0 - dryWet) * dry
  }

  /** The blend loop: every window sample becomes `dryWet` times what the
      buffer holds there plus `1 - dryWet` times the dry copy; nothing
      outside the window is written. */
  method BlendWindow(buffer: seq<real>, offset: int, dry: seq<real>, dryWet: real) returns (b: seq<real>)
    requires 0 <= offset && offset + |dry| <= |buffer|
    ensures |b| == |buffer|
    ensures forall j :: 0 <= j < |b| && !(offset <= j < offset + |dry|) ==> b[j] == buffer[j]
    ensures forall i :: 0 <= i < |dry| ==>
              b[offset + i] == Mix(dryWet, buffer[offset + i], dry[i])
  {
    b := buffer;
    var i := 0;
    while i < |dry|
      invariant 0 <= i <= |dry|
      invariant |b| == |buffer|
      invariant forall j :: 0 <= j < |b| && !(offset <= j < offset + i) ==> b[j] == buffer[j]
      invariant forall j :: 0 <= j < i ==>
                  b[offset + j] == Mix(dryWet, buffer[offset + j], dry[j])
    {
      b := b[offset + i := dryWet * b[offset + i] + (1.0 - dryWet) * dry[i]];
      i := i + 1;
    }
  }

  /** `b` is `source` after the enabled path of a block read: the final
      allpass's `output` written into the window of `count` samples at
      `offset`, each window sample then blended with the dry copy by
      `dryWet`, and nothing outside the window changed. */
  predicate Blended(b: seq<real>, source: seq<real>, offset: int, count: int, dryWet: real, output: seq<real>)
    requires count <= 0 || (0 <= offset && offset + count <= |source|)
  {
    var dry := DryBlock(source, offset, count);
    && |b| == |source|
    && (forall j :: 0 <= j < |b| && !(offset <= j < offset + count) ==> b[j] == source[j])
    && (forall i :: 0 <= i < count ==> b[offset + i] == Mix(dryWet, WetSample(output, dry, i), dry[i]))
  }

  /** The buffer work of an enabled block read, from the upstream data
      `source` and the network's `output`: the wet write and the blend loop.
      Fully wet leaves the network's output in the window, fully dry leaves
      the upstream data. */
  method BlendBlock(source: seq<real>, offset: int, count: int, dryWet: real, output: seq<real>) returns (b: seq<real>)
    requires count <= 0 || (0 <= offset && offset + count <= |source|)
    ensures Blended(b, source, offset, count, dryWet, output)
    ensures dryWet == 1.0 ==>
              forall i :: 0 <= i < count ==>
                b[offset + i] == WetSample(output, DryBlock(source, offset, count), i)
    ensures dryWet == 0.0 ==> b == source
  {
    var dry := DryBlock(source, offset, count);
    var wet := AfterWet(source, offset, output, count);
    var start := if count > 0 then offset else 0;
    b := BlendWindow(wet, start, dry, dryWet);
    forall i | 0 <= i < count
      ensures b[offset + i] == Mix(dryWet, WetSample(output, dry, i), dry[i])
    {
      assert wet[offset + i] == WetSample(output, dry, i);
    }
    if dryWet == 0.0 {
      forall j | 0 <= j < |b|
        ensures b[j] == source[j]
      {
        if start <= j < start + |dry| {
          assert b[start + (j - start)] == Mix(0.0, wet[start + (j - start)], dry[j - start]);
        }
      }
    }
  }

  /** Pulling a block through the network keeps a valid module valid. */
  lemma WetKeepsValid(m: Reverb, k: Kernels, dry: seq<real>)
    requires Valid(m)
    ensures Valid(m.(net := Wet(m.net, k, dry).net))
  {
  }

  /** One block read. `pulled` is what the upstream read left in the
      caller's buffer; `k` supplies the unseen filter primitives. */
  method Read(m: Reverb, k: Kernels, pulled: Pull, offset: int, sampleCount: int) returns (r: Result<ReadOutcome>)
    requires Shaped(m.net)
    // Bypass: the upstream data is returned as is, with the requested count,
    // whatever count the upstream reported, and the filters are not run.
    ensures !m.enabled ==> r == Ok(ReadOutcome(m, pulled.buffer, sampleCount))
    // Enabled: the blend loop fails exactly when its window leaves the buffer.
    ensures m.enabled ==>
              (r.Err? <==> sampleCount > 0 && !(0 <= offset && offset + sampleCount <= |pulled.buffer|))
    // Otherwise the network runs on the dry copy, only the filter memories
    // change, the count is the final allpass's and the window is blended.
    ensures m.enabled && r.Ok? ==>
              var run := Wet(m.net, k, DryBlock(pulled.buffer, offset, sampleCount));
              && r.value.state == m.(net := run.net)
              && r.value.count == run.count
              && Blended(r.value.buffer, pulled.buffer, offset, sampleCount, m.dryWet, run.output)
    // Fully wet gives the network's output, fully dry gives the upstream data back.
    ensures m.enabled && r.Ok? && m.dryWet == 1.0 ==>
              var dry := DryBlock(pulled.buffer, offset, sampleCount);
              forall i :: 0 <= i < sampleCount ==>
                r.value.buffer[offset + i] == WetSample(Wet(m.net, k, dry).output, dry, i)
    ensures m.enabled && r.Ok? && m.dryWet == 0.0 ==> r.value.buffer == pulled.buffer
    ensures Valid(m) && r.Ok? ==> Valid(r.value.state)
  {
    if !m.enabled {
      return Ok(ReadOutcome(m, pulled.buffer, sampleCount));
    }
    if sampleCount > 0 && !(0 <= offset && offset + sampleCount <= |pulled.buffer|) {
      return Err(IndexOutOfRange);
    }
    var dry := DryBlock(pulled.buffer, offset, sampleCount);
    var run := Wet(m.net, k, dry);
    var buffer := BlendBlock(pulled.buffer, offset, sampleCount, m.dryWet, run.output);
    if Valid(m) {
      WetKeepsValid(m, k, dry);
    }
    return Ok(ReadOutcome(m.(net := run.net), buffer, run.count));
  }
}
