/** An evolvable set of decoder parameters (js/geneticAlgorithm/individual.js). The genotype
    holds neutrality + 1 copies of the seven parameters fx, fy, cx, cy, k1, tx, ty; one switch
    per parameter says which copy is active. Math.random is a stream of draws `draws(i)`, read
    from a given index onwards. */
module GeneticAlgorithm {
  import opened Utils
  import opened DrawingDecoding

  /** How many parameters a decoder takes from an individual. */
  const ParamCount: nat := 7

  const DefaultParams: seq<real> := [615.0, 615.0, 640.0, 360.0, 0.0, 0.0, 0.0]
  const DefaultRates: seq<real> := [1.0, 1.0, 1.0, 1.0, 0.00000001, 2.0, 2.0]

  datatype Genotype = Genotype(switches: seq<int>, genes: seq<real>)

  /** `copies` copies of `params`, one after the other. */
  function Repeat(params: seq<real>, copies: nat): seq<real>
  {
    if copies == 0 then [] else Repeat(params, copies - 1) + params
  }

  lemma {:induction false} RepeatLength(params: seq<real>, copies: nat)
    ensures |Repeat(params, copies)| == copies * |params|
  {
    if copies > 0 {
      RepeatLength(params, copies - 1);
      assert (copies - 1) * |params| + |params| == copies * |params|;
    }
  }

  /** Every copy is the parameters themselves. */
  lemma {:induction false} RepeatBlock(params: seq<real>, copies: nat, b: nat)
    requires b < copies
    ensures b * |params| + |params| <= |Repeat(params, copies)|
    ensures Repeat(params, copies)[b * |params| .. b * |params| + |params|] == params
  {
    RepeatLength(params, copies - 1);
    var init := Repeat(params, copies - 1);
    if b == copies - 1 {
      assert Repeat(params, copies)[|init|..] == params;
    } else {
      RepeatBlock(params, copies - 1, b);
      assert b * |params| + |params| <= (copies - 1) * |params| by {
        assert (b + 1) * |params| <= (copies - 1) * |params| by {
          MulMonotone(b + 1, copies - 1, |params|);
        }
      }
      assert Repeat(params, copies)[b * |params| .. b * |params| + |params|]
          == init[b * |params| .. b * |params| + |params|];
    }
  }

  lemma MulMonotone(a: nat, b: nat, k: nat)
    requires a <= b
    ensures a * k <= b * k
  {
  }

  /** The parameter each switch selects: parameter i from the copy numbered by switch i. */
  predicate Selectable(g: Genotype, paramCount: nat)
  {
    forall i :: 0 <= i < |g.switches| ==> 0 <= i + g.switches[i] * paramCount < |g.genes|
  }

  function Active(g: Genotype, paramCount: nat): (params: seq<real>)
    requires Selectable(g, paramCount)
    ensures |params| == |g.switches|
    ensures forall i :: 0 <= i < |g.switches| ==> params[i] == g.genes[i + g.switches[i] * paramCount]
  {
    seq(|g.switches|, i requires 0 <= i < |g.switches| => g.genes[i + g.switches[i] * paramCount])
  }

  /** A well-formed genotype: a switch per parameter, each naming one of the copies. */
  predicate WellFormed(g: Genotype, paramCount: nat, neutrality: nat)
  {
    |g.switches| == paramCount && |g.genes| == paramCount * (neutrality + 1) &&
    forall i :: 0 <= i < |g.switches| ==> 0 <= g.switches[i] <= neutrality
  }

  /** Every switch of a well-formed genotype picks an existing gene. */
  lemma WellFormedSelectable(g: Genotype, paramCount: nat, neutrality: nat)
    requires WellFormed(g, paramCount, neutrality)
    ensures Selectable(g, paramCount)
  {
    forall i | 0 <= i < |g.switches|
      ensures i + g.switches[i] * paramCount < |g.genes|
    {
      MulMonotone(g.switches[i], neutrality, paramCount);
      assert (neutrality + 1) * paramCount == neutrality * paramCount + paramCount;
    }
  }

  // ---------------------------------------------------------------------------
  // Mutation

  /** Every gene moves by draw * 2 * rate - rate, with the rate of its parameter. */
  function MutatedGenes(genes: seq<real>, rates: seq<real>, paramCount: nat, draws: nat -> real, next: nat): (r: seq<real>)
    requires 0 < paramCount <= |rates|
    ensures |r| == |genes|
    ensures forall i :: 0 <= i < |genes| ==>
      r[i] == genes[i] + draws(next + i) * 2.0 * rates[i % paramCount] - rates[i % paramCount]
  {
    seq(|genes|, i requires 0 <= i < |genes| =>
      genes[i] + draws(next + i) * 2.0 * rates[i % paramCount] - rates[i % paramCount])
  }

  /** The switches after mutation and the index of the next unused draw. */
  datatype Switched = Switched(switches: seq<int>, next: nat)

  /** One switch: a draw below the switch rate replaces it with a copy picked by a second
      draw; otherwise it is kept. */
  function SwitchValue(s: int, switchRate: real, neutrality: nat, draws: nat -> real, k: nat): int
  {
    if draws(k) < switchRate then (draws(k + 1) * (neutrality + 1) as real).Floor else s
  }

  /** The index of the next unused draw after one switch. */
  function AfterSwitch(switchRate: real, draws: nat -> real, k: nat): nat
  {
    if draws(k) < switchRate then k + 2 else k + 1
  }

  /** Switches are visited in order, each consuming its draws before the next one: one draw,
      and a second one when it is switched. */
  function MutatedSwitches(switches: seq<int>, switchRate: real, neutrality: nat, draws: nat -> real, next: nat): (r: Switched)
    ensures |r.switches| == |switches|
    ensures next + |switches| <= r.next <= next + 2 * |switches|
  {
    if switches == [] then Switched([], next)
    else
      var prev := MutatedSwitches(switches[..|switches| - 1], switchRate, neutrality, draws, next);
      Switched(prev.switches + [SwitchValue(switches[|switches| - 1], switchRate, neutrality, draws, prev.next)],
               AfterSwitch(switchRate, draws, prev.next))
  }

  /** A switch on an existing copy stays on an existing copy. */
  lemma SwitchValueInRange(s: int, switchRate: real, neutrality: nat, draws: nat -> real, k: nat)
    requires 0 <= s <= neutrality
    requires forall i: nat :: 0.0 <= draws(i) < 1.0
    ensures 0 <= SwitchValue(s, switchRate, neutrality, draws, k) <= neutrality
  {
    DrawIndexInRange(draws(k + 1), neutrality + 1);
  }

  /** Mutation keeps one switch per parameter and keeps every switch on an existing copy. */
  lemma {:induction false} MutatedSwitchesInRange(switches: seq<int>, switchRate: real, neutrality: nat, draws: nat -> real, next: nat)
    requires forall i :: 0 <= i < |switches| ==> 0 <= switches[i] <= neutrality
    requires forall i: nat :: 0.0 <= draws(i) < 1.0
    ensures var r := MutatedSwitches(switches, switchRate, neutrality, draws, next);
      |r.switches| == |switches| && forall i :: 0 <= i < |r.switches| ==> 0 <= r.switches[i] <= neutrality
  {
    if switches != [] {
      var init := switches[..|switches| - 1];
      MutatedSwitchesInRange(init, switchRate, neutrality, draws, next);
      var prev := MutatedSwitches(init, switchRate, neutrality, draws, next);
      SwitchValueInRange(switches[|switches| - 1], switchRate, neutrality, draws, prev.next);
    }
  }

  /** With a switch rate of zero or less no switch ever changes. */
  lemma {:induction false} NoSwitchRateKeepsSwitches(switches: seq<int>, switchRate: real, neutrality: nat, draws: nat -> real, next: nat)
    requires switchRate <= 0.0
    requires forall i: nat :: 0.0 <= draws(i) < 1.0
    ensures MutatedSwitches(switches, switchRate, neutrality, draws, next).switches == switches
    ensures MutatedSwitches(switches, switchRate, neutrality, draws, next).next == next + |switches|
  {
    if switches != [] {
      var init := switches[..|switches| - 1];
      NoSwitchRateKeepsSwitches(init, switchRate, neutrality, draws, next);
      assert init + [switches[|switches| - 1]] == switches;
    }
  }

  /** A mutated gene stays within its rate of the original: the change lies in
      [-rate, rate), and is exactly -rate only for a draw of 0. */
  lemma GeneStep(g: real, d: real, rate: real)
    requires 0.0 <= d < 1.0 && rate >= 0.0
    ensures g - rate <= g + d * 2.0 * rate - rate <= g + rate
    ensures rate > 0.0 ==> g + d * 2.0 * rate - rate < g + rate
  {
    MulNonNegative(d, 2.0 * rate);
    if rate > 0.0 {
      assert 2.0 * rate - d * 2.0 * rate == (1.0 - d) * (2.0 * rate);
      MulPositive(1.0 - d, 2.0 * rate);
    } else {
      assert d * 2.0 * rate == 0.0;
    }
  }

  /** Every mutated gene lies within its rate of the original, and strictly below
      gene + rate when the rate is positive. */
  lemma MutatedGenesWithinRate(genes: seq<real>, rates: seq<real>, paramCount: nat, draws: nat -> real, next: nat)
    requires 0 < paramCount <= |rates|
    requires forall j :: 0 <= j < |rates| ==> rates[j] >= 0.0
    requires forall i: nat :: 0.0 <= draws(i) < 1.0
    ensures var r := MutatedGenes(genes, rates, paramCount, draws, next);
      forall i :: 0 <= i < |genes| ==>
        genes[i] - rates[i % paramCount] <= r[i] <= genes[i] + rates[i % paramCount]
        && (rates[i % paramCount] > 0.0 ==> r[i] < genes[i] + rates[i % paramCount])
  {
    var r := MutatedGenes(genes, rates, paramCount, draws, next);
    forall i | 0 <= i < |genes|
      ensures genes[i] - rates[i % paramCount] <= r[i] <= genes[i] + rates[i % paramCount]
      ensures rates[i % paramCount] > 0.0 ==> r[i] < genes[i] + rates[i % paramCount]
    {
      var j := i % paramCount;
      var rate := rates[j];
      assert rate >= 0.0;
      assert r[i] == genes[i] + draws(next + i) * 2.0 * rate - rate;
      GeneStep(genes[i], draws(next + i), rate);
    }
  }

  // ---------------------------------------------------------------------------
  // Decoder options from parameters

  /** The decoder an individual describes: fx, fy the focal length, cx, cy the optical
      centre, k1, and tx, ty the tilt factor; the ball radius keeps the decoder's default. */
  function DecoderOptions(params: seq<real>, smooth: real, zThreshold: real, checkZ: bool): (o: Options)
    requires |params| == ParamCount
    ensures ParamsOf(o) == params
    ensures o.smooth == smooth && o.zThreshold == zThreshold && o.checkZ == checkZ
    ensures o.ballRadius == DefaultOptions.ballRadius
  {
    Options(smooth, zThreshold, checkZ, Point(params[0], params[1]), Point(params[2], params[3]),
            params[4], Point(params[5], params[6]), DefaultOptions.ballRadius)
  }

  /** The seven parameters a decoder's options carry, in genotype order. */
  function ParamsOf(o: Options): (params: seq<real>)
    ensures |params| == ParamCount
  {
    [o.focalLength.x, o.focalLength.y, o.opticalCentre.x, o.opticalCentre.y, o.k1, o.tiltFactor.x, o.tiltFactor.y]
  }

  /** Parameters survive the trip into decoder options and back, and options with the default
      ball radius are rebuilt exactly from their parameters. */
  lemma OptionsRoundTrip(params: seq<real>, o: Options)
    requires |params| == ParamCount
    ensures ParamsOf(DecoderOptions(params, o.smooth, o.zThreshold, o.checkZ)) == params
    ensures o.ballRadius == DefaultOptions.ballRadius ==>
      DecoderOptions(ParamsOf(o), o.smooth, o.zThreshold, o.checkZ) == o
  {
  }

  /** The default individual decodes with every decoder default. */
  lemma DefaultsAgree()
    ensures DecoderOptions(DefaultParams, 0.0, 0.0, false) == DefaultOptions
  {
  }

  // ---------------------------------------------------------------------------
  // The individual

  class Individual {
    const rates: seq<real>
    const paramCount: nat
    const switchRate: real
    const neutrality: nat
    var genotype: Genotype

    predicate Valid()
      reads this
    {
      paramCount == ParamCount && |rates| == ParamCount && WellFormed(genotype, paramCount, neutrality)
    }

    /** A first-generation individual: every copy holds the given parameters and every switch
        selects the first copy. */
    constructor (params: seq<real>, rates: seq<real>, neutrality: nat)
      requires |params| == ParamCount && |rates| == ParamCount
      ensures Valid()
      ensures this.rates == rates && this.neutrality == neutrality && switchRate == 0.1 / ParamCount as real
      ensures genotype.genes == Repeat(params, neutrality + 1)
      ensures forall i :: 0 <= i < |genotype.switches| ==> genotype.switches[i] == 0
    {
      this.rates := rates;
      paramCount := |params|;
      switchRate := 0.1 / |params| as real;
      this.neutrality := neutrality;
      var genes: seq<real> := [];
      for i := 0 to neutrality + 1
        invariant genes == Repeat(params, i)
      {
        genes := genes + params;
      }
      RepeatLength(params, neutrality + 1);
      genotype := Genotype(seq(|params|, _ => 0), genes);
    }

    /** A child: copies the parent's settings and genotype, then mutates it with the draws
        from index `next` onwards. */
    constructor Child(parent: Individual, draws: nat -> real, next: nat)
      requires parent.Valid()
      requires forall i: nat :: 0.0 <= draws(i) < 1.0
      ensures Valid()
      ensures rates == parent.rates && paramCount == parent.paramCount
      ensures switchRate == parent.switchRate && neutrality == parent.neutrality
      ensures genotype == Mutation(parent.genotype, draws, next)
    {
      rates := parent.rates;
      paramCount := parent.paramCount;
      switchRate := parent.switchRate;
      neutrality := parent.neutrality;
      genotype := parent.genotype;
      new;
      var _ := Mutate(draws, next);
    }

    /** The genotype after one mutation: first every gene, then every switch. */
    function Mutation(g: Genotype, draws: nat -> real, next: nat): (r: Genotype)
      reads this
      requires Valid()
      requires forall i: nat :: 0.0 <= draws(i) < 1.0
      ensures |r.genes| == |g.genes| && |r.switches| == |g.switches|
      ensures WellFormed(g, paramCount, neutrality) ==> WellFormed(r, paramCount, neutrality)
    {
      var genes := MutatedGenes(g.genes, rates, paramCount, draws, next);
      var switched := MutatedSwitches(g.switches, switchRate, neutrality, draws, next + |g.genes|);
      if WellFormed(g, paramCount, neutrality) then
        MutatedSwitchesInRange(g.switches, switchRate, neutrality, draws, next + |g.genes|);
        Genotype(switched.switches, genes)
      else
        Genotype(switched.switches, genes)
    }

    /** Mutates every gene and possibly some switches; returns the index of the next unused
        draw. */
    method Mutate(draws: nat -> real, next: nat) returns (after: nat)
      requires Valid()
      requires forall i: nat :: 0.0 <= draws(i) < 1.0
      modifies this
      ensures Valid()
      ensures genotype == Mutation(old(genotype), draws, next)
      ensures after == MutatedSwitches(old(genotype).switches, switchRate, neutrality, draws, next + |old(genotype).genes|).next
    {
      var genes := MutatedGenes(genotype.genes, rates, paramCount, draws, next);
      var switched := MutatedSwitches(genotype.switches, switchRate, neutrality, draws, next + |genotype.genes|);
      MutatedSwitchesInRange(genotype.switches, switchRate, neutrality, draws, next + |genotype.genes|);
      genotype := Genotype(switched.switches, genes);
      after := switched.next;
    }

    /** The parameters the switches currently select. */
    function ActiveParams(): (params: seq<real>)
      reads this
      requires Valid()
      ensures |params| == ParamCount
    {
      WellFormedSelectable(genotype, paramCount, neutrality);
      Active(genotype, paramCount)
    }

    /** A decoder configured with the active parameters. */
    method GetDecoder(smooth: real, zThreshold: real, checkZ: bool) returns (decoder: DrawingDecoder)
      requires Valid()
      ensures fresh(decoder)
      ensures decoder.options == DecoderOptions(ActiveParams(), smooth, zThreshold, checkZ)
      ensures decoder.collector == [] && decoder.rejected == [] && decoder.lastPosition == None
      ensures decoder.lastBallsDetected == map[]
    {
      decoder := new DrawingDecoder(DecoderOptions(ActiveParams(), smooth, zThreshold, checkZ));
    }

    /** The active parameters as text, each written with `show`. */
    function ToString(show: real -> string): (r: string)
      reads this
      requires Valid()
      ensures |r| >= 4 && r[..4] == "fx: "
    {
      var p := ActiveParams();
      var rest := show(p[0]) + "  fy: " + show(p[1]) + "  cx " + show(p[2]) + "  cy " + show(p[3]) +
        "  k1 " + show(p[4]) + "  tx " + show(p[5]) + "  ty " + show(p[6]);
      "fx: " + rest
    }
  }

  /** A first-generation individual's active parameters are the ones it was built from,
      whichever copy a switch would name. */
  lemma FreshSelectsParams(params: seq<real>, neutrality: nat, switches: seq<int>)
    requires |params| == ParamCount
    requires |switches| == ParamCount && forall i :: 0 <= i < ParamCount ==> 0 <= switches[i] <= neutrality
    ensures var g := Genotype(switches, Repeat(params, neutrality + 1));
      Selectable(g, ParamCount) && Active(g, ParamCount) == params
  {
    var g := Genotype(switches, Repeat(params, neutrality + 1));
    RepeatLength(params, neutrality + 1);
    WellFormedSelectable(g, ParamCount, neutrality);
    forall i | 0 <= i < ParamCount
      ensures Active(g, ParamCount)[i] == params[i]
    {
      RepeatBlock(params, neutrality + 1, switches[i]);
      var start := switches[i] * |params|;
      assert g.genes[start .. start + |params|][i] == params[i];
    }
  }
}
