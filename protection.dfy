/** The protection advisor: fuse sizing, anti-spark advice and the connector rating check. */
module Protection {
  import opened Optional
  import opened Compatibility
  import opened Connectors

  /** `Math.ceil`. */
  function Ceil(x: real): (r: int)
    ensures x <= r as real < x + 1.0
  {
    -((-x).Floor)
  }

  /** `Math.round`: halves round up (towards +infinity). */
  function RoundHalfUp(x: real): (r: int)
    ensures x - 0.5 < r as real <= x + 0.5
  {
    (x + 0.5).Floor
  }

  datatype FuseType = Slow

  datatype Fuse = Fuse(ratingA: int, fuseType: FuseType)

  /** `suggestFuse`: the smallest whole rating at or above 125 % of the continuous current, slow-blow. */
  function SuggestFuse(contA: real): (f: Fuse)
    ensures f.fuseType == Slow
    ensures contA * 1.25 <= f.ratingA as real < contA * 1.25 + 1.0
  {
    Fuse(Ceil(contA * 1.25), Slow)
  }

  const AntiSparkThresholdV: real := 16.8

  /** `needsAntiSpark`: recommended from a 4S charged voltage (16.8 V) up, inclusive. */
  function NeedsAntiSpark(chargedVoltageV: real): (b: bool)
    ensures b <==> chargedVoltageV >= AntiSparkThresholdV
  {
    chargedVoltageV >= AntiSparkThresholdV
  }

  /** Raising the charged voltage never withdraws the recommendation. */
  lemma AntiSparkMonotone(v: real, w: real)
    requires v <= w && NeedsAntiSpark(v)
    ensures NeedsAntiSpark(w)
  {
  }

  datatype ConnectorCheck = ConnectorCheck(verdict: Verdict, reason: string)

  const MsgUnknownFamily := "Unknown connector family."
  const MsgContOver := "Continuous current exceeds connector rating."
  const MsgBurstOver := "Burst current exceeds connector burst rating."
  const MsgUsage := "Share of connector continuous rating."

  /** `checkConnector`: unknown family, then continuous, then burst, then the rounded usage percentage. */
  function CheckConnector(family: string, contA: real, burstA: real): (c: ConnectorCheck)
    ensures GetConnector(family).None? ==> c.verdict == WARN
    ensures c.verdict == FAIL <==> GetConnector(family).Some? && contA > GetConnector(family).value.contA
    ensures (GetConnector(family).Some? && contA <= GetConnector(family).value.contA &&
             burstA > GetConnector(family).value.burstA) ==> c.verdict == WARN
    ensures (GetConnector(family).Some? && contA <= GetConnector(family).value.contA &&
             burstA <= GetConnector(family).value.burstA) ==>
      (c.verdict == WARN <==> RoundHalfUp(contA / GetConnector(family).value.contA * 100.0) >= 90)
  {
    match GetConnector(family)
    case None => ConnectorCheck(WARN, MsgUnknownFamily)
    case Some(spec) =>
      if contA > spec.contA then ConnectorCheck(FAIL, MsgContOver)
      else if burstA > spec.burstA then ConnectorCheck(WARN, MsgBurstOver)
      else
        var pct := RoundHalfUp((contA / spec.contA) * 100.0);
        ConnectorCheck(if pct >= 90 then WARN else PASS, MsgUsage)
  }

  /** The rounded percentage reaches 90 exactly when the unrounded one reaches 89.5. */
  lemma RoundedPercentReaches90(x: real)
    ensures RoundHalfUp(x) >= 90 <==> x >= 89.5
  {
  }

  /** PASS means: a known family, both ratings respected, and usage below 89.5 % of the continuous rating. */
  lemma ConnectorPassIff(family: string, contA: real, burstA: real)
    ensures CheckConnector(family, contA, burstA).verdict == PASS <==>
      && GetConnector(family).Some?
      && contA <= GetConnector(family).value.contA
      && burstA <= GetConnector(family).value.burstA
      && contA < 0.895 * GetConnector(family).value.contA
  {
    match GetConnector(family)
    case None =>
    case Some(spec) =>
      var x := contA / spec.contA * 100.0;
      RoundedPercentReaches90(x);
      assert contA == x * spec.contA / 100.0;
      assert x >= 89.5 <==> contA >= 0.895 * spec.contA;
  }

  datatype ProtectionSummary = ProtectionSummary(fuse: Fuse, antiSpark: bool, connector: ConnectorCheck)

  /** `summarizeProtection`: the same continuous current feeds the fuse and the connector check. */
  function SummarizeProtection(chargedVoltageV: real, contA: real, burstA: real, family: string): (s: ProtectionSummary)
    ensures s.fuse == SuggestFuse(contA) && s.connector == CheckConnector(family, contA, burstA)
    ensures s.antiSpark <==> chargedVoltageV >= AntiSparkThresholdV
    ensures contA * 1.25 <= s.fuse.ratingA as real < contA * 1.25 + 1.0
  {
    ProtectionSummary(SuggestFuse(contA), NeedsAntiSpark(chargedVoltageV), CheckConnector(family, contA, burstA))
  }

  // ---------------------------------------------------------------------
  // The documented cases

  lemma FuseExamples()
    ensures SuggestFuse(60.0).ratingA == 75
    ensures SuggestFuse(50.0).ratingA == 63
  {
  }

  lemma AntiSparkExamples()
    ensures NeedsAntiSpark(16.8) && !NeedsAntiSpark(12.6)
  {
  }

  /** XT60 fails at 80 A continuous and passes at 40 A. */
  lemma Xt60Examples()
    ensures CheckConnector("XT60", 80.0, 90.0).verdict == FAIL
    ensures CheckConnector("XT60", 40.0, 60.0).verdict == PASS
  {
    Xt60Lookup();
    ConnectorPassIff("XT60", 40.0, 60.0);
  }

  /** XT90 at 50 A / 80 A burst, 16.8 V: a 63 A fuse, anti-spark advised, connector PASS. */
  lemma SummaryExample()
    ensures SummarizeProtection(16.8, 50.0, 80.0, "XT90").fuse.ratingA == 63
    ensures SummarizeProtection(16.8, 50.0, 80.0, "XT90").antiSpark
    ensures SummarizeProtection(16.8, 50.0, 80.0, "XT90").connector.verdict == PASS
  {
    assert SameFamily(CONNECTORS[3].family, "XT90");
    FindsEntry("XT90", 3);
    ConnectorPassIff("XT90", 50.0, 80.0);
  }
}
