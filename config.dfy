/** Rule-variant switches shared by the pattern checker, the point
    calculator and the rule engine.  The record has no behaviour of its
    own: every component receives it and reads the switch it needs. */
module Config {

  /** How the "win on a discard before the first draw" pattern is scored. */
  datatype RenhouPolicy = RenhouYakuman | RenhouTwoHan | RenhouOff

  datatype RulesConfig = RulesConfig(
    renhouPolicy: RenhouPolicy,
    pinfuRequireRyanmen: bool,
    ippatsuInterruptOnMeldOrKan: bool,
    chantaEnabled: bool,
    chantaOpenHan: nat,
    chantaClosedHan: nat,
    junchanOpenHan: nat,
    junchanClosedHan: nat,
    suuankouTankiDouble: bool,
    chuurenPureDouble: bool,
    kiriageMangan: bool,
    tobiEnabled: bool,
    westRoundExtension: bool,
    returnScore: int,
    agariYame: bool,
    chomboPenaltyEnabled: bool,
    headBumpOnly: bool,
    allowDoubleRon: bool,
    allowTripleRon: bool)

  /** The values a configuration takes when no field is given explicitly. */
  function Default(): RulesConfig
  {
    RulesConfig(
      renhouPolicy := RenhouTwoHan,
      pinfuRequireRyanmen := true,
      ippatsuInterruptOnMeldOrKan := true,
      chantaEnabled := true,
      chantaOpenHan := 1,
      chantaClosedHan := 2,
      junchanOpenHan := 2,
      junchanClosedHan := 3,
      suuankouTankiDouble := true,
      chuurenPureDouble := true,
      kiriageMangan := false,
      tobiEnabled := true,
      westRoundExtension := true,
      returnScore := 30000,
      agariYame := true,
      chomboPenaltyEnabled := true,
      headBumpOnly := true,
      allowDoubleRon := false,
      allowTripleRon := false)
  }
}
