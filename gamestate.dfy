/** The slice of the match state that the pattern checker and the point
    calculator read: winds, dealer seat, counters and the rule switches.
    The match state's own operations (advancing the dealer, the round,
    updating scores) are not part of this model. */
module GameState {
  import opened Config

  datatype Wind = East | South | West | North

  /** The honor rank of a wind tile: East 1 ... North 4. */
  function WindRank(w: Wind): (r: int)
    ensures 1 <= r <= 4
  {
    match w
    case East => 1
    case South => 2
    case West => 3
    case North => 4
  }

  datatype State = State(
    dealer: int,
    roundWind: Wind,
    playerWinds: seq<Wind>,
    honba: nat,
    riichiSticks: nat,
    ruleset: RulesConfig)
}
