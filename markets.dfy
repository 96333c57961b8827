/** A Manifold market as the venue's API delivers it: a dictionary whose keys
    may be absent. Every key the core reads is a field here; an absent key is
    `None`, except `isResolved`, which every reader defaults to false. */
module Markets {
  import opened Common

  /** The `resolution` key: absent, a text label ("YES", "NO", "MKT",
      "CANCEL", ...), or a number. */
  datatype Resolution = Unresolved | Label(text: string) | Numeric(value: real)

  datatype Market = Market(
    id: string,
    question: Option<string>,
    creatorUsername: Option<string>,
    creatorId: Option<string>,
    probability: Option<real>,
    totalLiquidity: Option<real>,
    volume24Hours: Option<real>,
    closeTime: Option<int>,       // milliseconds since the epoch
    isResolved: bool,
    resolution: Resolution,
    url: Option<string>)

  /** Python truthiness of an optional text: present and non-empty. */
  predicate TruthyText(s: Option<string>) {
    s.Some? && s.value != ""
  }

  /** Python truthiness of a resolution value: `None`, "" and 0 are falsy. */
  predicate TruthyResolution(r: Resolution) {
    match r
    case Unresolved => false
    case Label(t) => t != ""
    case Numeric(v) => v != 0.0
  }

  /** `market.get("probability", 0.5)` */
  function ProbabilityOrDefault(m: Market): real {
    m.probability.GetOr(0.5)
  }

  /** Liquidity and volume, when present, are never negative. */
  predicate WellFormed(m: Market) {
    (m.totalLiquidity.Some? ==> m.totalLiquidity.value >= 0.0) &&
    (m.volume24Hours.Some? ==> m.volume24Hours.value >= 0.0)
  }
}
