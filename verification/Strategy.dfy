/** Strategy parameters and their defaults (internal/domain/strategy.go). */
module Strategy {

  datatype Kind = ACoS | ROAS | AntiSliv | Dayparting | SearchPlaybook | OzonTargetDRR | Other

  datatype Params = Params(
    targetACoS: real,
    targetROAS: real,
    maxACoS: real,
    baseMultiplier: real,
    hourlyMultipliers: map<int, real>,
    weekdayMultipliers: map<int, real>,
    frequencyTier: string,
    targetPosition: real,
    sacrificialSpendPricePct: real,
    flatImpressionsPct: real,
    rollbackStepPercent: real,
    minBid: int,
    maxBid: int,
    maxCPC: real,
    maxCPO: real,
    maxChangePercent: real,
    minClicks: int,
    cooldownMinutes: int,
    maxChangesPerDay: int
  )

  /** The parameters with a default in place of every zero. */
  function Merged(p: Params): Params {
    p.(minBid := if p.minBid == 0 then 50 else p.minBid,
       maxBid := if p.maxBid == 0 then 5000 else p.maxBid,
       maxChangePercent := if p.maxChangePercent == 0.0 then 15.0 else p.maxChangePercent,
       minClicks := if p.minClicks == 0 then 10 else p.minClicks,
       baseMultiplier := if p.baseMultiplier == 0.0 then 1.0 else p.baseMultiplier,
       cooldownMinutes := if p.cooldownMinutes == 0 then 120 else p.cooldownMinutes,
       maxChangesPerDay := if p.maxChangesPerDay == 0 then 3 else p.maxChangesPerDay,
       sacrificialSpendPricePct :=
         if p.sacrificialSpendPricePct == 0.0 then 100.0 else p.sacrificialSpendPricePct,
       flatImpressionsPct := if p.flatImpressionsPct == 0.0 then 20.0 else p.flatImpressionsPct,
       rollbackStepPercent := if p.rollbackStepPercent == 0.0 then 9.0 else p.rollbackStepPercent)
  }
}
