/**
 * The exchange-assigned trade condition codes and exchange identifiers of
 * src/trades.rs, as closed enumerations, with the boolean predicates the
 * strategy reconstruction reads off a condition.
 */
module Conditions {

  /** Trade condition attached to an option print by the exchange. */
  datatype ConditionID =
    | Regular
    | FormT
    | OutOfSeq
    | AvgPrc
    | OpenReportLate
    | OpenReportOutOfSeq
    | OpenReportInSeq
    | PriorReferencePrice
    | NextDaySale
    | Bunched
    | CashSale
    | Seller
    | SoldLast
    | Rule127
    | BunchedSold
    | AutoExecution
    | Reopen
    | Acquisition
    | Rule155
    | Distribution
    | Split
    | AdjTerms
    | Spread
    | Straddle
    | BuyWrite
    | Combo
    | STPD
    | CANC
    | CANCLAST
    | CANCOPEN
    | CANCONLY
    | CANCSTPD
    | MatchCross
    | InternalCross
    | StoppedRegular
    | StoppedSoldLast
    | StoppedOutOfSeq
    | OpenReport
    | MarketOnClose
    | OutOfSeqPreMkt
    | MCOfficialOpen
    | YellowFlag
    | PreOpening
    | IntermarketSweep
    | Derivative
    | Reopening
    | Closing
    | OddLotTrade
    | PriceVariation
    | Contingent
    | StoppedIM
    | Benchmark
    | TradeThroughExempt
    | TradeCorrection
    | Block
    | ECRP
    | SingLegAuctNonISO
    | SingLegAuctISO
    | SingLegCrossNonISO
    | SingLegCrossISO
    | SingLegFlr
    | MultLegAutoEx
    | MultLegAuct
    | MultLegCross
    | MultLegFlr
    | MultLegAutoSingLeg
    | StkOptAuct
    | MultLegAuctSingLeg
    | MultLegFlrSingLeg
    | StkOptAutoEx
    | StkOptCross
    | StkOptFlr
    | StkOptAutoExSingLeg
    | StkOptAuctSingLeg
    | StkOptFlrSingLeg
    | MultLegFlrPropProd
    | CorrConsClose
    | QualContTrade
    | MultiCompressProp
    | ExtendedHours

  /** A print that is one leg of a multi-leg (complex order) execution. */
  predicate IsMultiLeg(c: ConditionID)
  {
    || c == MultLegAutoEx
    || c == MultLegAuct
    || c == MultLegCross
    || c == MultLegFlr
    || c == MultLegAutoSingLeg
    || c == MultLegAuctSingLeg
    || c == MultLegFlrSingLeg
    || c == MultLegFlrPropProd
    || c == StkOptAuct
    || c == StkOptAutoEx
    || c == StkOptCross
    || c == StkOptFlr
    || c == StkOptAutoExSingLeg
    || c == StkOptAuctSingLeg
    || c == StkOptFlrSingLeg
  }

  /** An intermarket sweep; sweeps are single-leg orders. */
  predicate IsSweep(c: ConditionID)
    ensures IsSweep(c) ==> !IsMultiLeg(c)
  {
    c == IntermarketSweep || c == SingLegAuctISO || c == SingLegCrossISO
  }

  /** A cancelled print; cancellations are never multi-leg. */
  predicate IsCancel(c: ConditionID)
    ensures IsCancel(c) ==> !IsMultiLeg(c)
  {
    || c == CANC
    || c == CANCLAST
    || c == CANCONLY
    || c == CANCOPEN
    || c == CANCSTPD
  }

  /** A multi-leg print executed together with a stock leg. */
  predicate IncludesStockTrade(c: ConditionID)
    ensures IncludesStockTrade(c) ==> IsMultiLeg(c)
  {
    || c == StkOptAuct
    || c == StkOptAuctSingLeg
    || c == StkOptAutoExSingLeg
    || c == StkOptCross
    || c == StkOptFlrSingLeg
    || c == StkOptFlr
  }

  /** The stock-with-option algorithmic code is left out of the stock table: it is multi-leg without a stock leg. */
  lemma {:induction false} AlgorithmicStockCodeHasNoStock()
    ensures IsMultiLeg(StkOptAutoEx) && !IncludesStockTrade(StkOptAutoEx)
  {
  }

  /** Venue that reported a print. */
  datatype Exchange =
    | NasdaqExchange
    | NasdaqAlternativeDisplayFacility
    | NewYorkStockExchange
    | AmericanStockExchange
    | ChicagoBoardOptionsExchange
    | InternationalSecuritiesExchange
    | NYSEArcaExchange
    | NYSENational
    | PhiladelphiaStockExchange
    | BostonStockExchange
    | NasdaqBulletinBoard
    | NasdaqOTCPinkSheets
    | ChicagoStockExchange
    | ChicagoMercantileExchange
    | ISEMercury
    | DowJonesIndices
    | ISEGemini
    | C2
    | MIAXOptionsExchange
    | NASDAQOMXBXOptions
    | CBOEFuturesExchange
    | NSXTradeReportingFacility
    | NYSETradeReportingFacility
    | BATSTrading
    | BATSTrading2
    | DirectEdgeA
    | DirectEdgeX
    | IEXStockExchange
    | MIAXPEARL
    | MIAXEmeraldOptionsExchange
    | CHIXEurope
    | LongTermStockExchange
    | FINRAAlternativeDisplayFacility
    | FINRANasdaqTRFChicago
    | MembersExchange
}
