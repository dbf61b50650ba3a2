/** Net-profit accounting (app/accounting/pnl.py, app/accounting/service.py). */
module Accounting {
  import opened Common

  const EIGHT_PLACES: real := 100000000.0
  const HALF_UNIT: real := 0.000000005
  const TAKER_RATE: real := 0.0004

  datatype Quality = EXACT | PARTIAL | ESTIMATED

  datatype Breakdown = Breakdown(
    gross: real, commission: real, funding: real, slippage: real,
    net: real, netRoe: real, totalFees: real, quality: Quality)

  function EstimateCommission(notional: real): real {
    Abs(notional) * TAKER_RATE * 2.0
  }

  function SlippageCost(expected: real, fill: real, qty: real): real {
    if expected <= 0.0 || fill <= 0.0 || qty <= 0.0 then 0.0 else Abs(fill - expected) * qty
  }

  function Cents(x: real): real { Round(x, EIGHT_PLACES) }

  function NetPnl(gross: real, commission: real, funding: real, slippage: real): real {
    gross - Abs(commission) - funding - Abs(slippage)
  }

  function ComputeNetPnl(
    gross: real, commission: real, funding: real, slippage: real, margin: real,
    commissionKnown: bool, fundingKnown: bool, slippageKnown: bool): Breakdown
  {
    var net := NetPnl(gross, commission, funding, slippage);
    var roe := if margin > 0.0 then net / margin * 100.0 else 0.0;
    var quality :=
      if commissionKnown && fundingKnown && slippageKnown then EXACT
      else if !commissionKnown && !fundingKnown && !slippageKnown then ESTIMATED
      else PARTIAL;
    Breakdown(Cents(gross), Cents(Abs(commission)), Cents(funding), Cents(Abs(slippage)),
              Cents(net), Round(roe, 10000.0), Cents(Abs(commission) + Abs(slippage) + Abs(funding)), quality)
  }

  // ---- the tables ----

  /** Profits are kept apart per user and per mode (MOCK or LIVE). */
  datatype Account = Account(user: int, mode: string)

  datatype TradeRow = TradeRow(account: Account, day: int, bd: Breakdown)

  datatype FeeType = COMMISSION | SLIPPAGE

  datatype FeeEvent = FeeEvent(account: Account, feeType: FeeType, amount: real, estimated: bool)

  datatype FundingEvent = FundingEvent(account: Account, amount: real)

  datatype Day = Day(
    account: Account, day: int,
    gross: real, net: real, commission: real, funding: real, slippage: real,
    trades: nat, wins: nat, losses: nat)

  datatype Books = Books(
    trades: seq<TradeRow>, fees: seq<FeeEvent>, funding: seq<FundingEvent>, daily: seq<Day>)

  const EMPTY_BOOKS := Books([], [], [], [])

  /** Arguments of record_trade_accounting; `day` is the date of closed_at. */
  datatype Closing = Closing(
    account: Account, gross: real, quantity: real, entry: real, exit: real, leverage: int,
    commission: Option<real>, funding: Option<real>, slippage: Option<real>,
    expectedExit: Option<real>, day: int)

  function Given(x: Option<real>, fallback: real): real {
    if x.Some? then x.value else fallback
  }

  function BreakdownOf(c: Closing): Breakdown {
    var notional := Abs(c.quantity * c.entry);
    var margin := if c.leverage != 0 then notional / c.leverage as real else notional;
    var slip := if c.expectedExit.Some? && c.expectedExit.value != 0.0
                then SlippageCost(c.expectedExit.value, c.exit, c.quantity) else 0.0;
    ComputeNetPnl(c.gross, Given(c.commission, EstimateCommission(notional)), Given(c.funding, 0.0),
                  Given(c.slippage, slip), margin,
                  c.commission.Some?, c.funding.Some?, c.slippage.Some?)
  }

  // ---- the ledger ----

  /** Position of the row for one account and day, or the length if there is none. */
  function FindDay(daily: seq<Day>, account: Account, day: int): (i: nat)
    ensures i <= |daily|
    ensures i < |daily| ==> daily[i].account == account && daily[i].day == day
    ensures forall j :: 0 <= j < i ==> !(daily[j].account == account && daily[j].day == day)
  {
    if daily == [] || (daily[0].account == account && daily[0].day == day) then 0
    else 1 + FindDay(daily[1..], account, day)
  }

  function Add(d: Day, bd: Breakdown): Day {
    Day(d.account, d.day, d.gross + bd.gross, d.net + bd.net, d.commission + bd.commission,
        d.funding + bd.funding, d.slippage + bd.slippage, d.trades + 1,
        if bd.net >= 0.0 then d.wins + 1 else d.wins,
        if bd.net >= 0.0 then d.losses else d.losses + 1)
  }

  function NewDay(account: Account, day: int): Day {
    Day(account, day, 0.0, 0.0, 0.0, 0.0, 0.0, 0, 0, 0)
  }

  function RollDaily(daily: seq<Day>, t: TradeRow): seq<Day> {
    var i := FindDay(daily, t.account, t.day);
    if i < |daily| then daily[i := Add(daily[i], t.bd)] else daily + [Add(NewDay(t.account, t.day), t.bd)]
  }

  function RowOf(c: Closing): TradeRow { TradeRow(c.account, c.day, BreakdownOf(c)) }

  function CommissionEvent(c: Closing): FeeEvent {
    FeeEvent(c.account, COMMISSION, BreakdownOf(c).commission, c.commission.None?)
  }

  function SlippageEvent(c: Closing): FeeEvent {
    FeeEvent(c.account, SLIPPAGE, BreakdownOf(c).slippage, c.slippage.None?)
  }

  /** The books after one closed trade. */
  function Post(b: Books, c: Closing): Books {
    Books(b.trades + [RowOf(c)],
          b.fees + [CommissionEvent(c)] + (if BreakdownOf(c).slippage != 0.0 then [SlippageEvent(c)] else []),
          b.funding + (if Given(c.funding, 0.0) != 0.0 then [FundingEvent(c.account, Given(c.funding, 0.0))] else []),
          RollDaily(b.daily, RowOf(c)))
  }

  /** The service over its four tables. */
  class Ledger {
    var trades: seq<TradeRow>
    var fees: seq<FeeEvent>
    var funding: seq<FundingEvent>
    var daily: seq<Day>

    ghost function Contents(): Books
      reads this
    {
      Books(trades, fees, funding, daily)
    }

    constructor ()
      ensures Contents() == EMPTY_BOOKS
    {
      trades, fees, funding, daily := [], [], [], [];
    }

    /** record_trade_accounting */
    method RecordTradeAccounting(c: Closing) returns (bd: Breakdown)
      modifies this
      ensures Contents() == Post(old(Contents()), c)
      ensures bd == BreakdownOf(c)
    {
      bd := BreakdownOf(c);
      trades := trades + [TradeRow(c.account, c.day, bd)];
      fees := fees + [FeeEvent(c.account, COMMISSION, bd.commission, c.commission.None?)];
      if bd.slippage != 0.0 {
        fees := fees + [FeeEvent(c.account, SLIPPAGE, bd.slippage, c.slippage.None?)];
      }
      var fundingFee := Given(c.funding, 0.0);
      if fundingFee != 0.0 {
        funding := funding + [FundingEvent(c.account, fundingFee)];
      }
      Roll(c.account, c.day, bd);
    }

    /** _roll_daily: select the row, insert it if absent, then increment its fields. */
    method Roll(account: Account, day: int, bd: Breakdown)
      modifies this`daily
      ensures daily == RollDaily(old(daily), TradeRow(account, day, bd))
    {
      var i := FindDay(daily, account, day);
      if i == |daily| {
        daily := daily + [NewDay(account, day)];
      }
      var row := daily[i];
      row := row.(gross := row.gross + bd.gross);
      row := row.(net := row.net + bd.net);
      row := row.(commission := row.commission + bd.commission);
      row := row.(funding := row.funding + bd.funding);
      row := row.(slippage := row.slippage + bd.slippage);
      row := row.(trades := row.trades + 1);
      if bd.net >= 0.0 {
        row := row.(wins := row.wins + 1);
      } else {
        row := row.(losses := row.losses + 1);
      }
      daily := daily[i := row];
    }
  }

  function PostAll(b: Books, cs: seq<Closing>): Books {
    if cs == [] then b else Post(PostAll(b, cs[..|cs| - 1]), cs[|cs| - 1])
  }

  // ---- the daily aggregate ----

  /** The day recomputed from the trade table. */
  ghost function DayFromTrades(trades: seq<TradeRow>, account: Account, day: int): Day {
    if trades == [] then NewDay(account, day)
    else
      var d, t := DayFromTrades(trades[..|trades| - 1], account, day), trades[|trades| - 1];
      if t.account == account && t.day == day then Add(d, t.bd) else d
  }

  ghost predicate Traded(trades: seq<TradeRow>, account: Account, day: int) {
    exists i :: 0 <= i < |trades| && trades[i].account == account && trades[i].day == day
  }

  /** One row per account and day that traded, no other, and each the fold of its trades. */
  ghost predicate DailyAgrees(trades: seq<TradeRow>, daily: seq<Day>) {
    && (forall i, j :: 0 <= i < j < |daily| ==>
          !(daily[i].account == daily[j].account && daily[i].day == daily[j].day))
    && (forall i :: 0 <= i < |daily| ==> daily[i] == DayFromTrades(trades, daily[i].account, daily[i].day))
    && (forall account, day :: Traded(trades, account, day) <==> FindDay(daily, account, day) < |daily|)
  }

  lemma FoldAppend(trades: seq<TradeRow>, t: TradeRow, account: Account, day: int)
    ensures DayFromTrades(trades + [t], account, day)
            == if t.account == account && t.day == day then Add(DayFromTrades(trades, account, day), t.bd)
               else DayFromTrades(trades, account, day)
    ensures Traded(trades + [t], account, day)
            <==> Traded(trades, account, day) || (t.account == account && t.day == day)
  {
  }

  lemma {:induction false} UntradedIsBlank(trades: seq<TradeRow>, account: Account, day: int)
    requires !Traded(trades, account, day)
    ensures DayFromTrades(trades, account, day) == NewDay(account, day)
  {
    if trades != [] {
      var init := trades[..|trades| - 1];
      assert forall i :: 0 <= i < |init| ==> init[i] == trades[i];
      UntradedIsBlank(init, account, day);
    }
  }

  lemma RollFinds(daily: seq<Day>, t: TradeRow, account: Account, day: int)
    ensures FindDay(RollDaily(daily, t), account, day) < |RollDaily(daily, t)|
            <==> FindDay(daily, account, day) < |daily| || (t.account == account && t.day == day)
  {
    var rolled := RollDaily(daily, t);
    var i, k := FindDay(daily, t.account, t.day), FindDay(daily, account, day);
    if t.account == account && t.day == day {
      assert rolled[i].account == account && rolled[i].day == day;
    } else if k < |daily| {
      assert rolled[k].account == account && rolled[k].day == day;
    }
  }

  lemma RollAgrees(trades: seq<TradeRow>, daily: seq<Day>, t: TradeRow)
    requires DailyAgrees(trades, daily)
    ensures DailyAgrees(trades + [t], RollDaily(daily, t))
  {
    var rolled := RollDaily(daily, t);
    var i := FindDay(daily, t.account, t.day);
    if i == |daily| {
      UntradedIsBlank(trades, t.account, t.day);
    }
    forall j | 0 <= j < |rolled|
      ensures rolled[j] == DayFromTrades(trades + [t], rolled[j].account, rolled[j].day)
    {
      FoldAppend(trades, t, rolled[j].account, rolled[j].day);
    }
    forall account, day
      ensures Traded(trades + [t], account, day) <==> FindDay(rolled, account, day) < |rolled|
    {
      FoldAppend(trades, t, account, day);
      RollFinds(daily, t, account, day);
    }
  }

  /** The daily rows of one account, in table order. */
  ghost function DaysOf(daily: seq<Day>, account: Account): seq<Day> {
    if daily == [] then []
    else
      var rest, last := DaysOf(daily[..|daily| - 1], account), daily[|daily| - 1];
      if last.account == account then rest + [last] else rest
  }

  lemma {:induction false} DaysOfMembers(daily: seq<Day>, account: Account)
    ensures forall d :: d in DaysOf(daily, account) <==> d in daily && d.account == account
  {
    if daily != [] {
      DaysOfMembers(daily[..|daily| - 1], account);
      assert daily == daily[..|daily| - 1] + [daily[|daily| - 1]];
    }
  }

  lemma {:induction false} UpdateElsewhere(daily: seq<Day>, i: nat, d: Day, account: Account)
    requires i < |daily| && daily[i].account == d.account != account
    ensures DaysOf(daily[i := d], account) == DaysOf(daily, account)
  {
    var init := daily[..|daily| - 1];
    if i == |daily| - 1 {
      assert daily[i := d][..|daily| - 1] == init;
    } else {
      UpdateElsewhere(init, i, d, account);
      assert daily[i := d][..|daily| - 1] == init[i := d];
    }
  }

  lemma RollElsewhere(daily: seq<Day>, t: TradeRow, account: Account)
    requires t.account != account
    ensures DaysOf(RollDaily(daily, t), account) == DaysOf(daily, account)
  {
    var i := FindDay(daily, t.account, t.day);
    if i < |daily| {
      UpdateElsewhere(daily, i, Add(daily[i], t.bd), account);
    } else {
      assert RollDaily(daily, t)[..|daily|] == daily;
    }
  }

  /** Recording any number of trades of other accounts, in particular of the same user's
      other mode, leaves an account's daily rows exactly as they were. */
  lemma {:induction false} OtherAccountsUntouched(b: Books, cs: seq<Closing>, account: Account)
    requires forall i :: 0 <= i < |cs| ==> cs[i].account != account
    ensures DaysOf(PostAll(b, cs).daily, account) == DaysOf(b.daily, account)
    ensures forall d: Day :: d.account == account ==> (d in PostAll(b, cs).daily <==> d in b.daily)
  {
    if cs != [] {
      var init := cs[..|cs| - 1];
      assert forall i :: 0 <= i < |init| ==> init[i] == cs[i];
      OtherAccountsUntouched(b, init, account);
      RollElsewhere(PostAll(b, init).daily, RowOf(cs[|cs| - 1]), account);
    }
    DaysOfMembers(PostAll(b, cs).daily, account);
    DaysOfMembers(b.daily, account);
  }

  // ---- fee and funding events ----

  ghost function FeesPaid(fees: seq<FeeEvent>, account: Account, kind: FeeType): real {
    if fees == [] then 0.0
    else
      var e := fees[|fees| - 1];
      FeesPaid(fees[..|fees| - 1], account, kind)
      + if e.account == account && e.feeType == kind then e.amount else 0.0
  }

  ghost function Cost(bd: Breakdown, kind: FeeType): real {
    if kind == COMMISSION then bd.commission else bd.slippage
  }

  ghost function CostsBooked(trades: seq<TradeRow>, account: Account, kind: FeeType): real {
    if trades == [] then 0.0
    else
      var t := trades[|trades| - 1];
      CostsBooked(trades[..|trades| - 1], account, kind) + if t.account == account then Cost(t.bd, kind) else 0.0
  }

  lemma FeesAppend(fees: seq<FeeEvent>, e: FeeEvent, account: Account, kind: FeeType)
    ensures FeesPaid(fees + [e], account, kind)
            == FeesPaid(fees, account, kind) + if e.account == account && e.feeType == kind then e.amount else 0.0
  {
  }

  lemma CostsAppend(trades: seq<TradeRow>, t: TradeRow, account: Account, kind: FeeType)
    ensures CostsBooked(trades + [t], account, kind)
            == CostsBooked(trades, account, kind) + if t.account == account then Cost(t.bd, kind) else 0.0
  {
  }

  lemma PostKeepsFees(b: Books, c: Closing, account: Account, kind: FeeType)
    requires FeesPaid(b.fees, account, kind) == CostsBooked(b.trades, account, kind)
    ensures FeesPaid(Post(b, c).fees, account, kind) == CostsBooked(Post(b, c).trades, account, kind)
  {
    CostsAppend(b.trades, RowOf(c), account, kind);
    FeesAppend(b.fees, CommissionEvent(c), account, kind);
    if BreakdownOf(c).slippage != 0.0 {
      FeesAppend(b.fees + [CommissionEvent(c)], SlippageEvent(c), account, kind);
    } else {
      assert b.fees + [CommissionEvent(c)] + [] == b.fees + [CommissionEvent(c)];
    }
  }

  // ---- rounding ----

  ghost predicate NetWithin(d: Day) {
    Abs(d.net - (d.gross - d.commission - d.funding - d.slippage)) <= d.trades as real * 0.000000025
  }

  lemma CentsWithin(x: real)
    ensures Abs(Cents(x) - x) <= HALF_UNIT
  {
    RoundWithin(x, EIGHT_PLACES);
  }

  /** Five figures are rounded, so one trade's identity is off by at most five half-units. */
  lemma BreakdownWithin(
    gross: real, commission: real, funding: real, slippage: real, margin: real, k1: bool, k2: bool, k3: bool)
    ensures var bd := ComputeNetPnl(gross, commission, funding, slippage, margin, k1, k2, k3);
            Abs(bd.net - (bd.gross - bd.commission - bd.funding - bd.slippage)) <= 5.0 * HALF_UNIT
  {
  }

  lemma FourRoundings(a: real, b: real, f: real, a': real, b': real, f': real, t': real)
    requires Abs(a' - a) <= HALF_UNIT && Abs(b' - b) <= HALF_UNIT && Abs(f' - f) <= HALF_UNIT
    requires Abs(t' - (a + b + Abs(f))) <= HALF_UNIT
    ensures Abs(t' - (a' + b' + Abs(f'))) <= 4.0 * HALF_UNIT
  {
  }

  lemma TotalWithin(a: real, b: real, f: real)
    ensures Abs(Cents(a + b + Abs(f)) - (Cents(a) + Cents(b) + Abs(Cents(f)))) <= 4.0 * HALF_UNIT
  {
    CentsWithin(a);
    CentsWithin(b);
    CentsWithin(f);
    CentsWithin(a + b + Abs(f));
    FourRoundings(a, b, f, Cents(a), Cents(b), Cents(f), Cents(a + b + Abs(f)));
  }

  lemma CentsOfNonNegative(x: real)
    requires x >= 0.0
    ensures Cents(x) >= 0.0
  {
  }

  /** Costs are never negative, and the fee total is the rounded costs' sum to within four
      half-units. */
  lemma CostsAreCosts(
    gross: real, commission: real, funding: real, slippage: real, margin: real, k1: bool, k2: bool, k3: bool)
    ensures var bd := ComputeNetPnl(gross, commission, funding, slippage, margin, k1, k2, k3);
            && bd.commission >= 0.0 && bd.slippage >= 0.0 && bd.totalFees >= 0.0
            && Abs(bd.totalFees - (bd.commission + bd.slippage + Abs(bd.funding))) <= 4.0 * HALF_UNIT
  {
    CentsOfNonNegative(Abs(commission));
    CentsOfNonNegative(Abs(slippage));
    CentsOfNonNegative(Abs(commission) + Abs(slippage) + Abs(funding));
    TotalWithin(Abs(commission), Abs(slippage), funding);
  }

  lemma ClosingWithin(c: Closing)
    ensures var bd := BreakdownOf(c);
            Abs(bd.net - (bd.gross - bd.commission - bd.funding - bd.slippage)) <= 5.0 * HALF_UNIT
  {
  }

  lemma AddWithin(d: Day, bd: Breakdown)
    requires NetWithin(d)
    requires Abs(bd.net - (bd.gross - bd.commission - bd.funding - bd.slippage)) <= 5.0 * HALF_UNIT
    ensures NetWithin(Add(d, bd))
  {
  }

  ghost predicate Tallied(d: Day) { d.trades == d.wins + d.losses }

  lemma PostKeepsDays(b: Books, c: Closing)
    requires forall i :: 0 <= i < |b.daily| ==> NetWithin(b.daily[i]) && Tallied(b.daily[i])
    ensures var daily := Post(b, c).daily;
            forall i :: 0 <= i < |daily| ==> NetWithin(daily[i]) && Tallied(daily[i])
  {
    ClosingWithin(c);
    var i := FindDay(b.daily, c.account, c.day);
    AddWithin(if i < |b.daily| then b.daily[i] else NewDay(c.account, c.day), BreakdownOf(c));
  }

  ghost function FundingPaid(events: seq<FundingEvent>, account: Account): real {
    if events == [] then 0.0
    else
      var e := events[|events| - 1];
      FundingPaid(events[..|events| - 1], account) + if e.account == account then e.amount else 0.0
  }

  ghost function FundingBooked(trades: seq<TradeRow>, account: Account): real {
    if trades == [] then 0.0
    else
      var t := trades[|trades| - 1];
      FundingBooked(trades[..|trades| - 1], account) + if t.account == account then t.bd.funding else 0.0
  }

  ghost function TradesOf(trades: seq<TradeRow>, account: Account): nat {
    if trades == [] then 0
    else TradesOf(trades[..|trades| - 1], account) + if trades[|trades| - 1].account == account then 1 else 0
  }

  ghost predicate Within(paid: real, booked: real, trades: nat) {
    Abs(paid - booked) <= trades as real * 0.000000005
  }

  /** Funding events keep the raw amount while the account's trade rows round it. */
  ghost predicate FundingWithin(b: Books, account: Account) {
    Within(FundingPaid(b.funding, account), FundingBooked(b.trades, account), TradesOf(b.trades, account))
  }

  lemma FundingPaidAfter(b: Books, c: Closing, account: Account)
    ensures FundingPaid(Post(b, c).funding, account)
            == FundingPaid(b.funding, account) + if c.account == account then Given(c.funding, 0.0) else 0.0
  {
    var raw := Given(c.funding, 0.0);
    if raw != 0.0 {
      assert (b.funding + [FundingEvent(c.account, raw)])[..|b.funding|] == b.funding;
    } else {
      assert b.funding + [] == b.funding;
    }
  }

  lemma FundingBookedAfter(b: Books, c: Closing, account: Account)
    ensures FundingBooked(Post(b, c).trades, account)
            == FundingBooked(b.trades, account) + if c.account == account then Cents(Given(c.funding, 0.0)) else 0.0
  {
  }

  lemma OneMoreRounding(p: real, q: real, raw: real, rounded: real, n: nat)
    requires Within(p, q, n) && Abs(rounded - raw) <= HALF_UNIT
    ensures Within(p + raw, q + rounded, n + 1)
  {
  }

  lemma TradesAfter(b: Books, c: Closing, account: Account)
    ensures TradesOf(Post(b, c).trades, account)
            == TradesOf(b.trades, account) + if c.account == account then 1 else 0
  {
    assert (b.trades + [RowOf(c)])[..|b.trades|] == b.trades;
  }

  lemma PostKeepsFunding(b: Books, c: Closing, account: Account)
    requires FundingWithin(b, account)
    ensures FundingWithin(Post(b, c), account)
  {
    var raw := Given(c.funding, 0.0);
    FundingPaidAfter(b, c, account);
    FundingBookedAfter(b, c, account);
    TradesAfter(b, c, account);
    if c.account == account {
      CentsWithin(raw);
      OneMoreRounding(FundingPaid(b.funding, account), FundingBooked(b.trades, account), raw, Cents(raw),
                      TradesOf(b.trades, account));
    }
  }

  // ---- what a trade row and a daily row say ----

  /** A breakdown of these figures, every amount rounded to eight places, net profit in percent of a
      positive margin to four. */
  ghost predicate IsNetted(
    bd: Breakdown, gross: real, commission: real, funding: real, slippage: real, margin: real,
    allGiven: bool, noneGiven: bool)
  {
    var net := gross - commission - funding - slippage;
    && IsRounded(bd.gross, gross, 100000000.0)
    && IsRounded(bd.commission, commission, 100000000.0)
    && IsRounded(bd.funding, funding, 100000000.0)
    && IsRounded(bd.slippage, slippage, 100000000.0)
    && IsRounded(bd.net, net, 100000000.0)
    && IsRounded(bd.totalFees, commission + slippage + Abs(funding), 100000000.0)
    && IsRounded(bd.netRoe, if margin > 0.0 then net / margin * 100.0 else 0.0, 10000.0)
    && (bd.quality == EXACT <==> allGiven) && (bd.quality == ESTIMATED <==> noneGiven)
  }

  lemma AmountsRounded(
    gross: real, commission: real, funding: real, slippage: real, margin: real, k1: bool, k2: bool, k3: bool)
    requires commission >= 0.0 && slippage >= 0.0
    ensures var bd := ComputeNetPnl(gross, commission, funding, slippage, margin, k1, k2, k3);
            && IsRounded(bd.gross, gross, 100000000.0)
            && IsRounded(bd.commission, commission, 100000000.0)
            && IsRounded(bd.funding, funding, 100000000.0)
            && IsRounded(bd.slippage, slippage, 100000000.0)
            && IsRounded(bd.totalFees, commission + slippage + Abs(funding), 100000000.0)
  {
    RoundIs(gross, 100000000.0);
    RoundIs(commission, 100000000.0);
    RoundIs(funding, 100000000.0);
    RoundIs(slippage, 100000000.0);
    RoundIs(commission + slippage + Abs(funding), 100000000.0);
  }

  lemma NetRounded(
    gross: real, commission: real, funding: real, slippage: real, margin: real, k1: bool, k2: bool, k3: bool)
    requires commission >= 0.0 && slippage >= 0.0
    ensures var bd := ComputeNetPnl(gross, commission, funding, slippage, margin, k1, k2, k3);
            var net := gross - commission - funding - slippage;
            && IsRounded(bd.net, net, 100000000.0)
            && IsRounded(bd.netRoe, if margin > 0.0 then net / margin * 100.0 else 0.0, 10000.0)
  {
    var net := gross - commission - funding - slippage;
    assert NetPnl(gross, commission, funding, slippage) == net;
    RoundIs(net, 100000000.0);
    RoundIs(if margin > 0.0 then net / margin * 100.0 else 0.0, 10000.0);
  }

  lemma NetPnlIsNetted(
    gross: real, commission: real, funding: real, slippage: real, margin: real, k1: bool, k2: bool, k3: bool)
    requires commission >= 0.0 && slippage >= 0.0
    ensures IsNetted(ComputeNetPnl(gross, commission, funding, slippage, margin, k1, k2, k3),
                     gross, commission, funding, slippage, margin, k1 && k2 && k3, !k1 && !k2 && !k3)
  {
    AmountsRounded(gross, commission, funding, slippage, margin, k1, k2, k3);
    NetRounded(gross, commission, funding, slippage, margin, k1, k2, k3);
  }

  /** Only the size of a commission or a slippage matters. */
  lemma SignsDoNotMatter(
    gross: real, commission: real, funding: real, slippage: real, margin: real, k1: bool, k2: bool, k3: bool)
    ensures ComputeNetPnl(gross, commission, funding, slippage, margin, k1, k2, k3)
            == ComputeNetPnl(gross, Abs(commission), funding, Abs(slippage), margin, k1, k2, k3)
  {
  }

  ghost function Notional(c: Closing): real { Abs(c.quantity * c.entry) }

  /** The commission as given, or 4 basis points of the notional for each of two legs. */
  ghost function CommissionOf(c: Closing): real {
    if c.commission.Some? then Abs(c.commission.value) else Notional(c) * 0.0008
  }

  /** The slippage as given, or the distance of the fill from a positive expected price times the
      quantity. */
  ghost function SlippageOf(c: Closing): real {
    if c.slippage.Some? then Abs(c.slippage.value)
    else if c.expectedExit.Some? && c.expectedExit.value > 0.0 && c.exit > 0.0 && c.quantity > 0.0 then
      Abs(c.exit - c.expectedExit.value) * c.quantity
    else 0.0
  }

  ghost function MarginOf(c: Closing): real {
    if c.leverage == 0 then Notional(c) else Notional(c) / c.leverage as real
  }

  /** The figures of a trade row, from the arguments of the closing alone. */
  ghost predicate Itemised(c: Closing, bd: Breakdown) {
    IsNetted(bd, c.gross, CommissionOf(c), if c.funding.Some? then c.funding.value else 0.0, SlippageOf(c),
             MarginOf(c), c.commission.Some? && c.funding.Some? && c.slippage.Some?,
             c.commission.None? && c.funding.None? && c.slippage.None?)
  }

  lemma NonNegativeProduct(x: real, q: real)
    requires x >= 0.0 && q >= 0.0
    ensures Abs(x * q) == x * q
  {
  }

  ghost function RawSlippage(c: Closing): real {
    Given(c.slippage,
          if c.expectedExit.Some? && c.expectedExit.value != 0.0
          then SlippageCost(c.expectedExit.value, c.exit, c.quantity) else 0.0)
  }

  lemma CostsCharged(c: Closing)
    ensures Abs(Given(c.commission, EstimateCommission(Notional(c)))) == CommissionOf(c) >= 0.0
    ensures Abs(RawSlippage(c)) == SlippageOf(c) >= 0.0
  {
    NonNegativeProduct(Notional(c), 0.0008);
    if c.expectedExit.Some? && c.quantity > 0.0 {
      NonNegativeProduct(Abs(c.exit - c.expectedExit.value), c.quantity);
    }
  }

  lemma BreakdownIs(c: Closing, commission: real, margin: real)
    requires commission == Given(c.commission, EstimateCommission(Notional(c))) && margin == MarginOf(c)
    ensures BreakdownOf(c)
            == ComputeNetPnl(c.gross, commission, Given(c.funding, 0.0), RawSlippage(c), margin,
                             c.commission.Some?, c.funding.Some?, c.slippage.Some?)
  {
  }

  lemma ClosingItemised(c: Closing)
    ensures Itemised(c, BreakdownOf(c))
  {
    var k1, k2, k3 := c.commission.Some?, c.funding.Some?, c.slippage.Some?;
    var commission, slippage := Given(c.commission, EstimateCommission(Notional(c))), RawSlippage(c);
    CostsCharged(c);
    BreakdownIs(c, commission, MarginOf(c));
    SignsDoNotMatter(c.gross, commission, Given(c.funding, 0.0), slippage, MarginOf(c), k1, k2, k3);
    NetPnlIsNetted(c.gross, CommissionOf(c), Given(c.funding, 0.0), SlippageOf(c), MarginOf(c), k1, k2, k3);
  }

  /** Sum of a column over the rows of one account and day. */
  ghost function ColumnSum(trades: seq<TradeRow>, account: Account, day: int, column: Breakdown -> real): real {
    if trades == [] then 0.0
    else
      var t := trades[|trades| - 1];
      ColumnSum(trades[..|trades| - 1], account, day, column)
      + if t.account == account && t.day == day then column(t.bd) else 0.0
  }

  /** Number of rows of one account and day with this property. */
  ghost function CountRows(trades: seq<TradeRow>, account: Account, day: int, p: Breakdown -> bool): nat {
    if trades == [] then 0
    else
      var t := trades[|trades| - 1];
      CountRows(trades[..|trades| - 1], account, day, p)
      + if t.account == account && t.day == day && p(t.bd) then 1 else 0
  }

  /** A daily row told from the trade table: sums of its columns, and counts of its rows with a net
      profit of at least zero and below. */
  ghost predicate Summarises(d: Day, trades: seq<TradeRow>) {
    && d.gross == ColumnSum(trades, d.account, d.day, (bd: Breakdown) => bd.gross)
    && d.net == ColumnSum(trades, d.account, d.day, (bd: Breakdown) => bd.net)
    && d.commission == ColumnSum(trades, d.account, d.day, (bd: Breakdown) => bd.commission)
    && d.funding == ColumnSum(trades, d.account, d.day, (bd: Breakdown) => bd.funding)
    && d.slippage == ColumnSum(trades, d.account, d.day, (bd: Breakdown) => bd.slippage)
    && d.trades == CountRows(trades, d.account, d.day, (bd: Breakdown) => true)
    && d.wins == CountRows(trades, d.account, d.day, (bd: Breakdown) => bd.net >= 0.0)
    && d.losses == CountRows(trades, d.account, d.day, (bd: Breakdown) => bd.net < 0.0)
  }

  lemma {:induction false} DayKey(trades: seq<TradeRow>, account: Account, day: int)
    ensures DayFromTrades(trades, account, day).account == account
    ensures DayFromTrades(trades, account, day).day == day
  {
    if trades != [] {
      DayKey(trades[..|trades| - 1], account, day);
    }
  }

  lemma {:induction false} DaySummarises(trades: seq<TradeRow>, account: Account, day: int)
    ensures Summarises(DayFromTrades(trades, account, day), trades)
  {
    DayKey(trades, account, day);
    if trades != [] {
      DaySummarises(trades[..|trades| - 1], account, day);
      DayKey(trades[..|trades| - 1], account, day);
    }
  }

  /** The trade table lists the closings in order, each itemised. */
  ghost predicate Lists(trades: seq<TradeRow>, cs: seq<Closing>) {
    && |trades| == |cs|
    && forall i :: 0 <= i < |cs| ==>
         trades[i].account == cs[i].account && trades[i].day == cs[i].day && Itemised(cs[i], trades[i].bd)
  }

  /** What one closing adds to the event tables: its commission, its slippage unless that is zero,
      and its raw funding fee unless that is zero, each marked as estimated where it was not given. */
  lemma PostAddsEvents(b: Books, c: Closing)
    ensures var after := Post(b, c);
            var bd := after.trades[|b.trades|].bd;
            var commission := FeeEvent(c.account, COMMISSION, bd.commission, c.commission == None);
            var slippage := FeeEvent(c.account, SLIPPAGE, bd.slippage, c.slippage == None);
            && after.trades[..|b.trades|] == b.trades && |after.trades| == |b.trades| + 1
            && after.fees == b.fees + (if bd.slippage == 0.0 then [commission] else [commission, slippage])
            && after.funding == b.funding
                 + if c.funding.Some? && c.funding.value != 0.0 then [FundingEvent(c.account, c.funding.value)] else []
  {
  }

  // ---- every run balances ----

  ghost predicate Balanced(b: Books) {
    && DailyAgrees(b.trades, b.daily)
    && (forall i :: 0 <= i < |b.daily| ==> NetWithin(b.daily[i]) && Tallied(b.daily[i]))
    && (forall account, kind :: FeesPaid(b.fees, account, kind) == CostsBooked(b.trades, account, kind))
    && (forall account :: FundingWithin(b, account))
  }

  lemma PostKeepsBalance(b: Books, c: Closing)
    requires Balanced(b)
    ensures Balanced(Post(b, c))
  {
    RollAgrees(b.trades, b.daily, RowOf(c));
    PostKeepsDays(b, c);
    forall account, kind
      ensures FeesPaid(Post(b, c).fees, account, kind) == CostsBooked(Post(b, c).trades, account, kind)
    {
      PostKeepsFees(b, c, account, kind);
    }
    forall account
      ensures FundingWithin(Post(b, c), account)
    {
      PostKeepsFunding(b, c, account);
    }
  }

  lemma ListsOneMore(trades: seq<TradeRow>, cs: seq<Closing>, t: TradeRow, c: Closing)
    requires t.account == c.account && t.day == c.day
    ensures Lists(trades, cs) && Itemised(c, t.bd) ==> Lists(trades + [t], cs + [c])
  {
  }

  lemma {:induction false} TableLists(cs: seq<Closing>)
    ensures Lists(PostAll(EMPTY_BOOKS, cs).trades, cs)
  {
    if cs != [] {
      var init, c := cs[..|cs| - 1], cs[|cs| - 1];
      TableLists(init);
      ClosingItemised(c);
      ListsOneMore(PostAll(EMPTY_BOOKS, init).trades, init, RowOf(c), c);
      assert cs == init + [c];
    }
  }

  /** After any sequence of recorded trades: each user, mode and day that traded has exactly
      one daily row and it equals the fold of its trades; its trade count is wins plus losses;
      its net differs from gross minus costs by at most 2.5e-8 per trade; and per account the
      fee events add up to the costs in the trade table, the raw funding events to the booked
      funding within 5e-9 per trade. */
  lemma {:induction false} BooksAlwaysBalance(cs: seq<Closing>)
    ensures Balanced(PostAll(EMPTY_BOOKS, cs)) && Lists(PostAll(EMPTY_BOOKS, cs).trades, cs)
    ensures var b := PostAll(EMPTY_BOOKS, cs);
            forall i :: 0 <= i < |b.daily| ==> Summarises(b.daily[i], b.trades)
  {
    if cs != [] {
      BooksAlwaysBalance(cs[..|cs| - 1]);
      PostKeepsBalance(PostAll(EMPTY_BOOKS, cs[..|cs| - 1]), cs[|cs| - 1]);
    }
    TableLists(cs);
    var b := PostAll(EMPTY_BOOKS, cs);
    forall i | 0 <= i < |b.daily|
      ensures Summarises(b.daily[i], b.trades)
    {
      DaySummarises(b.trades, b.daily[i].account, b.daily[i].day);
    }
  }

  /** One more trade on one day's figures. */
  function Credit(d: Day, t: TradeRow): Day {
    if t.account == d.account && t.day == d.day then Add(d, t.bd) else d
  }

  lemma DayAppend(trades: seq<TradeRow>, t: TradeRow, account: Account, day: int)
    ensures DayFromTrades(trades + [t], account, day) == Credit(DayFromTrades(trades, account, day), t)
  {
    DayKey(trades, account, day);
    FoldAppend(trades, t, account, day);
  }

  lemma CreditsCommute(d: Day, s: TradeRow, t: TradeRow)
    ensures Credit(Credit(d, s), t) == Credit(Credit(d, t), s)
  {
  }

  lemma {:induction false} TakeOut(trades: seq<TradeRow>, j: nat, account: Account, day: int)
    requires j < |trades|
    ensures DayFromTrades(trades, account, day)
            == Credit(DayFromTrades(trades[..j] + trades[j + 1..], account, day), trades[j])
  {
    var n := |trades| - 1;
    var init, last := trades[..n], trades[n];
    var rest := trades[..j] + trades[j + 1..];
    assert trades == init + [last];
    DayAppend(init, last, account, day);
    if j == n {
      assert rest == init;
    } else {
      var less := init[..j] + init[j + 1..];
      TakeOut(init, j, account, day);
      assert rest == less + [last];
      DayAppend(less, last, account, day);
      CreditsCommute(DayFromTrades(less, account, day), trades[j], last);
    }
  }

  /** The order in which trades are recorded does not matter to any day's figures: trade tables
      with the same rows in any order give the same daily row. */
  lemma {:induction false} DailyOrderIrrelevant(
    trades: seq<TradeRow>, reordered: seq<TradeRow>, account: Account, day: int)
    requires multiset(trades) == multiset(reordered)
    ensures DayFromTrades(trades, account, day) == DayFromTrades(reordered, account, day)
  {
    assert |multiset(trades)| == |trades| && |multiset(reordered)| == |reordered|;
    if trades != [] {
      var n := |trades| - 1;
      var init, t := trades[..n], trades[n];
      assert trades == init + [t];
      assert t in multiset(reordered);
      var j :| 0 <= j < |reordered| && reordered[j] == t;
      var rest := reordered[..j] + reordered[j + 1..];
      assert reordered == reordered[..j] + [t] + reordered[j + 1..];
      assert multiset(rest) == multiset(reordered) - multiset{t} == multiset(init);
      DailyOrderIrrelevant(init, rest, account, day);
      TakeOut(reordered, j, account, day);
      DayAppend(init, t, account, day);
    }
  }
}
