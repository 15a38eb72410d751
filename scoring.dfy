/**
 * The rule-based score of `calculate_prediction_score`: a neutral 50, six
 * technical rules over the last row of the indicator frame, three
 * fundamental rules over the company `info` dictionary, a clamp to [0, 100]
 * and the first five reasons joined by " | ".
 */
module Scoring {
  import opened Wrappers
  import opened Indicators
  import opened Text

  /** A value of the `info` dictionary, by how the rules treat it. */
  datatype Value = Number(x: real) | NaN | Str(s: string) | Null

  type Info = map<string, Value>

  const ForwardPe := "forwardPE"
  const ProfitMargins := "profitMargins"
  const ReturnOnEquity := "returnOnEquity"

  /** The last row of the frame, as the rules read it (`None` stands for NaN). */
  datatype Row = Row(
    close: real, volume: real, sma50: Option<real>, sma200: Option<real>,
    rsi: Option<real>, macd: real, signal: real, volumeSma: Option<real>)

  function LastRow(f: Frame): (row: Row)
    requires f.Aligned() && |f.closes| > 0
    ensures row.close == f.closes[|f.closes| - 1] as real
  {
    var i := |f.closes| - 1;
    Row(f.closes[i], f.volumes[i], f.sma50[i], f.sma200[i], f.rsi[i], f.macd[i], f.signal[i], f.volumeSma[i])
  }

  /** A fired rule, with the number its reason text shows. */
  datatype Reason =
    | AboveSma50 | AboveSma200 | GoldenCross
    | HealthyRsi(rsi: real) | Oversold | Overbought
    | BullishMacd | AboveAverageVolume
    | ReasonablePe(pe: real) | LowPe(pe: real)
    | StrongMargins(margin: real) | HighRoe(roe: real)
  {
    /** What the rule adds to the score. */
    function Points(): int
    {
      match this
      case Oversold => 3
      case Overbought => -3
      case ReasonablePe(_) => 10
      case _ => 5
    }

    predicate IsRsiRule()
    {
      HealthyRsi? || Oversold? || Overbought?
    }

    predicate IsPeRule()
    {
      ReasonablePe? || LowPe?
    }

    predicate IsTechnical()
    {
      !(ReasonablePe? || LowPe? || StrongMargins? || HighRoe?)
    }
  }

  /** `a > b` where NaN on either side makes the comparison false. */
  predicate Greater(a: Option<real>, b: Option<real>)
  {
    a.Some? && b.Some? && a.value > b.value
  }

  function When(c: bool, r: Reason): seq<Reason>
  {
    if c then [r] else []
  }

  /** The `if`/`elif`/`elif` on RSI. */
  function RsiRules(rsi: Option<real>): seq<Reason>
  {
    match rsi
    case None => []
    case Some(x) =>
      if 30.0 <= x <= 70.0 then [HealthyRsi(x)]
      else if x < 30.0 then [Oversold]
      else [Overbought]
  }

  /** Trend following: the close against both averages, and the golden cross. */
  function TrendRules(row: Row): seq<Reason>
  {
    When(Greater(Some(row.close), row.sma50), AboveSma50) +
    When(Greater(Some(row.close), row.sma200), AboveSma200) +
    When(Greater(row.sma50, row.sma200), GoldenCross)
  }

  /** Momentum, then the MACD crossover, then volume. */
  function SignalRules(row: Row): seq<Reason>
  {
    RsiRules(row.rsi) +
    When(row.macd > row.signal, BullishMacd) +
    When(Greater(Some(row.volume), row.volumeSma), AboveAverageVolume)
  }

  /** The technical rules in the order the scorer tries them. */
  function TechnicalRules(row: Row): seq<Reason>
  {
    TrendRules(row) + SignalRules(row)
  }

  /** How a fundamental field takes part in a numeric comparison. */
  datatype Field = Skipped | Compared(x: real) | Raises

  /**
   * An absent or `None` field is skipped; NaN compares false with every
   * threshold, so it fires nothing either; a text value makes the comparison
   * raise a `TypeError`.
   */
  function Lookup(info: Info, key: string): (f: Field)
    ensures f.Compared? <==> key in info && info[key].Number?
    ensures f.Raises? <==> key in info && info[key].Str?
  {
    if key !in info then Skipped
    else match info[key]
      case Number(x) => Compared(x)
      case Str(_) => Raises
      case _ => Skipped
  }

  /** One fundamental rule group: the reasons it adds, or an exception. */
  datatype Step = Fired(reasons: seq<Reason>) | Raised

  function PeStep(info: Info): Step
  {
    match Lookup(info, ForwardPe)
    case Skipped => Fired([])
    case Raises => Raised
    case Compared(pe) =>
      Fired(if 10.0 <= pe <= 25.0 then [ReasonablePe(pe)] else if pe < 10.0 then [LowPe(pe)] else [])
  }

  function MarginStep(info: Info): Step
  {
    match Lookup(info, ProfitMargins)
    case Skipped => Fired([])
    case Raises => Raised
    case Compared(m) => Fired(When(m > 0.15, StrongMargins(m)))
  }

  function RoeStep(info: Info): Step
  {
    match Lookup(info, ReturnOnEquity)
    case Skipped => Fired([])
    case Raises => Raised
    case Compared(r) => Fired(When(r > 0.15, HighRoe(r)))
  }

  /**
   * The three groups of the `try` block in order; an exception keeps what the
   * groups before it added and skips the groups after it.
   */
  function FundamentalRules(info: Info): seq<Reason>
  {
    match PeStep(info)
    case Raised => []
    case Fired(pe) =>
      pe + match MarginStep(info)
        case Raised => []
        case Fired(m) =>
          m + match RoeStep(info)
            case Raised => []
            case Fired(r) => r
  }

  /** Every rule that fires, in evaluation order. */
  function FiredRules(row: Row, info: Info): seq<Reason>
  {
    TechnicalRules(row) + FundamentalRules(info)
  }

  /** The points the reasons add up to. */
  function Total(rs: seq<Reason>): int
  {
    if rs == [] then 0 else Total(rs[..|rs| - 1]) + rs[|rs| - 1].Points()
  }

  /** The two rule groups written as `if`/`elif` chains. */
  datatype Group = RsiGroup | PeGroup

  predicate InGroup(r: Reason, g: Group)
  {
    match g
    case RsiGroup => r.IsRsiRule()
    case PeGroup => r.IsPeRule()
  }

  /** How many of the reasons belong to group `g`. */
  function Count(rs: seq<Reason>, g: Group): nat
  {
    if rs == [] then 0 else Count(rs[..|rs| - 1], g) + (if InGroup(rs[|rs| - 1], g) then 1 else 0)
  }

  /** `min(max(score, 0), 100)`. */
  function Clamp(score: int): (c: int)
    ensures 0 <= c <= 100
    ensures 0 <= score <= 100 ==> c == score
  {
    Min(Max(score, 0), 100)
  }

  const MaxReasons: nat := 5

  /** The reasons half of the result: the insufficient-data message, or the listed reasons. */
  datatype Reasons = InsufficientData | Listed(list: seq<Reason>)

  datatype ScoreResult = ScoreResult(score: int, reasons: Reasons)

  /** What `calculate_prediction_score` returns. */
  function PredictionScore(df: Option<Frame>, info: Info): (r: ScoreResult)
    requires df.Some? ==> df.value.Aligned()
    ensures r.reasons.InsufficientData? <==> df.None? || |df.value.closes| < MinRows
    ensures r.reasons.InsufficientData? ==> r.score == 0
    ensures r.reasons.Listed? ==> |r.reasons.list| <= MaxReasons
  {
    if df.None? || |df.value.closes| < MinRows then ScoreResult(0, InsufficientData)
    else
      var rs := FiredRules(LastRow(df.value), info);
      ScoreResult(Clamp(50 + Total(rs)), Listed(rs[..Min(MaxReasons, |rs|)]))
  }

  /** The text of one reason; `fmt` is the `:.1f` rendering of a number. */
  function ReasonText(r: Reason, fmt: real -> string): (t: string)
    ensures |t| > 0
  {
    match r
    case AboveSma50 => "Price above 50-day MA"
    case AboveSma200 => "Price above 200-day MA"
    case GoldenCross => "Golden cross formation"
    case HealthyRsi(x) => "Healthy RSI (" + fmt(x) + ")"
    case Oversold => "Oversold condition (potential bounce)"
    case Overbought => "Overbought condition"
    case BullishMacd => "Bullish MACD crossover"
    case AboveAverageVolume => "Above-average volume"
    case ReasonablePe(pe) => "Reasonable P/E ratio (" + fmt(pe) + ")"
    case LowPe(pe) => "Low P/E ratio (" + fmt(pe) + ")"
    case StrongMargins(m) => "Strong profit margins (" + fmt(m * 100.0) + "%)"
    case HighRoe(x) => "High ROE (" + fmt(x * 100.0) + "%)"
  }

  const ReasonSeparator := " | "

  /** The reasons string of the result. */
  function ReasonsText(reasons: Reasons, fmt: real -> string): string
  {
    match reasons
    case InsufficientData => "Insufficient data"
    case Listed(rs) => Join(seq(|rs|, i requires 0 <= i < |rs| => ReasonText(rs[i], fmt)), ReasonSeparator)
  }

  /** `score += points` and `reasons.append(...)` for one rule that fires. */
  method Fire(score: int, rs: seq<Reason>, r: Reason) returns (score': int, rs': seq<Reason>)
    ensures rs' == rs + [r]
    ensures score' == score + r.Points()
    ensures score' - Total(rs') == score - Total(rs)
  {
    TotalSnoc(rs, r);
    score', rs' := score + r.Points(), rs + [r];
  }

  /** Trend following: the three moving-average rules. */
  method ApplyTrendRules(score: int, rs: seq<Reason>, latest: Row) returns (score': int, rs': seq<Reason>)
    ensures rs' == rs + TrendRules(latest)
    ensures score' - Total(rs') == score - Total(rs)
  {
    score', rs' := score, rs;
    if Greater(Some(latest.close), latest.sma50) {
      score', rs' := Fire(score', rs', AboveSma50);
    }
    ghost var r1, s1 := rs', score';
    if Greater(Some(latest.close), latest.sma200) {
      score', rs' := Fire(score', rs', AboveSma200);
    }
    ghost var r2, s2 := rs', score';
    if Greater(latest.sma50, latest.sma200) {
      score', rs' := Fire(score', rs', GoldenCross);
    }
    assert r1 == rs + When(Greater(Some(latest.close), latest.sma50), AboveSma50);
    assert r2 == r1 + When(Greater(Some(latest.close), latest.sma200), AboveSma200);
    assert rs' == r2 + When(Greater(latest.sma50, latest.sma200), GoldenCross);
  }

  /** The RSI branches: healthy in [30, 70], oversold below, overbought above; NaN fires none. */
  method ApplyRsiRule(score: int, rs: seq<Reason>, rsi: Option<real>) returns (score': int, rs': seq<Reason>)
    ensures rs' == rs + RsiRules(rsi)
    ensures score' - Total(rs') == score - Total(rs)
  {
    score', rs' := score, rs;
    if rsi.Some? {
      var x := rsi.value;
      if 30.0 <= x <= 70.0 {
        score', rs' := Fire(score', rs', HealthyRsi(x));
      } else if x < 30.0 {
        score', rs' := Fire(score', rs', Oversold);
      } else if x > 70.0 {
        score', rs' := Fire(score', rs', Overbought);
      }
    }
  }

  /** Momentum, MACD and volume: the RSI branches, then the two crossover rules. */
  method ApplySignalRules(score: int, rs: seq<Reason>, latest: Row) returns (score': int, rs': seq<Reason>)
    ensures rs' == rs + SignalRules(latest)
    ensures score' - Total(rs') == score - Total(rs)
  {
    score', rs' := ApplyRsiRule(score, rs, latest.rsi);
    ghost var r1 := rs';
    if latest.macd > latest.signal {
      score', rs' := Fire(score', rs', BullishMacd);
    }
    assert rs' == r1 + When(latest.macd > latest.signal, BullishMacd);
    ghost var r2 := rs';
    if Greater(Some(latest.volume), latest.volumeSma) {
      score', rs' := Fire(score', rs', AboveAverageVolume);
    }
    assert rs' == r2 + When(Greater(Some(latest.volume), latest.volumeSma), AboveAverageVolume);
  }

  /** The technical-analysis block. */
  method ApplyTechnicalRules(score: int, rs: seq<Reason>, latest: Row) returns (score': int, rs': seq<Reason>)
    ensures rs' == rs + TechnicalRules(latest)
    ensures score' - Total(rs') == score - Total(rs)
  {
    score', rs' := ApplyTrendRules(score, rs, latest);
    score', rs' := ApplySignalRules(score', rs', latest);
    AppendAssoc(rs, TrendRules(latest), SignalRules(latest));
  }

  /** The forward P/E group: +10 for a P/E in [10, 25], +5 below 10. */
  method ApplyPeRule(score: int, rs: seq<Reason>, info: Info) returns (score': int, rs': seq<Reason>, raised: bool)
    ensures raised <==> PeStep(info).Raised?
    ensures rs' == if raised then rs else rs + PeStep(info).reasons
    ensures score' - Total(rs') == score - Total(rs)
  {
    score', rs', raised := score, rs, false;
    match Lookup(info, ForwardPe)
    case Raises =>
      raised := true;
    case Compared(pe) =>
      if 10.0 <= pe <= 25.0 {
        score', rs' := Fire(score', rs', ReasonablePe(pe));
      } else if pe < 10.0 {
        score', rs' := Fire(score', rs', LowPe(pe));
      }
    case Skipped =>
  }

  /** The profit-margin group: +5 for a margin above 15%. */
  method ApplyMarginRule(score: int, rs: seq<Reason>, info: Info) returns (score': int, rs': seq<Reason>, raised: bool)
    ensures raised <==> MarginStep(info).Raised?
    ensures rs' == if raised then rs else rs + MarginStep(info).reasons
    ensures score' - Total(rs') == score - Total(rs)
  {
    score', rs', raised := score, rs, false;
    match Lookup(info, ProfitMargins)
    case Raises =>
      raised := true;
    case Compared(m) =>
      if m > 0.15 {
        score', rs' := Fire(score', rs', StrongMargins(m));
      }
    case Skipped =>
  }

  /** The return-on-equity group: +5 for a return above 15%. */
  method ApplyRoeRule(score: int, rs: seq<Reason>, info: Info) returns (score': int, rs': seq<Reason>, raised: bool)
    ensures raised <==> RoeStep(info).Raised?
    ensures rs' == if raised then rs else rs + RoeStep(info).reasons
    ensures score' - Total(rs') == score - Total(rs)
  {
    score', rs', raised := score, rs, false;
    match Lookup(info, ReturnOnEquity)
    case Raises =>
      raised := true;
    case Compared(r) =>
      if r > 0.15 {
        score', rs' := Fire(score', rs', HighRoe(r));
      }
    case Skipped =>
  }

  /**
   * The fundamental block inside its `try`: each group runs only while no
   * earlier one raised, and what the earlier groups added stays.
   */
  method ApplyFundamentalRules(score: int, rs: seq<Reason>, info: Info) returns (score': int, rs': seq<Reason>)
    ensures rs' == rs + FundamentalRules(info)
    ensures score' - Total(rs') == score - Total(rs)
  {
    var raised;
    score', rs', raised := ApplyPeRule(score, rs, info);
    if !raised {
      score', rs', raised := ApplyMarginRule(score', rs', info);
    }
    if !raised {
      score', rs', raised := ApplyRoeRule(score', rs', info);
    }
    FundamentalShape(info);
    var p, m, r := PeStep(info), MarginStep(info), RoeStep(info);
    if p.Raised? {
      assert rs' == rs + [];
    } else if m.Raised? {
    } else if r.Raised? {
      AppendAssoc(rs, p.reasons, m.reasons);
    } else {
      AppendAssoc(rs, p.reasons, m.reasons);
      AppendAssoc(rs, p.reasons + m.reasons, r.reasons);
    }
  }

  /**
   * `calculate_prediction_score`: the insufficient-data result for a short
   * history, otherwise 50 updated rule by rule, clamped, with the first five
   * reasons.
   */
  method CalculatePredictionScore(df: Option<Frame>, info: Info) returns (score: int, reasons: Reasons)
    requires df.Some? ==> df.value.Aligned()
    ensures ScoreResult(score, reasons) == PredictionScore(df, info)
    ensures reasons.InsufficientData? ==> score == 0
    ensures reasons.Listed? ==> 47 <= score <= 100
  {
    if df.None? || |df.value.closes| < MinRows {
      return 0, InsufficientData;
    }
    var latest := LastRow(df.value);
    score := 50;
    var rs: seq<Reason> := [];
    score, rs := ApplyTechnicalRules(score, rs, latest);
    assert rs == TechnicalRules(latest);
    score, rs := ApplyFundamentalRules(score, rs, info);
    assert rs == FiredRules(latest, info);
    assert score == 50 + Total(rs);
    ScoreOfFiredRules(df.value, info, score, rs);
    score := Clamp(score);
    reasons := Listed(rs[..Min(MaxReasons, |rs|)]);
  }

  // ---------------------------------------------------------------------
  // Lemmas
  // ---------------------------------------------------------------------

  /** The score and reasons the method has built are those of the specification. */
  lemma ScoreOfFiredRules(f: Frame, info: Info, score: int, rs: seq<Reason>)
    requires f.Aligned() && |f.closes| >= MinRows
    requires rs == FiredRules(LastRow(f), info)
    requires score == 50 + Total(rs)
    ensures 47 <= score <= 100
    ensures PredictionScore(Some(f), info) == ScoreResult(Clamp(score), Listed(rs[..Min(MaxReasons, |rs|)]))
  {
    RawScoreBounds(LastRow(f), info);
  }

  lemma AppendAssoc(a: seq<Reason>, b: seq<Reason>, c: seq<Reason>)
    ensures a + b + c == a + (b + c)
  {
  }

  lemma TotalSnoc(rs: seq<Reason>, r: Reason)
    ensures Total(rs + [r]) == Total(rs) + r.Points()
  {
    assert (rs + [r])[..|rs|] == rs;
  }

  lemma {:induction false} TotalAppend(a: seq<Reason>, b: seq<Reason>)
    ensures Total(a + b) == Total(a) + Total(b)
    decreases |b|
  {
    if b == [] {
      assert a + b == a;
    } else {
      var b' := b[..|b| - 1];
      TotalAppend(a, b');
      assert (a + b)[..|a + b| - 1] == a + b';
    }
  }

  lemma TotalOfOne(r: Reason)
    ensures Total([r]) == r.Points()
  {
    assert [r][..0] == [];
  }

  lemma {:induction false} CountAppend(a: seq<Reason>, b: seq<Reason>, g: Group)
    ensures Count(a + b, g) == Count(a, g) + Count(b, g)
    decreases |b|
  {
    if b == [] {
      assert a + b == a;
    } else {
      var b' := b[..|b| - 1];
      CountAppend(a, b', g);
      assert (a + b)[..|a + b| - 1] == a + b';
    }
  }

  lemma CountOfOne(r: Reason)
    ensures Count([r], RsiGroup) == if r.IsRsiRule() then 1 else 0
    ensures Count([r], PeGroup) == if r.IsPeRule() then 1 else 0
  {
    assert [r][..0] == [];
  }

  lemma WhenCount(c: bool, r: Reason)
    ensures Count(When(c, r), RsiGroup) == if c && r.IsRsiRule() then 1 else 0
    ensures Count(When(c, r), PeGroup) == if c && r.IsPeRule() then 1 else 0
  {
    if c {
      CountOfOne(r);
    }
  }

  lemma TotalThree(a: seq<Reason>, b: seq<Reason>, c: seq<Reason>)
    ensures Total(a + b + c) == Total(a) + Total(b) + Total(c)
  {
    TotalAppend(a, b);
    TotalAppend(a + b, c);
  }

  lemma CountThree(a: seq<Reason>, b: seq<Reason>, c: seq<Reason>, g: Group)
    ensures Count(a + b + c, g) == Count(a, g) + Count(b, g) + Count(c, g)
  {
    CountAppend(a, b, g);
    CountAppend(a + b, c, g);
  }

  lemma WhenTotal(c: bool, r: Reason)
    ensures Total(When(c, r)) == if c then r.Points() else 0
  {
    if c {
      TotalOfOne(r);
    }
  }

  /** The RSI group adds one of +5, +3 and -3, or nothing when RSI is undefined. */
  lemma RsiTotal(rsi: Option<real>)
    ensures rsi.None? ==> Total(RsiRules(rsi)) == 0
    ensures rsi.Some? ==> Total(RsiRules(rsi)) in {5, 3, -3}
  {
    if rsi.Some? {
      TotalOfOne(RsiRules(rsi)[0]);
    }
  }

  /** The trend rules add between 0 and +15. */
  lemma TrendTotal(row: Row)
    ensures 0 <= Total(TrendRules(row)) <= 15
  {
    TotalThree(When(Greater(Some(row.close), row.sma50), AboveSma50),
      When(Greater(Some(row.close), row.sma200), AboveSma200),
      When(Greater(row.sma50, row.sma200), GoldenCross));
    WhenTotal(Greater(Some(row.close), row.sma50), AboveSma50);
    WhenTotal(Greater(Some(row.close), row.sma200), AboveSma200);
    WhenTotal(Greater(row.sma50, row.sma200), GoldenCross);
  }

  /** The momentum, MACD and volume rules add between -3 and +15. */
  lemma SignalTotal(row: Row)
    ensures -3 <= Total(SignalRules(row)) <= 15
  {
    TotalThree(RsiRules(row.rsi),
      When(row.macd > row.signal, BullishMacd),
      When(Greater(Some(row.volume), row.volumeSma), AboveAverageVolume));
    RsiTotal(row.rsi);
    WhenTotal(row.macd > row.signal, BullishMacd);
    WhenTotal(Greater(Some(row.volume), row.volumeSma), AboveAverageVolume);
  }

  /** The technical rules add between -3 and +30. */
  lemma TechnicalTotal(row: Row)
    ensures -3 <= Total(TechnicalRules(row)) <= 30
  {
    TrendTotal(row);
    SignalTotal(row);
    TotalAppend(TrendRules(row), SignalRules(row));
  }

  /**
   * Each fundamental group adds at most one reason: a P/E reason worth 5 or
   * 10 for the first, a non-P/E reason worth 5 for the other two.
   */
  lemma StepShapes(info: Info)
    ensures PeStep(info).Fired? ==> Total(PeStep(info).reasons) in {0, 5, 10}
    ensures PeStep(info).Fired? ==> Count(PeStep(info).reasons, PeGroup) <= 1 && Count(PeStep(info).reasons, RsiGroup) == 0
    ensures MarginStep(info).Fired? ==> Total(MarginStep(info).reasons) in {0, 5}
    ensures MarginStep(info).Fired? ==> Count(MarginStep(info).reasons, PeGroup) == 0 && Count(MarginStep(info).reasons, RsiGroup) == 0
    ensures RoeStep(info).Fired? ==> Total(RoeStep(info).reasons) in {0, 5}
    ensures RoeStep(info).Fired? ==> Count(RoeStep(info).reasons, PeGroup) == 0 && Count(RoeStep(info).reasons, RsiGroup) == 0
  {
    if PeStep(info).Fired? && PeStep(info).reasons != [] {
      TotalOfOne(PeStep(info).reasons[0]);
      CountOfOne(PeStep(info).reasons[0]);
    }
    if MarginStep(info).Fired? && MarginStep(info).reasons != [] {
      TotalOfOne(MarginStep(info).reasons[0]);
      CountOfOne(MarginStep(info).reasons[0]);
    }
    if RoeStep(info).Fired? && RoeStep(info).reasons != [] {
      TotalOfOne(RoeStep(info).reasons[0]);
      CountOfOne(RoeStep(info).reasons[0]);
    }
  }

  /** The fundamental reasons are the P/E reason, then the margin one, then the ROE one. */
  lemma FundamentalShape(info: Info)
    ensures var p, m, r := PeStep(info), MarginStep(info), RoeStep(info);
      FundamentalRules(info) ==
        if p.Raised? then []
        else if m.Raised? then p.reasons
        else if r.Raised? then p.reasons + m.reasons
        else p.reasons + m.reasons + r.reasons
  {
    var p, m, r := PeStep(info), MarginStep(info), RoeStep(info);
    if p.Fired? && m.Raised? {
      assert p.reasons + [] == p.reasons;
    }
    if p.Fired? && m.Fired? && r.Raised? {
      assert m.reasons + [] == m.reasons;
    }
  }

  /** The fundamental rules add between 0 and +20. */
  lemma FundamentalTotal(info: Info)
    ensures 0 <= Total(FundamentalRules(info)) <= 20
  {
    var p, m, r := PeStep(info), MarginStep(info), RoeStep(info);
    StepShapes(info);
    FundamentalShape(info);
    if p.Fired? && m.Fired? {
      TotalAppend(p.reasons, m.reasons);
      if r.Fired? {
        TotalAppend(p.reasons + m.reasons, r.reasons);
      }
    }
  }

  /** Before the clamp the score already lies in [47, 100]. */
  lemma RawScoreBounds(row: Row, info: Info)
    ensures 47 <= 50 + Total(FiredRules(row, info)) <= 100
  {
    TechnicalTotal(row);
    FundamentalTotal(info);
    TotalAppend(TechnicalRules(row), FundamentalRules(info));
  }

  /** So the clamp never changes the score. */
  lemma ClampIsIdentity(f: Frame, info: Info)
    requires f.Aligned() && |f.closes| >= MinRows
    ensures PredictionScore(Some(f), info).score == 50 + Total(FiredRules(LastRow(f), info))
  {
    RawScoreBounds(LastRow(f), info);
  }

  /** With too short a history (or none) the result is `(0, "Insufficient data")`. */
  lemma InsufficientDataResult(df: Option<Frame>, info: Info, fmt: real -> string)
    requires df.Some? ==> df.value.Aligned()
    requires df.None? || |df.value.closes| < MinRows
    ensures PredictionScore(df, info) == ScoreResult(0, InsufficientData)
    ensures ReasonsText(PredictionScore(df, info).reasons, fmt) == "Insufficient data"
  {
  }

  /** The reasons are the first five rules that fired, in evaluation order. */
  lemma ReasonsAreFirstFive(f: Frame, info: Info)
    requires f.Aligned() && |f.closes| >= MinRows
    ensures var rs := FiredRules(LastRow(f), info);
      var listed := PredictionScore(Some(f), info).reasons.list;
      |listed| == Min(MaxReasons, |rs|) && listed == rs[..|listed|]
  {
  }

  /** No trend rule belongs to either group. */
  lemma TrendCount(row: Row, g: Group)
    ensures Count(TrendRules(row), g) == 0
  {
    CountThree(When(Greater(Some(row.close), row.sma50), AboveSma50),
      When(Greater(Some(row.close), row.sma200), AboveSma200),
      When(Greater(row.sma50, row.sma200), GoldenCross), g);
    WhenCount(Greater(Some(row.close), row.sma50), AboveSma50);
    WhenCount(Greater(Some(row.close), row.sma200), AboveSma200);
    WhenCount(Greater(row.sma50, row.sma200), GoldenCross);
  }

  /** Of the momentum, MACD and volume rules only the RSI one is in a group. */
  lemma SignalCount(row: Row, g: Group)
    ensures Count(SignalRules(row), g) <= if g == RsiGroup then 1 else 0
  {
    var d := RsiRules(row.rsi);
    CountThree(d, When(row.macd > row.signal, BullishMacd),
      When(Greater(Some(row.volume), row.volumeSma), AboveAverageVolume), g);
    WhenCount(row.macd > row.signal, BullishMacd);
    WhenCount(Greater(Some(row.volume), row.volumeSma), AboveAverageVolume);
    if d != [] {
      CountOfOne(d[0]);
    }
  }

  /** The technical rules hold at most one RSI reason and no P/E reason. */
  lemma TechnicalCount(row: Row, g: Group)
    ensures Count(TechnicalRules(row), g) <= if g == RsiGroup then 1 else 0
  {
    TrendCount(row, g);
    SignalCount(row, g);
    CountAppend(TrendRules(row), SignalRules(row), g);
  }

  /** The fundamental rules hold at most one P/E reason and no RSI reason. */
  lemma FundamentalCount(info: Info, g: Group)
    ensures Count(FundamentalRules(info), g) <= if g == PeGroup then 1 else 0
  {
    var p, m, r := PeStep(info), MarginStep(info), RoeStep(info);
    StepShapes(info);
    FundamentalShape(info);
    if p.Fired? && m.Fired? {
      CountAppend(p.reasons, m.reasons, g);
      if r.Fired? {
        CountAppend(p.reasons + m.reasons, r.reasons, g);
      }
    }
  }

  /**
   * The RSI branches are exclusive, and so are the P/E branches: at most one
   * reason of either group fires.
   */
  lemma AtMostOneRuleOfEachGroup(row: Row, info: Info, g: Group)
    ensures Count(FiredRules(row, info), g) <= 1
  {
    TechnicalCount(row, g);
    FundamentalCount(info, g);
    CountAppend(TechnicalRules(row), FundamentalRules(info), g);
  }

  /** An undefined indicator fires none of the rules that read it. */
  lemma UndefinedIndicatorsFireNoRule(row: Row)
    ensures row.sma50.None? ==> AboveSma50 !in TechnicalRules(row) && GoldenCross !in TechnicalRules(row)
    ensures row.sma200.None? ==> AboveSma200 !in TechnicalRules(row) && GoldenCross !in TechnicalRules(row)
    ensures row.rsi.None? ==> forall r :: r in TechnicalRules(row) ==> !r.IsRsiRule()
    ensures row.volumeSma.None? ==> AboveAverageVolume !in TechnicalRules(row)
  {
  }

  /** An absent field, a `None` field and a NaN field contribute alike. */
  lemma AbsentSameAsNone(info: Info, key: string)
    ensures FundamentalRules(info[key := Null]) == FundamentalRules(info - {key})
    ensures FundamentalRules(info[key := NaN]) == FundamentalRules(info - {key})
  {
    assert Lookup(info[key := Null], ForwardPe) == Lookup(info - {key}, ForwardPe);
    assert Lookup(info[key := Null], ProfitMargins) == Lookup(info - {key}, ProfitMargins);
    assert Lookup(info[key := Null], ReturnOnEquity) == Lookup(info - {key}, ReturnOnEquity);
    assert Lookup(info[key := NaN], ForwardPe) == Lookup(info - {key}, ForwardPe);
    assert Lookup(info[key := NaN], ProfitMargins) == Lookup(info - {key}, ProfitMargins);
    assert Lookup(info[key := NaN], ReturnOnEquity) == Lookup(info - {key}, ReturnOnEquity);
  }

  /** A forward P/E above 25 contributes nothing. */
  lemma HighPeAddsNothing(info: Info, pe: real)
    requires pe > 25.0
    ensures FundamentalRules(info[ForwardPe := Number(pe)]) == FundamentalRules(info - {ForwardPe})
  {
    var i1, i2 := info[ForwardPe := Number(pe)], info - {ForwardPe};
    assert PeStep(i1) == PeStep(i2) == Fired([]);
    assert MarginStep(i1) == MarginStep(i2);
    assert RoeStep(i1) == RoeStep(i2);
  }

  /** Any forward P/E below 10, negative ones included, adds 5 points. */
  lemma LowPeAddsFive(info: Info, pe: real)
    requires pe < 10.0
    ensures Total(FundamentalRules(info[ForwardPe := Number(pe)])) == 5 + Total(FundamentalRules(info - {ForwardPe}))
  {
    var i1, i2 := info[ForwardPe := Number(pe)], info - {ForwardPe};
    assert PeStep(i1) == Fired([LowPe(pe)]);
    assert PeStep(i2) == Fired([]);
    assert MarginStep(i1) == MarginStep(i2);
    assert RoeStep(i1) == RoeStep(i2);
    var rest := FundamentalRules(i2);
    assert FundamentalRules(i1) == [LowPe(pe)] + rest;
    TotalAppend([LowPe(pe)], rest);
    TotalOfOne(LowPe(pe));
  }

  /** A text forward P/E raises at once: no fundamental rule fires. */
  lemma TextPeAbortsFundamentals(info: Info, s: string)
    ensures FundamentalRules(info[ForwardPe := Str(s)]) == []
  {
  }

  /** A text margin keeps the P/E reason and drops the ROE one. */
  lemma TextMarginKeepsPe(info: Info, pe: real, s: string, roe: real)
    requires 10.0 <= pe <= 25.0 && roe > 0.15
    ensures FundamentalRules(info[ForwardPe := Number(pe)][ProfitMargins := Str(s)][ReturnOnEquity := Number(roe)]) ==
      [ReasonablePe(pe)]
  {
    var i := info[ForwardPe := Number(pe)][ProfitMargins := Str(s)][ReturnOnEquity := Number(roe)];
    assert Lookup(i, ForwardPe) == Compared(pe);
    assert MarginStep(i) == Raised;
    assert [ReasonablePe(pe)] + [] == [ReasonablePe(pe)];
  }

  /** A history whose closes and volumes never change scores exactly 50 with no reasons. */
  lemma FlatHistoryScoresBaseline(bars: seq<Bar>, c: Price, v: real)
    requires MinRows <= |bars| < 200
    requires forall k :: 0 <= k < |bars| ==> bars[k] == Bar(c, v)
    ensures PredictionScore(Some(IndicatorFrame(bars)), map[]) == ScoreResult(50, Listed([]))
  {
    FlatHistoryLastRow(bars, c, v);
    var row := LastRow(IndicatorFrame(bars));
    assert TechnicalRules(row) == [];
    assert FundamentalRules(map[]) == [];
    assert FiredRules(row, map[]) == [];
  }

  /** P/E 18, a 20% margin and an 18% return on equity fire all three fundamental rules, for +20. */
  lemma StrongFundamentals()
    ensures var info := map[ForwardPe := Number(18.0), ProfitMargins := Number(0.2), ReturnOnEquity := Number(0.18)];
      FundamentalRules(info) == [ReasonablePe(18.0), StrongMargins(0.2), HighRoe(0.18)] &&
      Total(FundamentalRules(info)) == 20
  {
    var info := map[ForwardPe := Number(18.0), ProfitMargins := Number(0.2), ReturnOnEquity := Number(0.18)];
    assert |ForwardPe| == 9 && |ProfitMargins| == 13 && |ReturnOnEquity| == 14;
    assert Lookup(info, ForwardPe) == Compared(18.0);
    assert Lookup(info, ProfitMargins) == Compared(0.2);
    assert Lookup(info, ReturnOnEquity) == Compared(0.18);
    var a, b, d := ReasonablePe(18.0), StrongMargins(0.2), HighRoe(0.18);
    FundamentalShape(info);
    assert FundamentalRules(info) == [a] + [b] + [d] == [a, b, d];
    TotalAppend([a] + [b], [d]);
    TotalAppend([a], [b]);
    TotalOfOne(a);
    TotalOfOne(b);
    TotalOfOne(d);
  }

  /**
   * A flat history with those fundamentals scores 70 with the three
   * fundamental reasons in order.
   */
  lemma FlatHistoryWithFundamentals(bars: seq<Bar>, c: Price, v: real)
    requires MinRows <= |bars| < 200
    requires forall k :: 0 <= k < |bars| ==> bars[k] == Bar(c, v)
    ensures var info := map[ForwardPe := Number(18.0), ProfitMargins := Number(0.2), ReturnOnEquity := Number(0.18)];
      PredictionScore(Some(IndicatorFrame(bars)), info) ==
      ScoreResult(70, Listed([ReasonablePe(18.0), StrongMargins(0.2), HighRoe(0.18)]))
  {
    var info := map[ForwardPe := Number(18.0), ProfitMargins := Number(0.2), ReturnOnEquity := Number(0.18)];
    FlatHistoryLastRow(bars, c, v);
    var row := LastRow(IndicatorFrame(bars));
    assert TechnicalRules(row) == [];
    StrongFundamentals();
    var rs := [ReasonablePe(18.0), StrongMargins(0.2), HighRoe(0.18)];
    assert FiredRules(row, info) == rs;
    assert rs[..Min(MaxReasons, 3)] == rs;
  }

  /** The reasons string is empty exactly when no rule fired. */
  lemma ReasonsTextEmptyIff(rs: seq<Reason>, fmt: real -> string)
    ensures ReasonsText(Listed(rs), fmt) == "" <==> rs == []
  {
    if rs != [] {
      var texts := seq(|rs|, i requires 0 <= i < |rs| => ReasonText(rs[i], fmt));
      JoinStartsWithFirst(texts, ReasonSeparator);
    }
  }

  lemma JoinStartsWithFirst(parts: seq<string>, sep: string)
    requires |parts| > 0
    ensures |Join(parts, sep)| >= |parts[0]|
  {
  }
}
