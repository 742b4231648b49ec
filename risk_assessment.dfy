/** The rule-based suicide-risk scorer of server/services/riskAssessment.js:
    literal phrase matching against fixed tables, a weighted sum clamped to
    [0, 1], threshold bucketing into a level, a confidence value and an
    ordered list of intervention tags, with a safe medium-risk fallback. */
module RiskAssessment {
  import opened Common

  // ---------------------------------------------------------------------------
  // Lexicon
  // ---------------------------------------------------------------------------

  /** A tier of the risk lexicon: its phrases, the weight of each hit, and how
      many distinct phrases must occur before the tier counts at all. */
  datatype Category = Category(keywords: seq<string>, weight: real, minOccurrence: nat)

  predicate ValidTier(c: Category)
  {
    0.0 <= c.weight <= 1.0 && c.minOccurrence >= 1
  }

  /** Explicit suicidal intent. */
  const CriticalTier: Category := Category(
    ["自杀", "杀死自己", "结束生命", "不想活了", "想死",
     "自我了结", "解脱", "一了百了", "去死", "死掉算了"],
    1.0, 1)

  /** Hopelessness and worthlessness. */
  const HighTier: Category := Category(
    ["没意义", "没价值", "没用", "废物", "累赘",
     "绝望", "无望", "放弃", "算了", "结束一切",
     "消失", "离开这个世界", "不存在"],
    0.8, 2)

  /** Depressive and negative mood. */
  const MediumTier: Category := Category(
    ["抑郁", "沮丧", "失落", "空虚", "麻木",
     "孤独", "寂寞", "痛苦", "煎熬", "折磨",
     "疲惫", "累", "撑不下去", "坚持不了"],
    0.6, 3)

  /** The tiers in declaration order, which is the order they are scanned in. */
  const RiskTiers: seq<Category> := [CriticalTier, HighTier, MediumTier]

  /** Phrases that suggest a concrete plan; each hit raises the score. */
  const PlanIndicators: seq<string> :=
    ["计划", "准备", "方法", "时间", "地点",
     "安排好了", "准备好了", "决定了", "想好了",
     "买了", "准备了", "找到了"]

  /** Phrases that suggest support or reasons to live; each hit lowers the score. */
  const ProtectiveFactors: seq<string> :=
    ["家人", "朋友", "孩子", "父母", "爱人",
     "责任", "希望", "未来", "梦想", "目标",
     "信仰", "宗教", "治疗", "医生", "药物"]

  datatype Emotion = Hopelessness | Worthlessness | Sadness | Anxiety | Anger | Loneliness

  function EmotionWeight(e: Emotion): (w: real)
    ensures 0.0 < w <= 1.0
  {
    match e
    case Hopelessness => 0.9
    case Worthlessness => 0.8
    case Sadness => 0.6
    case Anxiety => 0.5
    case Anger => 0.4
    case Loneliness => 0.7
  }

  /** An emotion with the phrases that signal it. */
  datatype EmotionCategory = EmotionCategory(emotion: Emotion, keywords: seq<string>)

  /** The emotion categories in declaration order; the first strict maximum wins. */
  const EmotionMap: seq<EmotionCategory> := [
    EmotionCategory(Hopelessness, ["绝望", "无望", "没希望", "看不到希望"]),
    EmotionCategory(Worthlessness, ["没用", "废物", "没价值", "累赘", "多余"]),
    EmotionCategory(Sadness, ["难过", "伤心", "悲伤", "痛苦", "心痛"]),
    EmotionCategory(Anxiety, ["焦虑", "担心", "害怕", "紧张", "恐惧"]),
    EmotionCategory(Anger, ["愤怒", "生气", "恨", "讨厌", "气愤"]),
    EmotionCategory(Loneliness, ["孤独", "寂寞", "一个人", "没人理解", "孤单"])
  ]

  // ---------------------------------------------------------------------------
  // Keyword analysis
  // ---------------------------------------------------------------------------

  datatype KeywordAnalysis = KeywordAnalysis(
    detected: seq<string>,     // matched phrases of the firing tiers, without repetitions
    totalWeight: real,         // sum of weight * number of matches over the firing tiers
    maxCategoryWeight: real,   // largest weight of a firing tier, 0 when none fires
    count: nat)                // number of matches before de-duplication

  /** The phrases of tier `c` that occur in `text`. */
  function Found(text: string, c: Category): seq<string>
  {
    Matches(text, c.keywords)
  }

  /** A tier fires when at least `minOccurrence` of its phrases occur. */
  predicate Fires(text: string, c: Category)
  {
    |Found(text, c)| >= c.minOccurrence
  }

  /** A weight counted once per hit. */
  function Weighted(weight: real, hits: nat): real
  {
    weight * hits as real
  }

  /** The matches of the firing tiers, concatenated in tier order. */
  function Hits(text: string, tiers: seq<Category>): seq<string>
    decreases |tiers|
  {
    if tiers == [] then []
    else
      var c := tiers[|tiers| - 1];
      Hits(text, tiers[..|tiers| - 1]) + (if Fires(text, c) then Found(text, c) else [])
  }

  function TotalWeight(text: string, tiers: seq<Category>): real
    decreases |tiers|
  {
    if tiers == [] then 0.0
    else
      var c := tiers[|tiers| - 1];
      TotalWeight(text, tiers[..|tiers| - 1])
        + (if Fires(text, c) then Weighted(c.weight, |Found(text, c)|) else 0.0)
  }

  /** The largest weight among the firing tiers, starting from 0. */
  function MaxWeight(text: string, tiers: seq<Category>): (m: real)
    ensures m >= 0.0
    ensures forall i :: 0 <= i < |tiers| && Fires(text, tiers[i]) ==> tiers[i].weight <= m
    ensures m == 0.0 || exists i :: 0 <= i < |tiers| && Fires(text, tiers[i]) && tiers[i].weight == m
    decreases |tiers|
  {
    if tiers == [] then 0.0
    else
      var c := tiers[|tiers| - 1];
      var m := MaxWeight(text, tiers[..|tiers| - 1]);
      if Fires(text, c) then Max(m, c.weight) else m
  }

  /** What the keyword scan reports for `text`. */
  function KeywordAnalysisOf(text: string, tiers: seq<Category>): (r: KeywordAnalysis)
    ensures NoDuplicates(r.detected) && |r.detected| <= r.count
    ensures r.maxCategoryWeight >= 0.0
    ensures r.count == 0 ==> r.detected == []
  {
    var hits := Hits(text, tiers);
    KeywordAnalysis(Dedup(hits), TotalWeight(text, tiers), MaxWeight(text, tiers), |hits|)
  }

  /** The scan over the tiers, accumulating as the source's loop does. */
  method AnalyzeKeywords(text: string, tiers: seq<Category>) returns (r: KeywordAnalysis)
    ensures r == KeywordAnalysisOf(text, tiers)
  {
    var detected: seq<string> := [];
    var totalWeight := 0.0;
    var maxCategoryWeight := 0.0;
    for i := 0 to |tiers|
      invariant detected == Hits(text, tiers[..i])
      invariant totalWeight == TotalWeight(text, tiers[..i])
      invariant maxCategoryWeight == MaxWeight(text, tiers[..i])
    {
      assert tiers[..i + 1][..i] == tiers[..i];
      var foundKeywords := Matches(text, tiers[i].keywords);
      if |foundKeywords| >= tiers[i].minOccurrence {
        detected := detected + foundKeywords;
        totalWeight := totalWeight + Weighted(tiers[i].weight, |foundKeywords|);
        maxCategoryWeight := Max(maxCategoryWeight, tiers[i].weight);
      }
    }
    assert tiers[..|tiers|] == tiers;
    r := KeywordAnalysis(Dedup(detected), totalWeight, maxCategoryWeight, |detected|);
  }

  /** `x` is a phrase of a firing tier of `tiers` and occurs in the text. */
  predicate InFiringTier(text: string, tiers: seq<Category>, x: string)
  {
    exists i :: 0 <= i < |tiers| && Fires(text, tiers[i]) && x in tiers[i].keywords && Contains(text, x)
  }

  /** Every match comes from a firing tier and occurs in the text. */
  lemma {:induction false} HitsSound(text: string, tiers: seq<Category>, x: string)
    requires x in Hits(text, tiers)
    ensures InFiringTier(text, tiers, x)
    decreases |tiers|
  {
    var n := |tiers| - 1;
    var init := tiers[..n];
    if x in Hits(text, init) {
      HitsSound(text, init, x);
      var i :| 0 <= i < |init| && Fires(text, init[i]) && x in init[i].keywords && Contains(text, x);
      assert tiers[i] == init[i];
    } else {
      MatchesMembership(text, tiers[n].keywords);
      assert Fires(text, tiers[n]) && x in Found(text, tiers[n]);
    }
  }

  /** Every occurring phrase of a firing tier is among the matches. */
  lemma {:induction false} HitsComplete(text: string, tiers: seq<Category>, x: string, i: int)
    requires 0 <= i < |tiers| && Fires(text, tiers[i]) && x in tiers[i].keywords && Contains(text, x)
    ensures x in Hits(text, tiers)
    decreases |tiers|
  {
    var n := |tiers| - 1;
    if i < n {
      assert tiers[..n][i] == tiers[i];
      HitsComplete(text, tiers[..n], x, i);
    } else {
      MatchesMembership(text, tiers[n].keywords);
      assert x in Found(text, tiers[n]);
    }
  }

  /** `detected` holds each phrase of a firing tier that occurs in the text, once. */
  lemma DetectedIsFiringTierMatches(text: string, tiers: seq<Category>, x: string)
    ensures NoDuplicates(KeywordAnalysisOf(text, tiers).detected)
    ensures x in KeywordAnalysisOf(text, tiers).detected <==> InFiringTier(text, tiers, x)
    ensures |KeywordAnalysisOf(text, tiers).detected| <= KeywordAnalysisOf(text, tiers).count
  {
    if x in Hits(text, tiers) {
      HitsSound(text, tiers, x);
    }
    if InFiringTier(text, tiers, x) {
      var i :| 0 <= i < |tiers| && Fires(text, tiers[i]) && x in tiers[i].keywords && Contains(text, x);
      HitsComplete(text, tiers, x, i);
    }
  }

  /** A weight in [0, 1] counted n times lies in [0, n], and is at least the
      weight once there is a hit. */
  lemma {:induction false} WeightedBounds(weight: real, hits: nat)
    requires 0.0 <= weight <= 1.0
    ensures 0.0 <= Weighted(weight, hits) <= hits as real
    ensures hits >= 1 ==> weight <= Weighted(weight, hits)
    decreases hits
  {
    if hits > 0 {
      WeightedBounds(weight, hits - 1);
      assert Weighted(weight, hits) == Weighted(weight, hits - 1) + weight;
    }
  }

  /** With valid tiers: 0 <= maxCategoryWeight <= totalWeight <= count. */
  lemma {:induction false} WeightBounds(text: string, tiers: seq<Category>)
    requires forall i :: 0 <= i < |tiers| ==> ValidTier(tiers[i])
    ensures 0.0 <= MaxWeight(text, tiers) <= TotalWeight(text, tiers) <= |Hits(text, tiers)| as real
    decreases |tiers|
  {
    if tiers != [] {
      var n := |tiers| - 1;
      var c := tiers[n];
      WeightBounds(text, tiers[..n]);
      WeightedBounds(c.weight, |Found(text, c)|);
    }
  }

  /** Each explicit-intent phrase adds 1 to the total weight once that tier
      fires, and the largest tier weight exceeds 0.8 exactly when it fires. */
  lemma {:induction false} CriticalTierWeight(text: string)
    ensures Fires(text, CriticalTier) ==> TotalWeight(text, RiskTiers) >= |Found(text, CriticalTier)| as real
    ensures MaxWeight(text, RiskTiers) > 0.8 <==> Fires(text, CriticalTier)
  {
    var t1 := RiskTiers[..1];
    var t2 := RiskTiers[..2];
    assert t1 == [CriticalTier] && t2 == [CriticalTier, HighTier];
    assert t1[..0] == [] && t2[..1] == t1;
    WeightedBounds(CriticalTier.weight, |Found(text, CriticalTier)|);
    WeightedBounds(HighTier.weight, |Found(text, HighTier)|);
    WeightedBounds(MediumTier.weight, |Found(text, MediumTier)|);
    if Fires(text, CriticalTier) {
      var k := |Found(text, CriticalTier)|;
      assert TotalWeight(text, t1) == Weighted(1.0, k) == k as real;
      assert TotalWeight(text, t2) >= TotalWeight(text, t1);
      assert TotalWeight(text, RiskTiers) >= TotalWeight(text, t2);
    }
    var m := MaxWeight(text, RiskTiers);
    if m > 0.8 {
      var i :| 0 <= i < |RiskTiers| && Fires(text, RiskTiers[i]) && RiskTiers[i].weight == m;
      assert i == 0;
    }
  }

  // ---------------------------------------------------------------------------
  // Plan indicators and protective factors
  // ---------------------------------------------------------------------------

  datatype PlanAssessment = PlanAssessment(indicators: seq<string>, score: real, hasPlan: bool)

  datatype ProtectiveAssessment = ProtectiveAssessment(factors: seq<string>, score: real, hasProtection: bool)

  /** 0.3 per plan indicator, capped at 1. */
  function PlanScore(hits: nat): (r: real)
    ensures 0.0 <= r <= 1.0
    ensures r == 0.0 <==> hits == 0
  {
    if hits > 0 then Min(hits as real * 0.3, 1.0) else 0.0
  }

  /** 0.15 per protective factor, capped at 0.5. */
  function ProtectionScore(hits: nat): (r: real)
    ensures 0.0 <= r <= 0.5
    ensures r == 0.0 <==> hits == 0
  {
    Min(hits as real * 0.15, 0.5)
  }

  function AssessSuicidalPlan(text: string): (p: PlanAssessment)
    ensures forall k :: k in p.indicators <==> k in PlanIndicators && Contains(text, k)
    ensures p.hasPlan <==> p.indicators != []
    ensures p.score == PlanScore(|p.indicators|)
  {
    var indicators := Matches(text, PlanIndicators);
    MatchesMembership(text, PlanIndicators);
    PlanAssessment(indicators, PlanScore(|indicators|), |indicators| > 0)
  }

  function AssessProtectiveFactors(text: string): (p: ProtectiveAssessment)
    ensures forall k :: k in p.factors <==> k in ProtectiveFactors && Contains(text, k)
    ensures p.hasProtection <==> p.factors != []
    ensures p.score == ProtectionScore(|p.factors|)
  {
    var factors := Matches(text, ProtectiveFactors);
    MatchesMembership(text, ProtectiveFactors);
    ProtectiveAssessment(factors, ProtectionScore(|factors|), |factors| > 0)
  }

  /** More plan indicators never lower the plan score. */
  lemma PlanScoreMonotone(m: nat, n: nat)
    requires m <= n
    ensures PlanScore(m) <= PlanScore(n)
  {
  }

  /** More protective factors never lower the protection score. */
  lemma ProtectionScoreMonotone(m: nat, n: nat)
    requires m <= n
    ensures ProtectionScore(m) <= ProtectionScore(n)
  {
  }

  // ---------------------------------------------------------------------------
  // Emotional state
  // ---------------------------------------------------------------------------

  datatype EmotionReading = EmotionReading(keywords: seq<string>, weight: real)

  datatype EmotionalState = EmotionalState(
    primary: Option<Emotion>,               // None is the source's 'unknown'
    detected: map<Emotion, EmotionReading>,
    intensity: real)

  function EmotionMatches(text: string, c: EmotionCategory): seq<string>
  {
    Matches(text, c.keywords)
  }

  /** The weight a category reaches: its emotion's weight times its number of matches. */
  function EmotionScore(text: string, c: EmotionCategory): real
  {
    Weighted(EmotionWeight(c.emotion), |EmotionMatches(text, c)|)
  }

  /** The state after scanning `cats` in order, as the source's loop builds it. */
  function EmotionalStateOf(text: string, cats: seq<EmotionCategory>): (r: EmotionalState)
    ensures r.primary.Some? ==> r.primary.value in r.detected
    ensures forall e :: e in r.detected ==> r.detected[e].keywords != []
    decreases |cats|
  {
    if cats == [] then EmotionalState(None, map[], 0.0)
    else
      var s := EmotionalStateOf(text, cats[..|cats| - 1]);
      var c := cats[|cats| - 1];
      var m := EmotionMatches(text, c);
      if |m| > 0 then
        var w := Weighted(EmotionWeight(c.emotion), |m|);
        var detected := s.detected[c.emotion := EmotionReading(m, w)];
        if w > s.intensity then EmotionalState(Some(c.emotion), detected, w)
        else s.(detected := detected)
      else s
  }

  method AnalyzeEmotionalState(text: string, cats: seq<EmotionCategory>) returns (st: EmotionalState)
    ensures st == EmotionalStateOf(text, cats)
  {
    var detectedEmotions: map<Emotion, EmotionReading> := map[];
    var primaryEmotion: Option<Emotion> := None;
    var maxWeight := 0.0;
    for i := 0 to |cats|
      invariant EmotionalStateOf(text, cats[..i]) == EmotionalState(primaryEmotion, detectedEmotions, maxWeight)
    {
      assert cats[..i + 1][..i] == cats[..i];
      var emotion := cats[i].emotion;
      var matches := Matches(text, cats[i].keywords);
      if |matches| > 0 {
        var weight := Weighted(EmotionWeight(emotion), |matches|);
        detectedEmotions := detectedEmotions[emotion := EmotionReading(matches, weight)];
        if weight > maxWeight {
          maxWeight := weight;
          primaryEmotion := Some(emotion);
        }
      }
    }
    assert cats[..|cats|] == cats;
    st := EmotionalState(primaryEmotion, detectedEmotions, maxWeight);
  }

  /** Position `k` holds emotion `e`, whose score `w` is positive and strictly
      greater than the score of every category scanned before it. */
  predicate FirstStrictMaximumAt(text: string, cats: seq<EmotionCategory>, k: int, e: Emotion, w: real)
  {
    && 0 <= k < |cats|
    && cats[k].emotion == e
    && EmotionScore(text, cats[k]) == w
    && w > 0.0
    && forall j :: 0 <= j < k ==> EmotionScore(text, cats[j]) < w
  }

  /** The intensity is 0 with an unknown primary emotion and positive with a known one. */
  lemma {:induction false} IntensitySign(text: string, cats: seq<EmotionCategory>)
    ensures var st := EmotionalStateOf(text, cats);
      && (st.primary.None? ==> st.intensity == 0.0)
      && (st.primary.Some? ==> st.intensity > 0.0)
    decreases |cats|
  {
    if cats != [] {
      var n := |cats| - 1;
      IntensitySign(text, cats[..n]);
      WeightedBounds(EmotionWeight(cats[n].emotion), |EmotionMatches(text, cats[n])|);
    }
  }

  /** The primary emotion stays unknown exactly when no emotion phrase occurs. */
  lemma {:induction false} UnknownIffNoMatch(text: string, cats: seq<EmotionCategory>)
    ensures EmotionalStateOf(text, cats).primary.None? <==>
      forall j :: 0 <= j < |cats| ==> EmotionMatches(text, cats[j]) == []
    decreases |cats|
  {
    if cats != [] {
      var n := |cats| - 1;
      var init := cats[..n];
      UnknownIffNoMatch(text, init);
      IntensitySign(text, init);
      WeightedBounds(EmotionWeight(cats[n].emotion), |EmotionMatches(text, cats[n])|);
      assert forall j :: 0 <= j < n ==> cats[j] == init[j];
    }
  }

  /** No category scores above the intensity. */
  lemma {:induction false} IntensityIsMaximum(text: string, cats: seq<EmotionCategory>)
    ensures forall j :: 0 <= j < |cats| ==>
      EmotionScore(text, cats[j]) <= EmotionalStateOf(text, cats).intensity
    decreases |cats|
  {
    if cats != [] {
      var n := |cats| - 1;
      var init := cats[..n];
      IntensityIsMaximum(text, init);
      assert forall j :: 0 <= j < n ==> cats[j] == init[j];
      IntensitySign(text, init);
      WeightedBounds(EmotionWeight(cats[n].emotion), |EmotionMatches(text, cats[n])|);
    }
  }

  /** A known primary emotion is that of the first category, in scan order,
      whose score equals the intensity: every category before it scores
      strictly less. */
  lemma {:induction false} PrimaryIsFirstStrictMaximum(text: string, cats: seq<EmotionCategory>)
    ensures var st := EmotionalStateOf(text, cats);
      st.primary.Some? ==> exists k :: FirstStrictMaximumAt(text, cats, k, st.primary.value, st.intensity)
    decreases |cats|
  {
    if cats != [] {
      var n := |cats| - 1;
      var init := cats[..n];
      PrimaryIsFirstStrictMaximum(text, init);
      IntensityIsMaximum(text, init);
      IntensitySign(text, init);
      var s := EmotionalStateOf(text, init);
      var c := cats[n];
      var m := EmotionMatches(text, c);
      WeightedBounds(EmotionWeight(c.emotion), |m|);
      assert forall j :: 0 <= j < n ==> cats[j] == init[j];
      if |m| > 0 && Weighted(EmotionWeight(c.emotion), |m|) > s.intensity {
        assert FirstStrictMaximumAt(text, cats, n, c.emotion, Weighted(EmotionWeight(c.emotion), |m|));
      } else if s.primary.Some? {
        var k :| FirstStrictMaximumAt(text, init, k, s.primary.value, s.intensity);
        assert FirstStrictMaximumAt(text, cats, k, s.primary.value, s.intensity);
      }
    }
  }

  /** Category `j` is the last one for emotion `e` that matched, and `r` is its reading. */
  predicate ReadingFrom(text: string, cats: seq<EmotionCategory>, j: int, e: Emotion, r: EmotionReading)
  {
    && 0 <= j < |cats|
    && cats[j].emotion == e
    && EmotionMatches(text, cats[j]) != []
    && r == EmotionReading(EmotionMatches(text, cats[j]), EmotionScore(text, cats[j]))
  }

  /** The map records exactly the emotions of the categories that matched,
      each with the phrases and score of a category that matched. */
  lemma {:induction false} DetectedEmotions(text: string, cats: seq<EmotionCategory>)
    ensures var st := EmotionalStateOf(text, cats);
      && (forall j :: 0 <= j < |cats| && EmotionMatches(text, cats[j]) != [] ==> cats[j].emotion in st.detected)
      && (forall e :: e in st.detected ==> exists j :: ReadingFrom(text, cats, j, e, st.detected[e]))
    decreases |cats|
  {
    if cats != [] {
      var n := |cats| - 1;
      var init := cats[..n];
      DetectedEmotions(text, init);
      assert forall j :: 0 <= j < n ==> cats[j] == init[j];
      var st := EmotionalStateOf(text, cats);
      var s := EmotionalStateOf(text, init);
      forall e | e in st.detected
        ensures exists j :: ReadingFrom(text, cats, j, e, st.detected[e])
      {
        if EmotionMatches(text, cats[n]) != [] && e == cats[n].emotion {
          assert ReadingFrom(text, cats, n, e, st.detected[e]);
        } else {
          var j :| ReadingFrom(text, init, j, e, s.detected[e]);
          assert ReadingFrom(text, cats, j, e, st.detected[e]);
        }
      }
    }
  }

  // ---------------------------------------------------------------------------
  // Score, level, confidence
  // ---------------------------------------------------------------------------

  /** The weight of the previous level; any string outside the table weighs 0. */
  function PrevLevelBonus(prev: string): (b: real)
    ensures 0.0 <= b <= 0.4
  {
    if prev == "low" then 0.1
    else if prev == "medium" then 0.2
    else if prev == "high" then 0.3
    else if prev == "critical" then 0.4
    else 0.0
  }

  /** The source's name for a level, as a previous level is passed back in. */
  function LevelName(l: Level): string
  {
    match l
    case Low => "low"
    case Medium => "medium"
    case High => "high"
    case Critical => "critical"
  }

  /** Long conversations (depth above 5) add 0.1. */
  function DepthBonus(depth: int): real
  {
    if depth > 5 then 0.1 else 0.0
  }

  /** The weighted sum for a given previous-level weight `bonus`. */
  function WeightedSum(totalWeight: real, planScore: real, intensity: real,
                       bonus: real, depth: int, protection: real): real
  {
    totalWeight * 0.4 + planScore * 0.3 + intensity * 0.2 + bonus + DepthBonus(depth) - protection
  }

  /** The weighted sum before clamping. */
  function RawScore(totalWeight: real, planScore: real, intensity: real,
                    prev: string, depth: int, protection: real): real
  {
    WeightedSum(totalWeight, planScore, intensity, PrevLevelBonus(prev), depth, protection)
  }

  /** The combined score, clamped into [0, 1]. */
  function RiskScore(totalWeight: real, planScore: real, intensity: real,
                     prev: string, depth: int, protection: real): (s: real)
    ensures 0.0 <= s <= 1.0
    ensures var raw := RawScore(totalWeight, planScore, intensity, prev, depth, protection);
      && (0.0 <= raw <= 1.0 ==> s == raw)
      && (raw < 0.0 ==> s == 0.0)
      && (raw > 1.0 ==> s == 1.0)
  {
    Max(0.0, Min(1.0, RawScore(totalWeight, planScore, intensity, prev, depth, protection)))
  }

  method CalculateRiskScore(keywordAnalysis: KeywordAnalysis, planAssessment: PlanAssessment,
                            protectiveAssessment: ProtectiveAssessment, emotionalState: EmotionalState,
                            previousRiskLevel: string, conversationDepth: int)
    returns (score: real)
    ensures score == RiskScore(keywordAnalysis.totalWeight, planAssessment.score,
                               emotionalState.intensity, previousRiskLevel,
                               conversationDepth, protectiveAssessment.score)
  {
    score := 0.0;
    score := score + keywordAnalysis.totalWeight * 0.4;
    score := score + planAssessment.score * 0.3;
    score := score + emotionalState.intensity * 0.2;
    score := score + PrevLevelBonus(previousRiskLevel);
    if conversationDepth > 5 {
      score := score + 0.1;
    }
    score := score - protectiveAssessment.score;
    score := Max(0.0, Min(1.0, score));
  }

  /** A higher plan score never lowers the risk score. */
  lemma ScoreMonotoneInPlan(tw: real, p1: real, p2: real, intensity: real, prev: string, depth: int, prot: real)
    requires p1 <= p2
    ensures RiskScore(tw, p1, intensity, prev, depth, prot) <= RiskScore(tw, p2, intensity, prev, depth, prot)
  {
  }

  /** A higher protection score never raises the risk score. */
  lemma ScoreAntitoneInProtection(tw: real, plan: real, intensity: real, prev: string, depth: int, p1: real, p2: real)
    requires p1 <= p2
    ensures RiskScore(tw, plan, intensity, prev, depth, p2) <= RiskScore(tw, plan, intensity, prev, depth, p1)
  {
  }

  /** A higher previous level never lowers the score; 'critical' gives the highest. */
  lemma ScoreMonotoneInPreviousLevel(tw: real, plan: real, intensity: real, depth: int, prot: real,
                                     l1: Level, l2: Level, other: string)
    requires Rank(l1) <= Rank(l2)
    ensures RiskScore(tw, plan, intensity, LevelName(l1), depth, prot)
         <= RiskScore(tw, plan, intensity, LevelName(l2), depth, prot)
    ensures RiskScore(tw, plan, intensity, other, depth, prot)
         <= RiskScore(tw, plan, intensity, "critical", depth, prot)
  {
  }

  /** The bucketing of a score into a level: 0.8, 0.6 and 0.3 are the lower
      bounds of critical, high and medium. */
  function DetermineRiskLevel(score: real): (l: Level)
    ensures l == Critical <==> score >= 0.8
    ensures l == High <==> 0.6 <= score < 0.8
    ensures l == Medium <==> 0.3 <= score < 0.6
    ensures l == Low <==> score < 0.3
  {
    if score >= 0.8 then Critical
    else if score >= 0.6 then High
    else if score >= 0.3 then Medium
    else Low
  }

  /** The bucketing is monotone: a higher score never gives a lower level. */
  lemma LevelMonotone(s1: real, s2: real)
    requires s1 <= s2
    ensures Rank(DetermineRiskLevel(s1)) <= Rank(DetermineRiskLevel(s2))
  {
  }

  /** 0.5, plus 0.1 per match, plus 0.2 for a known primary emotion, plus 0.2
      when the critical tier fired, capped at 1. */
  function Confidence(count: nat, primaryKnown: bool, maxCategoryWeight: real): (c: real)
    ensures 0.5 <= c <= 1.0
  {
    Min(0.5 + count as real * 0.1 + (if primaryKnown then 0.2 else 0.0)
          + (if maxCategoryWeight > 0.8 then 0.2 else 0.0), 1.0)
  }

  method CalculateConfidence(keywordAnalysis: KeywordAnalysis, emotionalState: EmotionalState)
    returns (confidence: real)
    ensures confidence == Confidence(keywordAnalysis.count, emotionalState.primary.Some?,
                                     keywordAnalysis.maxCategoryWeight)
  {
    confidence := 0.5;
    confidence := confidence + keywordAnalysis.count as real * 0.1;
    if emotionalState.primary.Some? {
      confidence := confidence + 0.2;
    }
    if keywordAnalysis.maxCategoryWeight > 0.8 {
      confidence := confidence + 0.2;
    }
    confidence := Min(confidence, 1.0);
  }

  /** More matches never lower the confidence, and five matches reach the cap. */
  lemma ConfidenceMonotone(c1: nat, c2: nat, primaryKnown: bool, w: real)
    requires c1 <= c2
    ensures Confidence(c1, primaryKnown, w) <= Confidence(c2, primaryKnown, w)
    ensures c2 >= 5 ==> Confidence(c2, primaryKnown, w) == 1.0
  {
  }

  // ---------------------------------------------------------------------------
  // Interventions
  // ---------------------------------------------------------------------------

  datatype Intervention =
    | ImmediateProfessionalIntervention | CrisisHotlineContact | EmergencyServicesNotification
    | SafetyPlanning | RemoveLethalMeans
    | ProfessionalConsultation | CrisisHotlineProvision | SafetyAssessment | SupportSystemActivation
    | MentalHealthScreening | CounselingRecommendation | SupportResourcesProvision | FollowUpScheduled
    | EmotionalSupport | SelfHelpResources | WellnessActivities

  /** The ordered recommendations for a level: four for critical, high and
      medium, three for low; removing lethal means is added, last, only for a
      critical level with a plan. */
  function InterventionsFor(level: Level, hasPlan: bool): (r: seq<Intervention>)
    ensures |r| == (if level == Low then 3 else if level == Critical && hasPlan then 5 else 4)
    ensures RemoveLethalMeans in r <==> level == Critical && hasPlan
    ensures RemoveLethalMeans in r ==> r[|r| - 1] == RemoveLethalMeans
    ensures NoDuplicates(r)
  {
    match level
    case Critical =>
      [ImmediateProfessionalIntervention, CrisisHotlineContact, EmergencyServicesNotification, SafetyPlanning]
        + (if hasPlan then [RemoveLethalMeans] else [])
    case High =>
      [ProfessionalConsultation, CrisisHotlineProvision, SafetyAssessment, SupportSystemActivation]
    case Medium =>
      [MentalHealthScreening, CounselingRecommendation, SupportResourcesProvision, FollowUpScheduled]
    case Low =>
      [EmotionalSupport, SelfHelpResources, WellnessActivities]
  }

  method GenerateInterventions(riskLevel: Level, planAssessment: PlanAssessment)
    returns (interventions: seq<Intervention>)
    ensures interventions == InterventionsFor(riskLevel, planAssessment.hasPlan)
  {
    interventions := [];
    match riskLevel {
      case Critical =>
        interventions := interventions + [ImmediateProfessionalIntervention, CrisisHotlineContact,
                                          EmergencyServicesNotification, SafetyPlanning];
        if planAssessment.hasPlan {
          interventions := interventions + [RemoveLethalMeans];
        }
      case High =>
        interventions := interventions + [ProfessionalConsultation, CrisisHotlineProvision,
                                          SafetyAssessment, SupportSystemActivation];
      case Medium =>
        interventions := interventions + [MentalHealthScreening, CounselingRecommendation,
                                          SupportResourcesProvision, FollowUpScheduled];
      case Low =>
        interventions := interventions + [EmotionalSupport, SelfHelpResources, WellnessActivities];
    }
  }

  // ---------------------------------------------------------------------------
  // The whole assessment
  // ---------------------------------------------------------------------------

  datatype Assessment = Assessment(
    level: Level,
    score: real,
    confidence: real,
    keywordsDetected: seq<string>,
    suicidalIndicators: seq<string>,
    protectiveFactors: seq<string>,
    emotionalState: EmotionalState,
    interventions: seq<Intervention>,
    previousLevel: Option<string>,
    error: bool)

  /** The safe default returned when the assessment throws. */
  const FallbackAssessment: Assessment := Assessment(
    Medium, 0.5, 0.3, [], [], [], EmotionalState(None, map[], 0.0),
    [ProfessionalConsultation], None, true)

  /** The assessment of one utterance. `message` is None when the caller's
      value is not a string (null, a number, an object): reading it then
      throws and the fallback is returned. */
  function AssessmentOf(message: Option<string>, previousRiskLevel: string, conversationDepth: int): (a: Assessment)
    ensures a.error <==> message.None?
    ensures message.None? ==>
      && a.level == Medium && a.score == 0.5 && a.confidence == 0.3
      && a.keywordsDetected == [] && a.suicidalIndicators == [] && a.protectiveFactors == []
      && a.interventions == [ProfessionalConsultation]
    ensures 0.0 <= a.score <= 1.0 && a.level == DetermineRiskLevel(a.score)
  {
    match message
    case None => FallbackAssessment
    case Some(m) =>
      var text := Lower(m);
      AssessmentFrom(KeywordAnalysisOf(text, RiskTiers), AssessSuicidalPlan(text),
                     AssessProtectiveFactors(text), EmotionalStateOf(text, EmotionMap),
                     previousRiskLevel, conversationDepth)
  }

  /** The assessment the four analyses of a message add up to. */
  function AssessmentFrom(kw: KeywordAnalysis, plan: PlanAssessment, prot: ProtectiveAssessment,
                          emo: EmotionalState, previousRiskLevel: string, conversationDepth: int): Assessment
  {
    var score := RiskScore(kw.totalWeight, plan.score, emo.intensity, previousRiskLevel,
                           conversationDepth, prot.score);
    var level := DetermineRiskLevel(score);
    Assessment(level, score, Confidence(kw.count, emo.primary.Some?, kw.maxCategoryWeight),
               kw.detected, plan.indicators, prot.factors, emo,
               InterventionsFor(level, plan.hasPlan), Some(previousRiskLevel), false)
  }

  method AssessMessage(message: Option<string>, previousRiskLevel: string, conversationDepth: int)
    returns (result: Assessment)
    ensures result == AssessmentOf(message, previousRiskLevel, conversationDepth)
  {
    if message.None? {
      return FallbackAssessment;
    }
    var messageText := Lower(message.value);
    var keywordAnalysis := AnalyzeKeywords(messageText, RiskTiers);
    var planAssessment := AssessSuicidalPlan(messageText);
    var protectiveAssessment := AssessProtectiveFactors(messageText);
    var emotionalState := AnalyzeEmotionalState(messageText, EmotionMap);
    var riskScore := CalculateRiskScore(keywordAnalysis, planAssessment, protectiveAssessment,
                                        emotionalState, previousRiskLevel, conversationDepth);
    var riskLevel := DetermineRiskLevel(riskScore);
    var interventions := GenerateInterventions(riskLevel, planAssessment);
    var confidence := CalculateConfidence(keywordAnalysis, emotionalState);
    result := Assessment(riskLevel, riskScore, confidence, keywordAnalysis.detected,
                         planAssessment.indicators, protectiveAssessment.factors,
                         emotionalState, interventions, Some(previousRiskLevel), false);
  }

  /** Every assessment, fallback included, has its score in [0, 1], its
      confidence in [0.3, 1] (at least 0.5 unless it fell back), a level that
      is the bucketing of its score, and repetition-free evidence; it falls
      back exactly when the message is not a string. */
  lemma AssessmentInvariants(message: Option<string>, previousRiskLevel: string, conversationDepth: int)
    ensures var a := AssessmentOf(message, previousRiskLevel, conversationDepth);
      && 0.0 <= a.score <= 1.0
      && 0.3 <= a.confidence <= 1.0
      && (!a.error ==> 0.5 <= a.confidence)
      && a.level == DetermineRiskLevel(a.score)
      && (a.error <==> message.None?)
      && NoDuplicates(a.keywordsDetected)
      && (a.error ==> a.interventions == [ProfessionalConsultation])
      && (!a.error ==> a.interventions == InterventionsFor(a.level, a.suicidalIndicators != []))
  {
  }

  /** Safety floor: an explicit-intent phrase with no protective factor in the
      message gives at least a medium level; two of them give critical, with
      immediate professional intervention first. */
  lemma ExplicitIntentFloor(m: string, previousRiskLevel: string, conversationDepth: int)
    requires Fires(Lower(m), CriticalTier)
    requires Matches(Lower(m), ProtectiveFactors) == []
    ensures var a := AssessmentOf(Some(m), previousRiskLevel, conversationDepth);
      && Rank(a.level) >= Rank(Medium)
      && (|Found(Lower(m), CriticalTier)| >= 2 ==>
            a.level == Critical && a.interventions[0] == ImmediateProfessionalIntervention)
  {
    var text := Lower(m);
    var kw := KeywordAnalysisOf(text, RiskTiers);
    var plan := AssessSuicidalPlan(text);
    var prot := AssessProtectiveFactors(text);
    var emo := EmotionalStateOf(text, EmotionMap);
    CriticalTierWeight(text);
    IntensitySign(text, EmotionMap);
    assert prot.score == 0.0;
    FloorFrom(kw, plan, prot, emo, previousRiskLevel, conversationDepth);
    assert AssessmentOf(Some(m), previousRiskLevel, conversationDepth)
        == AssessmentFrom(kw, plan, prot, emo, previousRiskLevel, conversationDepth);
  }

  /** With no protection, a total weight of 1 gives at least medium, and a
      total weight of 2 gives critical with immediate professional
      intervention first. */
  lemma FloorFrom(kw: KeywordAnalysis, plan: PlanAssessment, prot: ProtectiveAssessment,
                  emo: EmotionalState, previousRiskLevel: string, conversationDepth: int)
    requires kw.totalWeight >= 1.0 && plan.score >= 0.0 && emo.intensity >= 0.0 && prot.score == 0.0
    ensures var a := AssessmentFrom(kw, plan, prot, emo, previousRiskLevel, conversationDepth);
      && Rank(a.level) >= Rank(Medium)
      && (kw.totalWeight >= 2.0 ==> a.level == Critical && a.interventions[0] == ImmediateProfessionalIntervention)
  {
    var score := RiskScore(kw.totalWeight, plan.score, emo.intensity, previousRiskLevel,
                           conversationDepth, prot.score);
    assert score >= 0.4;
    assert kw.totalWeight >= 2.0 ==> score >= 0.8;
  }

  /** A single explicit-intent phrase with no other signal, after a low
      previous level and a short conversation, scores exactly 0.5: medium,
      not critical. */
  lemma SingleIntentPhraseIsMedium(m: string)
    requires |Found(Lower(m), CriticalTier)| == 1
    requires !Fires(Lower(m), HighTier) && !Fires(Lower(m), MediumTier)
    requires Matches(Lower(m), PlanIndicators) == [] && Matches(Lower(m), ProtectiveFactors) == []
    requires forall j :: 0 <= j < |EmotionMap| ==> EmotionMatches(Lower(m), EmotionMap[j]) == []
    ensures AssessmentOf(Some(m), "low", 0).score == 0.5
    ensures AssessmentOf(Some(m), "low", 0).level == Medium
  {
    var text := Lower(m);
    var kw := KeywordAnalysisOf(text, RiskTiers);
    var plan := AssessSuicidalPlan(text);
    var prot := AssessProtectiveFactors(text);
    var emo := EmotionalStateOf(text, EmotionMap);
    SingleCriticalPhraseWeight(text);
    UnknownIffNoMatch(text, EmotionMap);
    IntensitySign(text, EmotionMap);
    assert kw.totalWeight == 1.0 && plan.score == 0.0 && prot.score == 0.0 && emo.intensity == 0.0;
    assert RiskScore(1.0, 0.0, 0.0, "low", 0, 0.0) == 0.5;
    assert AssessmentOf(Some(m), "low", 0) == AssessmentFrom(kw, plan, prot, emo, "low", 0);
  }

  /** One explicit-intent phrase and no other tier firing weigh exactly 1. */
  lemma SingleCriticalPhraseWeight(text: string)
    requires |Found(text, CriticalTier)| == 1
    requires !Fires(text, HighTier) && !Fires(text, MediumTier)
    ensures TotalWeight(text, RiskTiers) == 1.0
  {
    var t1 := RiskTiers[..1];
    var t2 := RiskTiers[..2];
    assert t1 == [CriticalTier] && t2 == [CriticalTier, HighTier];
    assert t1[..0] == [] && t2[..1] == t1;
    assert TotalWeight(text, t1) == Weighted(1.0, 1) == 1.0;
  }

  // ---------------------------------------------------------------------------
  // The previous-level lookup as written
  // ---------------------------------------------------------------------------

  /** What the object-literal lookup of the previous-level weight yields: a
      table entry, nothing, or an inherited member (a function or an object). */
  datatype Lookup = Entry(weight: real) | Missing | Inherited

  function PrevLevelLookup(prev: string): Lookup
  {
    if prev == "unknown" then Entry(0.0)
    else if prev == "low" then Entry(0.1)
    else if prev == "medium" then Entry(0.2)
    else if prev == "high" then Entry(0.3)
    else if prev == "critical" then Entry(0.4)
    else if IsPrototypeMember(prev) then Inherited
    else Missing
  }

  /** The score as the source computes it; None stands for NaN. An inherited
      member is truthy, so `|| 0` keeps it, the sum becomes a string, and the
      subtraction of the protection score turns it into NaN, which the
      clamping keeps. */
  function RiskScoreAsWritten(totalWeight: real, planScore: real, intensity: real,
                              prev: string, depth: int, protection: real): Option<real>
  {
    match PrevLevelLookup(prev)
    case Inherited => None
    case Entry(b) => Some(Max(0.0, Min(1.0, WeightedSum(totalWeight, planScore, intensity, b, depth, protection))))
    case Missing => Some(Max(0.0, Min(1.0, WeightedSum(totalWeight, planScore, intensity, 0.0, depth, protection))))
  }

  /** The bucketing as written: every comparison with NaN is false, so NaN is low. */
  function RiskLevelAsWritten(score: Option<real>): Level
  {
    match score
    case None => Low
    case Some(x) => DetermineRiskLevel(x)
  }

  /** The level the source assigns to a string message. */
  function AssessedLevelAsWritten(m: string, previousRiskLevel: string, conversationDepth: int): Level
  {
    var text := Lower(m);
    var kw := KeywordAnalysisOf(text, RiskTiers);
    var emo := EmotionalStateOf(text, EmotionMap);
    RiskLevelAsWritten(RiskScoreAsWritten(kw.totalWeight, AssessSuicidalPlan(text).score, emo.intensity,
                                          previousRiskLevel, conversationDepth,
                                          AssessProtectiveFactors(text).score))
  }

  /** Outside the inherited names the as-written score is the corrected one. */
  lemma AsWrittenAgreesOffPrototype(tw: real, plan: real, intensity: real, prev: string, depth: int, prot: real)
    requires !IsPrototypeMember(prev)
    ensures RiskScoreAsWritten(tw, plan, intensity, prev, depth, prot) == Some(RiskScore(tw, plan, intensity, prev, depth, prot))
  {
  }

  /** The discrepancy: with "constructor" as the previous level, a message with
      two explicit-intent phrases and no protective factor is assessed low as
      written, while the corrected lookup (weight 0 for any name outside the
      table) assesses it critical. */
  lemma PrototypePreviousLevelMasksIntent(m: string, conversationDepth: int)
    requires |Found(Lower(m), CriticalTier)| >= 2
    requires Matches(Lower(m), ProtectiveFactors) == []
    ensures AssessedLevelAsWritten(m, "constructor", conversationDepth) == Low
    ensures AssessmentOf(Some(m), "constructor", conversationDepth).level == Critical
  {
    ExplicitIntentFloor(m, "constructor", conversationDepth);
    ConstructorIsInherited();
    InheritedPreviousLevelIsLow(m, "constructor", conversationDepth);
  }

  /** "constructor" is not in the table but every object answers it. */
  lemma ConstructorIsInherited()
    ensures PrevLevelLookup("constructor") == Inherited
  {
    assert IsPrototypeMember("constructor");
  }

  /** Any inherited name as the previous level makes the as-written level low. */
  lemma InheritedPreviousLevelIsLow(m: string, previousRiskLevel: string, conversationDepth: int)
    requires PrevLevelLookup(previousRiskLevel) == Inherited
    ensures AssessedLevelAsWritten(m, previousRiskLevel, conversationDepth) == Low
  {
  }
}
