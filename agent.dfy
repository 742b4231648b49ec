/** The dialogue agent of server/services/agentService.js: its own keyword
    tiering and emotion detector, the conversation-stage state machine, the
    priority rule that picks the reply text, the service recommendations and
    the safe fallback reply. The template index drawn with Math.random is a
    parameter `draw` in [0, 1). */
module Agent {
  import opened Common

  // ---------------------------------------------------------------------------
  // Tables
  // ---------------------------------------------------------------------------

  datatype Stage = Initial | Exploration | Assessment | Support | Crisis

  datatype Emotion = Sadness | Anxiety | Anger | Loneliness | Hopelessness

  /** Position of an emotion in the declaration order of the detector. */
  function Position(e: Emotion): nat
  {
    match e
    case Sadness => 0
    case Anxiety => 1
    case Anger => 2
    case Loneliness => 3
    case Hopelessness => 4
  }

  datatype EmotionCategory = EmotionCategory(emotion: Emotion, keywords: seq<string>)

  const EmotionTable: seq<EmotionCategory> := [
    EmotionCategory(Sadness, ["难过", "伤心", "悲伤", "沮丧", "失落", "痛苦", "心痛"]),
    EmotionCategory(Anxiety, ["焦虑", "担心", "紧张", "害怕", "恐惧", "不安", "压力"]),
    EmotionCategory(Anger, ["愤怒", "生气", "气愤", "恼火", "暴躁", "火大", "讨厌"]),
    EmotionCategory(Loneliness, ["孤独", "寂寞", "独自", "没人", "一个人", "孤单", "无人"]),
    EmotionCategory(Hopelessness, ["绝望", "没希望", "没意义", "没用", "放弃", "算了", "无望"])
  ]

  /** Screening phrases whose presence makes the message critical. */
  const HighRiskKeywords: seq<string> := ["自杀", "死", "结束生命", "不想活", "离开这个世界"]

  /** Screening phrases whose presence, without a critical one, makes it high. */
  const MediumRiskKeywords: seq<string> := ["没意义", "绝望", "解脱", "消失", "结束一切"]

  const HopelessnessLine: string := "我听到了你的痛苦，这些感受一定很难承受。你现在身边有人可以陪伴你吗？"
  const LonelinessLine: string := "感到孤独真的很不容易，但现在你不是一个人了。愿意告诉我更多吗？"
  const AnxietyLine: string := "我能感受到你的担忧和不安。是什么事情让你特别焦虑呢？"
  const SadnessLine: string := "听起来你现在很难过，我想更好地了解发生了什么。"
  const SafetyLine: string := "我很担心你现在的安全。你能告诉我你现在在哪里吗？让我们一起找到可以帮助你的人。"
  const FallbackContent: string := "我想更好地理解你现在的感受。可以告诉我你现在最担心的是什么吗？"

  /** The template pool of each stage. */
  function Templates(stage: Stage): (t: seq<string>)
    ensures |t| == 4
  {
    match stage
    case Initial => [
      "我能感受到你现在可能不太好，如果愿意的话，可以跟我说说发生了什么吗？",
      "看起来你正在经历一些困难，我很想听听你的感受。",
      "感谢你愿意和我交流。你现在的心情怎么样？",
      "我注意到你可能需要有人倾听，我在这里陪着你。"]
    case Exploration => [
      "这听起来真的很不容易，能告诉我这种感觉持续多久了吗？",
      "我能理解这对你来说很困难。最近有什么特别的事情让你感到困扰吗？",
      "你提到的感受我能感同身受。平时有没有人可以和你聊这些？",
      "听起来你承受了很多。除了这个，还有其他让你担心的事情吗？"]
    case Assessment => [
      "我很担心你现在的状况。你有没有想过要伤害自己？",
      "这些困难让你感到绝望吗？有没有想要结束一切的念头？",
      "你现在身边有人可以陪伴你吗？",
      "这样的感觉是不是让你觉得很孤单？"]
    case Support => [
      "我听到了你的痛苦，你不是一个人在面对这些。",
      "感谢你和我分享这些，能够说出来已经很勇敢了。",
      "你已经迈出了很重要的一步，愿意寻求帮助。",
      "这确实很困难，但我们可以一起找到一些支持的方式。"]
    case Crisis => [
      "我非常担心你现在的安全。你现在在哪里？身边有人吗？",
      "我希望你能保证现在的安全。让我们联系一些可以立即帮助你的人。",
      "你现在的感受我理解，但我真的很担心你。我们需要确保你是安全的。",
      "这一刻很艰难，但请相信会有转机。让我帮你联系专业的帮助。"]
  }

  datatype ServiceType = EmergencyService | AssessmentService | SupportService | LocationService

  datatype Service = Service(kind: ServiceType, caption: string, priority: nat)  // the source's type, label, priority

  /** The recommendations per analysed level. */
  function ServiceTable(level: Level): seq<Service>
  {
    match level
    case Low => []
    case Medium => [Service(AssessmentService, "专业心理评估", 1), Service(SupportService, "同伴支持群组", 2)]
    case High => [Service(EmergencyService, "联系紧急热线", 1), Service(AssessmentService, "紧急心理评估", 2)]
    case Critical => [Service(EmergencyService, "立即拨打求助热线", 1), Service(LocationService, "获取位置并联系紧急服务", 2)]
  }

  /** The list every crisis-stage reply recommends. */
  const CrisisServices: seq<Service> :=
    [Service(EmergencyService, "立即联系危机热线", 1), Service(LocationService, "获取紧急帮助", 2)]

  // ---------------------------------------------------------------------------
  // Message analysis
  // ---------------------------------------------------------------------------

  /** The emotions of `cats` some phrase of which occurs, in the order of `cats`. */
  function DetectedEmotionsOf(text: string, cats: seq<EmotionCategory>): (r: seq<Emotion>)
    ensures |r| <= |cats|
    decreases |cats|
  {
    if cats == [] then []
    else
      var c := cats[|cats| - 1];
      DetectedEmotionsOf(text, cats[..|cats| - 1]) + (if SomeOccurs(text, c.keywords) then [c.emotion] else [])
  }

  /** `e` is the emotion of a category of `cats` one of whose phrases occurs. */
  predicate Signalled(text: string, cats: seq<EmotionCategory>, e: Emotion)
  {
    exists i :: 0 <= i < |cats| && cats[i].emotion == e && SomeOccurs(text, cats[i].keywords)
  }

  lemma {:induction false} DetectedMembership(text: string, cats: seq<EmotionCategory>, e: Emotion)
    ensures e in DetectedEmotionsOf(text, cats) <==> Signalled(text, cats, e)
    decreases |cats|
  {
    if cats != [] {
      var n := |cats| - 1;
      var c := cats[n];
      DetectedMembership(text, cats[..n], e);
      SignalledExtend(text, cats, e);
      var d := DetectedEmotionsOf(text, cats[..n]);
      assert DetectedEmotionsOf(text, cats) == d + (if SomeOccurs(text, c.keywords) then [c.emotion] else []);
    }
  }

  /** An emotion is signalled by a list of categories exactly when it is
      signalled by all but the last, or by the last. */
  lemma SignalledExtend(text: string, cats: seq<EmotionCategory>, e: Emotion)
    requires cats != []
    ensures var n := |cats| - 1;
      Signalled(text, cats, e) <==>
        Signalled(text, cats[..n], e) || (cats[n].emotion == e && SomeOccurs(text, cats[n].keywords))
  {
    var n := |cats| - 1;
    var init := cats[..n];
    if Signalled(text, cats, e) {
      var i :| 0 <= i < |cats| && cats[i].emotion == e && SomeOccurs(text, cats[i].keywords);
      if i < n {
        assert init[i] == cats[i];
      }
    }
    if Signalled(text, init, e) {
      var i :| 0 <= i < |init| && init[i].emotion == e && SomeOccurs(text, init[i].keywords);
      assert cats[i] == init[i];
    }
  }

  predicate InDeclarationOrder(es: seq<Emotion>)
  {
    forall i, j :: 0 <= i < j < |es| ==> Position(es[i]) < Position(es[j])
  }

  /** Scanning categories in declaration order lists each emotion at most
      once, in that order. */
  lemma {:induction false} DetectedInOrder(text: string, cats: seq<EmotionCategory>)
    requires forall i, j :: 0 <= i < j < |cats| ==> Position(cats[i].emotion) < Position(cats[j].emotion)
    ensures InDeclarationOrder(DetectedEmotionsOf(text, cats))
    decreases |cats|
  {
    if cats != [] {
      var n := |cats| - 1;
      var init := cats[..n];
      var d := DetectedEmotionsOf(text, init);
      DetectedInOrder(text, init);
      forall k | 0 <= k < |d|
        ensures Position(d[k]) < Position(cats[n].emotion)
      {
        DetectedMembership(text, init, d[k]);
        var i :| 0 <= i < |init| && init[i].emotion == d[k] && SomeOccurs(text, init[i].keywords);
        assert cats[i] == init[i];
      }
    }
  }

  /** The detector's emotions are repetition-free and in declaration order,
      and an emotion is listed exactly when one of its phrases occurs. */
  lemma DetectedEmotionsShape(text: string, e: Emotion)
    ensures InDeclarationOrder(DetectedEmotionsOf(text, EmotionTable))
    ensures NoDuplicates(DetectedEmotionsOf(text, EmotionTable))
    ensures e in DetectedEmotionsOf(text, EmotionTable) <==> Signalled(text, EmotionTable, e)
  {
    DetectedInOrder(text, EmotionTable);
    DetectedMembership(text, EmotionTable, e);
  }

  /** The level the screening phrases decide, with the phrases of the deciding tier. */
  datatype Tiering = Tiering(level: Level, keywords: seq<string>)

  function TieringOf(text: string, emotions: seq<Emotion>): (t: Tiering)
    ensures t.level == Critical ==> SomeOccurs(text, HighRiskKeywords) && t.keywords != []
    ensures t.level == High ==> !SomeOccurs(text, HighRiskKeywords) && t.keywords != []
    ensures t.level == Medium ==> Hopelessness in emotions
    ensures Rank(t.level) <= 1 <==> t.keywords == []
  {
    if SomeOccurs(text, HighRiskKeywords) then Tiering(Critical, Matches(text, HighRiskKeywords))
    else if SomeOccurs(text, MediumRiskKeywords) then Tiering(High, Matches(text, MediumRiskKeywords))
    else if Hopelessness in emotions then Tiering(Medium, [])
    else Tiering(Low, [])
  }

  /** Critical exactly when a critical phrase occurs; high exactly when none
      does but a high one does; medium exactly when neither does and
      hopelessness was detected; and the risk keywords are exactly the
      occurring phrases of the tier that decided. */
  lemma TieringSemantics(text: string, emotions: seq<Emotion>, k: string)
    ensures var t := TieringOf(text, emotions);
      var high := exists h :: h in HighRiskKeywords && Contains(text, h);
      var medium := exists h :: h in MediumRiskKeywords && Contains(text, h);
      && (t.level == Critical <==> high)
      && (t.level == High <==> !high && medium)
      && (t.level == Medium <==> !high && !medium && Hopelessness in emotions)
      && (t.level == Critical ==> (k in t.keywords <==> k in HighRiskKeywords && Contains(text, k)))
      && (t.level == High ==> (k in t.keywords <==> k in MediumRiskKeywords && Contains(text, k)))
      && (Rank(t.level) <= 1 ==> t.keywords == [])
  {
    SomeOccursIff(text, HighRiskKeywords);
    SomeOccursIff(text, MediumRiskKeywords);
    MatchesMembership(text, HighRiskKeywords);
    MatchesMembership(text, MediumRiskKeywords);
  }

  datatype Analysis = Analysis(
    detectedEmotions: seq<Emotion>,
    riskKeywords: seq<string>,
    riskLevel: Level,
    confidence: real,
    messageLength: nat)

  /** 0.5, plus 0.1 per emotion and 0.3 per risk keyword, plus 0.1 past 50
      characters and 0.1 more past 200, plus 0.05 per turn of depth up to
      0.2, capped at 1. */
  function AgentConfidence(emotionCount: nat, riskKeywordCount: nat, messageLength: nat, depth: int): (c: real)
    ensures c <= 1.0
    ensures depth >= 0 ==> 0.5 <= c
  {
    Min(0.5 + emotionCount as real * 0.1 + riskKeywordCount as real * 0.3
          + (if messageLength > 50 then 0.1 else 0.0) + (if messageLength > 200 then 0.1 else 0.0)
          + Min(depth as real * 0.05, 0.2), 1.0)
  }

  method CalculateConfidence(emotionCount: nat, riskKeywordCount: nat, messageLength: nat, conversationDepth: int)
    returns (confidence: real)
    ensures confidence == AgentConfidence(emotionCount, riskKeywordCount, messageLength, conversationDepth)
  {
    confidence := 0.5;
    confidence := confidence + emotionCount as real * 0.1;
    confidence := confidence + riskKeywordCount as real * 0.3;
    if messageLength > 50 {
      confidence := confidence + 0.1;
    }
    if messageLength > 200 {
      confidence := confidence + 0.1;
    }
    confidence := confidence + Min(conversationDepth as real * 0.05, 0.2);
    confidence := Min(confidence, 1.0);
  }

  /** More evidence never lowers the confidence, and two risk keywords saturate it. */
  lemma AgentConfidenceMonotone(e1: nat, e2: nat, r1: nat, r2: nat, len: nat, depth: int)
    requires e1 <= e2 && r1 <= r2
    ensures AgentConfidence(e1, r1, len, depth) <= AgentConfidence(e2, r2, len, depth)
    ensures depth >= 0 && r2 >= 2 ==> AgentConfidence(e2, r2, len, depth) == 1.0
  {
  }

  /** The analysis of one message: its emotions, the deciding tier's phrases
      and level, the confidence and the message length. */
  function AnalysisOf(message: string, conversationDepth: int): (a: Analysis)
    ensures a.messageLength == |message|
    ensures |a.detectedEmotions| <= |EmotionTable|
    ensures a.confidence <= 1.0 && (conversationDepth >= 0 ==> 0.5 <= a.confidence)
    ensures Rank(a.riskLevel) >= 2 <==> a.riskKeywords != []
  {
    var text := Lower(message);
    var emotions := DetectedEmotionsOf(text, EmotionTable);
    var t := TieringOf(text, emotions);
    Analysis(emotions, t.keywords, t.level,
             AgentConfidence(|emotions|, |t.keywords|, |message|, conversationDepth), |message|)
  }

  /** The detector's loop over the emotion categories. */
  method DetectEmotions(text: string, cats: seq<EmotionCategory>) returns (detectedEmotions: seq<Emotion>)
    ensures detectedEmotions == DetectedEmotionsOf(text, cats)
  {
    detectedEmotions := [];
    for i := 0 to |cats|
      invariant detectedEmotions == DetectedEmotionsOf(text, cats[..i])
    {
      assert cats[..i + 1][..i] == cats[..i];
      if SomeOccurs(text, cats[i].keywords) {
        detectedEmotions := detectedEmotions + [cats[i].emotion];
      }
    }
    assert cats[..|cats|] == cats;
  }

  method AnalyzeMessage(message: string, conversationDepth: int) returns (a: Analysis)
    ensures a == AnalysisOf(message, conversationDepth)
  {
    var messageText := Lower(message);
    var detectedEmotions := DetectEmotions(messageText, EmotionTable);
    var riskKeywords: seq<string> := [];
    var riskLevel := Low;
    if SomeOccurs(messageText, HighRiskKeywords) {
      riskLevel := Critical;
      riskKeywords := riskKeywords + Matches(messageText, HighRiskKeywords);
    } else if SomeOccurs(messageText, MediumRiskKeywords) {
      riskLevel := High;
      riskKeywords := riskKeywords + Matches(messageText, MediumRiskKeywords);
    } else if Hopelessness in detectedEmotions {
      riskLevel := Medium;
    }
    var confidence := CalculateConfidence(|detectedEmotions|, |riskKeywords|, |message|, conversationDepth);
    a := Analysis(detectedEmotions, riskKeywords, riskLevel, confidence, |message|);
  }

  // ---------------------------------------------------------------------------
  // Stage, content, services
  // ---------------------------------------------------------------------------

  /** The stage: crisis when the analysed or the caller's level is critical,
      else assessment when either is high, else by depth. */
  function ConversationStage(level: Level, currentRiskLevel: string, depth: int): (s: Stage)
    ensures s == Crisis <==> level == Critical || currentRiskLevel == "critical"
    ensures (level == High || currentRiskLevel == "high") && s != Crisis ==> s == Assessment
  {
    if level == Critical || currentRiskLevel == "critical" then Crisis
    else if level == High || currentRiskLevel == "high" then Assessment
    else if depth == 0 then Initial
    else if depth < 3 then Exploration
    else if depth < 6 then Assessment
    else Support
  }

  /** Without a critical or high level the stage advances with depth: initial
      at 0, exploration up to 2, assessment up to 5, support from 6. */
  lemma StageByDepth(level: Level, currentRiskLevel: string, depth: int)
    requires Rank(level) <= 1 && currentRiskLevel != "critical" && currentRiskLevel != "high"
    ensures var s := ConversationStage(level, currentRiskLevel, depth);
      && (s == Initial <==> depth == 0)
      && (0 < depth < 3 ==> s == Exploration)
      && (s == Assessment <==> 3 <= depth < 6)
      && (s == Support <==> depth >= 6)
  {
  }

  /** The reply text: the fixed hopelessness, loneliness, anxiety and sadness
      lines in that priority; then, in the crisis stage, the safety line when
      '自杀' or '死' was among the risk keywords; otherwise the template the
      draw picks from the stage's pool. */
  function ResponseContent(a: Analysis, stage: Stage, draw: real): string
    requires 0.0 <= draw < 1.0
  {
    var templates := Templates(stage);
    if Hopelessness in a.detectedEmotions then HopelessnessLine
    else if Loneliness in a.detectedEmotions then LonelinessLine
    else if Anxiety in a.detectedEmotions then AnxietyLine
    else if Sadness in a.detectedEmotions then SadnessLine
    else if stage == Crisis && ("自杀" in a.riskKeywords || "死" in a.riskKeywords) then SafetyLine
    else templates[PickIndex(draw, |templates|)]
  }

  /** The five fixed lines differ from each other. */
  lemma FixedLinesDistinct()
    ensures HopelessnessLine != LonelinessLine && HopelessnessLine != AnxietyLine
      && HopelessnessLine != SadnessLine && HopelessnessLine != SafetyLine
      && LonelinessLine != AnxietyLine && LonelinessLine != SadnessLine && LonelinessLine != SafetyLine
      && AnxietyLine != SadnessLine && AnxietyLine != SafetyLine && SadnessLine != SafetyLine
  {
    assert |HopelessnessLine| == 34 && |LonelinessLine| == 31 && |AnxietyLine| == 26;
    assert |SadnessLine| == 23 && |SafetyLine| == 39;
  }

  /** No template of a stage is one of the five fixed lines, so the reply
      tells which branch produced it. */
  lemma TemplatesApart(stage: Stage, k: nat)
    requires k < 4
    ensures Templates(stage)[k] !in [HopelessnessLine, LonelinessLine, AnxietyLine, SadnessLine, SafetyLine]
  {
    var t := Templates(stage)[k];
    match stage
    case Initial =>
      assert HopelessnessLine[1] != Templates(Initial)[0][1];
      assert SadnessLine[0] != Templates(Initial)[1][0];
    case Exploration =>
      assert AnxietyLine[0] != Templates(Exploration)[0][0];
      assert LonelinessLine[0] != Templates(Exploration)[1][0];
    case Assessment =>
      assert SadnessLine[0] != Templates(Assessment)[0][0];
    case Support =>
    case Crisis =>
      assert LonelinessLine[0] != Templates(Crisis)[2][0];
  }

  /** No template of a stage is any of the five fixed lines. */
  lemma AllTemplatesApart(stage: Stage)
    ensures forall t :: t in Templates(stage) ==>
      t !in [HopelessnessLine, LonelinessLine, AnxietyLine, SadnessLine, SafetyLine]
  {
    forall k | 0 <= k < 4
      ensures Templates(stage)[k] !in [HopelessnessLine, LonelinessLine, AnxietyLine, SadnessLine, SafetyLine]
    {
      TemplatesApart(stage, k);
    }
  }

  /** The priority of the reply: the hopelessness line exactly when
      hopelessness is detected; the loneliness, anxiety and sadness lines
      exactly when their emotion is the first of that order detected; the
      safety line exactly when none of the four is, the stage is crisis and
      '自杀' or '死' is a risk keyword; a template of the stage's pool exactly
      when no fixed line applies. */
  lemma ContentPriority(a: Analysis, stage: Stage, draw: real)
    requires 0.0 <= draw < 1.0
    ensures var e, r := a.detectedEmotions, ResponseContent(a, stage, draw);
      && (r == HopelessnessLine <==> Hopelessness in e)
      && (r == LonelinessLine <==> Hopelessness !in e && Loneliness in e)
      && (r == AnxietyLine <==> Hopelessness !in e && Loneliness !in e && Anxiety in e)
      && (r == SadnessLine <==> Hopelessness !in e && Loneliness !in e && Anxiety !in e && Sadness in e)
      && (r == SafetyLine <==>
            Hopelessness !in e && Loneliness !in e && Anxiety !in e && Sadness !in e
            && stage == Crisis && ("自杀" in a.riskKeywords || "死" in a.riskKeywords))
      && (r in Templates(stage) <==> r !in [HopelessnessLine, LonelinessLine, AnxietyLine, SadnessLine, SafetyLine])
  {
    FixedLinesDistinct();
    AllTemplatesApart(stage);
    var e, r := a.detectedEmotions, ResponseContent(a, stage, draw);
    if Hopelessness in e {
      assert r == HopelessnessLine;
    } else if Loneliness in e {
      assert r == LonelinessLine;
    } else if Anxiety in e {
      assert r == AnxietyLine;
    } else if Sadness in e {
      assert r == SadnessLine;
    } else if stage == Crisis && ("自杀" in a.riskKeywords || "死" in a.riskKeywords) {
      assert r == SafetyLine;
    } else {
      assert r in Templates(stage);
    }
  }

  /** A fixed line does not depend on the draw, and when no fixed line applies
      every template of the stage is the reply for some draw. */
  lemma ContentChoice(a: Analysis, stage: Stage, d1: real, d2: real, k: nat)
    requires 0.0 <= d1 < 1.0 && 0.0 <= d2 < 1.0 && k < 4
    ensures var fixedLine := Hopelessness in a.detectedEmotions || Loneliness in a.detectedEmotions
        || Anxiety in a.detectedEmotions || Sadness in a.detectedEmotions
        || (stage == Crisis && ("自杀" in a.riskKeywords || "死" in a.riskKeywords));
      && (fixedLine ==> ResponseContent(a, stage, d1) == ResponseContent(a, stage, d2))
      && (!fixedLine ==> ResponseContent(a, stage, k as real / 4.0) == Templates(stage)[k])
  {
    var x := k as real / 4.0 * 4 as real;
    assert x == k as real;
    assert x.Floor == k;
  }

  /** The recommendations: the fixed crisis list in the crisis stage, the
      table entry of the analysed level otherwise. Every list is numbered
      1, 2, ... in order; it is empty only for a low level outside the crisis
      stage; and an emergency contact comes first in the crisis stage or at a
      high or critical level. */
  function RecommendServices(level: Level, stage: Stage): (r: seq<Service>)
    ensures stage == Crisis ==> r == CrisisServices
    ensures forall i :: 0 <= i < |r| ==> r[i].priority == i + 1
    ensures r == [] <==> level == Low && stage != Crisis
    ensures stage == Crisis || Rank(level) >= 2 ==> r[0].kind == EmergencyService
  {
    if stage == Crisis then CrisisServices else ServiceTable(level)
  }

  // ---------------------------------------------------------------------------
  // The reply
  // ---------------------------------------------------------------------------

  datatype Response =
    | Reply(content: string, suggestedServices: seq<Service>, stage: Stage,
            emotionDetected: bool, riskKeywords: seq<string>, confidence: real)
    | FallbackReply   // fixed content, no services, stage 'fallback', error flag set

  function Content(r: Response): string
  {
    if r.Reply? then r.content else FallbackContent
  }

  function SuggestedServices(r: Response): seq<Service>
  {
    if r.Reply? then r.suggestedServices else []
  }

  /** The reply to one message. `message` is None when the caller's value is
      not a string: reading it then throws and the fallback reply, with the
      fixed content and no services, is sent, and only then. */
  function ResponseOf(message: Option<string>, conversationDepth: int, riskLevel: string, draw: real): (r: Response)
    requires 0.0 <= draw < 1.0
    ensures r.FallbackReply? <==> message.None?
    ensures r.FallbackReply? ==> Content(r) == FallbackContent && SuggestedServices(r) == []
    ensures r.Reply? ==> (r.stage == Crisis <==> r.suggestedServices == CrisisServices)
  {
    match message
    case None => FallbackReply
    case Some(m) =>
      var a := AnalysisOf(m, conversationDepth);
      var stage := ConversationStage(a.riskLevel, riskLevel, conversationDepth);
      Reply(ResponseContent(a, stage, draw), RecommendServices(a.riskLevel, stage), stage,
            |a.detectedEmotions| > 0, a.riskKeywords, a.confidence)
  }

  method GenerateResponse(message: Option<string>, conversationDepth: int, riskLevel: string, draw: real)
    returns (response: Response)
    requires 0.0 <= draw < 1.0
    ensures response == ResponseOf(message, conversationDepth, riskLevel, draw)
  {
    if message.None? {
      return FallbackReply;
    }
    var analysis := AnalyzeMessage(message.value, conversationDepth);
    var stage := ConversationStage(analysis.riskLevel, riskLevel, conversationDepth);
    var responseContent := ResponseContent(analysis, stage, draw);
    var suggestedServices := RecommendServices(analysis.riskLevel, stage);
    response := Reply(responseContent, suggestedServices, stage, |analysis.detectedEmotions| > 0,
                      analysis.riskKeywords, analysis.confidence);
  }

  /** A caller-side level of 'critical' forces the crisis stage and the crisis
      services, whatever the message says. */
  lemma PriorCriticalForcesCrisis(m: string, conversationDepth: int, draw: real)
    requires 0.0 <= draw < 1.0
    ensures var r := ResponseOf(Some(m), conversationDepth, "critical", draw);
      r.Reply? && r.stage == Crisis && r.suggestedServices == CrisisServices
  {
  }

  /** A message mentioning '自杀' is answered in the crisis stage with the
      crisis services, and with the safety line unless a fixed emotion line
      takes precedence. */
  lemma SuicideMentionGetsSafetyLine(m: string, conversationDepth: int, riskLevel: string, draw: real)
    requires 0.0 <= draw < 1.0
    requires Contains(Lower(m), "自杀")
    ensures var r := ResponseOf(Some(m), conversationDepth, riskLevel, draw);
      var a := AnalysisOf(m, conversationDepth);
      && r.Reply? && r.stage == Crisis && r.suggestedServices == CrisisServices
      && "自杀" in r.riskKeywords
      && ((forall e :: e in a.detectedEmotions ==> e == Anger) ==> r.content == SafetyLine)
  {
    var text := Lower(m);
    MatchesMembership(text, HighRiskKeywords);
    assert "自杀" in Matches(text, HighRiskKeywords);
    var emotions := DetectedEmotionsOf(text, EmotionTable);
    var t := TieringOf(text, emotions);
    assert t == Tiering(Critical, Matches(text, HighRiskKeywords));
    var a := AnalysisOf(m, conversationDepth);
    assert a.riskLevel == Critical && a.riskKeywords == t.keywords && a.detectedEmotions == emotions;
    assert ConversationStage(a.riskLevel, riskLevel, conversationDepth) == Crisis;
    if forall e :: e in emotions ==> e == Anger {
      assert Hopelessness !in emotions && Loneliness !in emotions;
      assert Anxiety !in emotions && Sadness !in emotions;
      assert ResponseContent(a, Crisis, draw) == SafetyLine;
    }
  }

  /** The critical row of the service table is never sent: a critical
      analysis always means the crisis stage, which sends its own list. */
  lemma CriticalTableRowUnreachable(message: Option<string>, conversationDepth: int, riskLevel: string, draw: real)
    requires 0.0 <= draw < 1.0
    ensures SuggestedServices(ResponseOf(message, conversationDepth, riskLevel, draw)) != ServiceTable(Critical)
  {
  }
}
