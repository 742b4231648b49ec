/** The sticker helpers of src/utils/emojiConfig.js: the category table,
    parsing and removal of `emoji:<name>` instructions, the category-scoring
    rule that picks a sticker for a message, the scenario table and the
    sticker-message constructor. The two Math.random draws (the 5% gate and
    the pick within a category) are parameters in [0, 1). */
module Emoji {
  import opened Common

  // ---------------------------------------------------------------------------
  // Category table
  // ---------------------------------------------------------------------------

  datatype EmotionType = Positive | Negative | Neutral

  /** A sticker category: its key, its folder, its files, the phrases that
      favour it, its base weight and its emotional tone. */
  datatype Category = Category(name: string, path: string, emojis: seq<string>,
                               contexts: seq<string>, weight: real, emotionType: EmotionType)

  /** The categories in declaration order, which is the order they are scored in. */
  const EmojiCategories: seq<Category> := [
    Category("comfort", "/emojis/comfort",
      ["Soft and Cute Chick 4 (Animation) _ Line Sticker.gif", "comfort-1.gif", "comfort-2.gif",
       "comfort-3.gif", "comfort-4.gif", "comfort-5.gif", "comfort-6.gif", "comfort-7.gif",
       "comfort-9.gif", "comfort-10.gif", "comfort-11.gif", "daily-penguin-2.gif",
       "gentle-penguin.gif", "love-hearts.gif", "pet-dog.gif", "warm-penguin-2.gif"],
      ["安慰", "理解", "倾听", "同情", "抑郁", "焦虑", "难过", "痛苦", "支持"],
      0.9, Positive),
    Category("encourage", "/emojis/encourage",
      ["comfort-7.gif", "cute-chick.gif", "encourage-1.jpg", "encourage-2.gif", "good-job-tea.gif",
       "happy-dog.gif", "spring-penguin-1.gif", "spring-scene.gif"],
      ["鼓励", "加油", "坚持", "进步", "勇敢", "辛苦了", "做得好", "继续"],
      0.8, Positive),
    Category("hug", "/emojis/hug",
      ["hug-1.jpeg", "hug-2.jpg", "hug-3.gif", "hug-4.gif", "hug-5.jpg", "hug-6.gif", "hug-7.gif"],
      ["拥抱", "安慰", "支持", "陪伴", "温暖", "不孤单", "在身边"],
      0.7, Positive),
    Category("relax", "/emojis/relax",
      ["daily-penguin-1.gif", "hot-spring.gif", "relax-1.gif", "relax-2.gif", "relax-3.gif",
       "rest-well-cats.gif", "spring-penguin-2.gif", "warm-penguin-1.gif"],
      ["放松", "休息", "冥想", "治愈", "缓解", "泡温泉", "睡觉"],
      0.6, Positive),
    Category("youaregreat", "/emojis/youaregreat",
      ["great-1.gif", "great-2.gif", "great-3.jpeg", "great-4.gif", "great-5.jpeg", "great-6.gif"],
      ["很棒", "厉害", "优秀", "赞", "好样的", "了不起", "真棒"],
      0.7, Positive),
    Category("heart", "/emojis/heart",
      ["heart-1.gif", "heart-2.gif", "heart-3.gif", "heart-4.gif", "heart-5.gif"],
      ["爱", "心", "温暖", "喜欢", "关心", "心疼", "爱心"],
      0.6, Positive),
    Category("laugh", "/emojis/laugh",
      ["laugh-1.gif", "laugh-2.gif", "laugh-3.gif"],
      ["笑", "哈哈", "开心", "快乐", "幽默", "有趣", "好笑"],
      0.8, Positive),
    Category("ok", "/emojis/ok",
      ["ok-1.gif", "ok-2.gif", "ok-3.gif", "ok-4.gif", "ok-5.gif"],
      ["好的", "行", "可以", "同意", "没问题", "ok", "赞同"],
      0.5, Positive),
    Category("playwithyou", "/emojis/playwithyou",
      ["play-1.gif", "play-2.gif", "play-3.gif", "play-4.gif", "play-5.gif", "play-6.gif"],
      ["玩", "游戏", "娱乐", "一起", "互动", "有趣", "放松一下"],
      0.4, Positive),
    Category("workout", "/emojis/workout",
      ["workout-1.gif", "workout-2.gif", "workout-3.jpeg", "workout-4.jpeg", "workout-5.jpeg",
       "workout-6.jpeg", "workout-7.jpeg"],
      ["运动", "锻炼", "健身", "活力", "健康", "跑步", "瑜伽"],
      0.3, Positive),
    Category("caring", "/emojis/caring",
      ["are-you-ok.gif"],
      ["关心", "关爱", "还好吗", "担心", "牵挂", "照顾"],
      0.8, Positive),
    Category("greeting", "/emojis/greeting",
      ["hello-1.jpg", "hello-2.jpeg", "hello-3.gif", "hello-4.gif", "hello-5.gif", "hello-6.gif"],
      ["你好", "打招呼", "问候", "早上好", "开始对话", "hi", "hello"],
      0.4, Positive),
    Category("goodnight", "/emojis/goodnight",
      ["goodnight-1.gif", "goodnight-2.gif", "goodnight-3.gif", "goodnight-4.gif",
       "goodnight-5.gif", "goodnight-6.gif"],
      ["晚安", "睡觉", "休息", "结束", "明天见", "好梦"],
      0.5, Positive),
    Category("feelingsad", "/emojis/feelingsad",
      ["sad-1.gif", "sad-2.jpeg", "sad-3.gif", "sad-4.gif", "sad-5.gif", "sad-6.gif", "sad-7.jpeg",
       "sad-8.gif"],
      ["难过", "伤心", "哭", "悲伤", "沮丧", "痛苦", "委屈"],
      0.7, Negative),
    Category("terrified", "/emojis/terrified",
      ["terrified-1.gif", "terrified-2.gif", "terrified-3.gif"],
      ["害怕", "恐惧", "担心", "紧张", "焦虑", "不安"],
      0.6, Negative),
    Category("angry", "/emojis/angry",
      ["angry-1.gif"],
      ["生气", "愤怒", "烦躁", "不爽", "气愤"],
      0.5, Negative),
    Category("exhausted", "/emojis/exhausted",
      ["exhausted-1.gif", "exhausted-2.gif"],
      ["累", "疲惫", "没力气", "疲劳", "无力", "筋疲力尽"],
      0.4, Negative),
    Category("confused", "/emojis/confused",
      ["confused-1.gif", "confused-2.gif", "confused-3.gif", "confused-4.jpg"],
      ["困惑", "不懂", "迷茫", "疑惑", "不理解", "什么意思"],
      0.3, Neutral),
    Category("eating", "/emojis/eating",
      ["eating-1.jpg", "eating-2.gif", "eating-3.gif", "eating-4.gif"],
      ["吃饭", "饿", "美食", "吃", "好吃", "饮食"],
      0.2, Neutral),
    Category("byebye", "/emojis/byebye",
      ["bye-1.gif", "bye-2.gif"],
      ["再见", "拜拜", "告别", "结束", "bye"],
      0.3, Neutral)
  ]

  /** A key the lookup can find again from an instruction: non-empty lower-case ASCII letters. */
  predicate IsKey(name: string)
  {
    |name| > 0 && forall k :: 0 <= k < |name| ==> 'a' <= name[k] <= 'z'
  }

  /** Every key is lower-case letters, keys are distinct, every category has a
      file and a non-negative weight. */
  predicate WellFormedTable(cats: seq<Category>)
  {
    && (forall i :: 0 <= i < |cats| ==> IsKey(cats[i].name) && |cats[i].emojis| > 0 && cats[i].weight >= 0.0)
    && (forall i, j :: 0 <= i < j < |cats| ==> cats[i].name != cats[j].name)
  }

  // ---------------------------------------------------------------------------
  // Instructions: the regular expression /emoji:(\w+)/i
  // ---------------------------------------------------------------------------

  const Marker: string := "emoji:"

  /** `\w` without the Unicode flag: ASCII letters, digits and underscore. */
  predicate IsWordChar(c: char)
  {
    'a' <= c <= 'z' || 'A' <= c <= 'Z' || '0' <= c <= '9' || c == '_'
  }

  /** The length of the run of word characters starting at `j` (greedy `\w+`). */
  function WordRunLength(s: string, j: nat): (n: nat)
    requires j <= |s|
    ensures j + n <= |s|
    ensures forall k :: j <= k < j + n ==> IsWordChar(s[k])
    ensures j + n == |s| || !IsWordChar(s[j + n])
    decreases |s| - j
  {
    if j < |s| && IsWordChar(s[j]) then 1 + WordRunLength(s, j + 1) else 0
  }

  /** An instruction starts at `i`: the marker in any ASCII case, then a word character. */
  predicate InstructionAt(s: string, i: int)
  {
    0 <= i && i + |Marker| < |s| && Lower(s[i..i + |Marker|]) == Marker && IsWordChar(s[i + |Marker|])
  }

  /** Where the instruction starting at `i` ends. */
  function MatchEnd(s: string, i: int): (e: nat)
    requires InstructionAt(s, i)
    ensures i + |Marker| < e <= |s|
  {
    i + |Marker| + WordRunLength(s, i + |Marker|)
  }

  /** The leftmost instruction at or after `from`. */
  function FirstInstructionFrom(s: string, from: nat): (r: Option<nat>)
    requires from <= |s|
    ensures r.Some? ==> from <= r.value && InstructionAt(s, r.value)
    ensures r.Some? ==> forall k :: from <= k < r.value ==> !InstructionAt(s, k)
    ensures r.None? ==> forall k :: from <= k < |s| ==> !InstructionAt(s, k)
    decreases |s| - from
  {
    if from == |s| then None
    else if InstructionAt(s, from) then Some(from)
    else FirstInstructionFrom(s, from + 1)
  }

  /** The captured name of the first instruction: match[1]. */
  function InstructionName(s: string): Option<string>
  {
    match FirstInstructionFrom(s, 0)
    case None => None
    case Some(i) => Some(s[i + |Marker|..MatchEnd(s, i)])
  }

  /** The first category with the given key. */
  function Lookup(cats: seq<Category>, name: string): (r: Option<Category>)
    ensures r.Some? ==> r.value in cats && r.value.name == name
    ensures r.None? ==> forall i :: 0 <= i < |cats| ==> cats[i].name != name
  {
    if cats == [] then None
    else if cats[0].name == name then Some(cats[0])
    else Lookup(cats[1..], name)
  }

  /** `p` is the folder of `c`, a slash, and one of its files. */
  predicate IsEmojiOf(p: string, c: Category)
  {
    exists k :: 0 <= k < |c.emojis| && p == c.path + "/" + c.emojis[k]
  }

  /** The file the draw picks from a category, or None for an empty list. */
  function PickFrom(c: Category, draw: real): (r: Option<string>)
    requires 0.0 <= draw < 1.0
    ensures r.None? <==> c.emojis == []
    ensures r.Some? ==> IsEmojiOf(r.value, c)
  {
    if |c.emojis| == 0 then None
    else
      var k := PickIndex(draw, |c.emojis|);
      Some(c.path + "/" + c.emojis[k])
  }

  /** getEmojiByInstruction over a given table: the first instruction's name,
      lower-cased, looked up; its category's folder and a drawn file. */
  function EmojiFor(cats: seq<Category>, instruction: string, draw: real): (r: Option<string>)
    requires 0.0 <= draw < 1.0
    ensures InstructionName(instruction).None? ==> r.None?
    ensures r.Some? ==> exists c :: c in cats && c.name == Lower(InstructionName(instruction).value) && IsEmojiOf(r.value, c)
  {
    match InstructionName(instruction)
    case None => None
    case Some(n) =>
      match Lookup(cats, Lower(n))
      case None => None
      case Some(c) => PickFrom(c, draw)
  }

  /** getEmojiByInstruction: without an instruction there is no sticker; a
      sticker is always a file of the category the first instruction names,
      in any case. */
  function EmojiByInstruction(instruction: string, draw: real): (r: Option<string>)
    requires 0.0 <= draw < 1.0
    ensures InstructionName(instruction).None? ==> r.None?
    ensures r.Some? ==> exists c :: c in EmojiCategories && c.name == Lower(InstructionName(instruction).value) && IsEmojiOf(r.value, c)
  {
    EmojiFor(EmojiCategories, instruction, draw)
  }

  /** The instruction for a key names exactly that key. */
  lemma {:induction false} InstructionForKey(name: string)
    requires IsKey(name)
    ensures InstructionName(Marker + name) == Some(name)
  {
    var s := Marker + name;
    assert s[0..|Marker|] == Marker;
    assert Lower(Marker) == Marker;
    assert s[|Marker|] == name[0];
    assert InstructionAt(s, 0);
    assert FirstInstructionFrom(s, 0) == Some(0);
    assert s[|Marker|..] == name;
    WordRunOfKey(s, name, |Marker|);
    assert MatchEnd(s, 0) == |s|;
    assert s[|Marker|..MatchEnd(s, 0)] == name;
    assert InstructionName(s) == Some(s[|Marker|..MatchEnd(s, 0)]);
  }

  lemma {:induction false} WordRunOfKey(s: string, name: string, j: nat)
    requires IsKey(name) && j <= |s| && s[j..] == name
    ensures WordRunLength(s, j) == |name|
    decreases |s| - j
  {
    assert s[j] == name[0];
    if |name| > 1 {
      assert s[j + 1..] == name[1..];
      WordRunOfKey(s, name[1..], j + 1);
    }
  }

  /** Lower-casing leaves a key unchanged. */
  lemma LowerOfKey(name: string)
    requires IsKey(name)
    ensures Lower(name) == name
  {
  }

  /** In a well-formed table, the key of category `i` finds category `i`. */
  lemma {:induction false} LookupOfKey(cats: seq<Category>, i: nat)
    requires WellFormedTable(cats) && i < |cats|
    ensures Lookup(cats, cats[i].name) == Some(cats[i])
    decreases i
  {
    if i > 0 {
      assert WellFormedTable(cats[1..]);
      assert cats[1..][i - 1] == cats[i];
      LookupOfKey(cats[1..], i - 1);
    }
  }

  /** The instruction naming category `i` of a well-formed table always yields
      one of that category's stickers. */
  lemma InstructionForCategory(cats: seq<Category>, i: nat, draw: real)
    requires WellFormedTable(cats) && i < |cats| && 0.0 <= draw < 1.0
    ensures EmojiFor(cats, Marker + cats[i].name, draw) == PickFrom(cats[i], draw)
    ensures EmojiFor(cats, Marker + cats[i].name, draw).Some?
  {
    InstructionForKey(cats[i].name);
    LowerOfKey(cats[i].name);
    LookupOfKey(cats, i);
  }

  // ---------------------------------------------------------------------------
  // Extracting instructions from a reply
  // ---------------------------------------------------------------------------

  /** The texts of all instructions at or after `from` (content.match with the g flag). */
  function InstructionTexts(s: string, from: nat): seq<string>
    requires from <= |s|
    decreases |s| - from
  {
    match FirstInstructionFrom(s, from)
    case None => []
    case Some(i) => [s[i..MatchEnd(s, i)]] + InstructionTexts(s, MatchEnd(s, i))
  }

  /** `s` from `from` on with every instruction removed (content.replace with the g flag). */
  function RemoveInstructions(s: string, from: nat): string
    requires from <= |s|
    decreases |s| - from
  {
    match FirstInstructionFrom(s, from)
    case None => s[from..]
    case Some(i) => s[from..i] + RemoveInstructions(s, MatchEnd(s, i))
  }

  /** The stretches of `s` from `from` on that lie before, between and after
      the instructions: one more than there are instructions. */
  function KeptSegments(s: string, from: nat): (r: seq<string>)
    requires from <= |s|
    ensures |r| == |InstructionTexts(s, from)| + 1
    decreases |s| - from
  {
    match FirstInstructionFrom(s, from)
    case None => [s[from..]]
    case Some(i) => [s[from..i]] + KeptSegments(s, MatchEnd(s, i))
  }

  /** kept[0] + cut[0] + kept[1] + cut[1] + ... + kept[n]. */
  function Interleave(kept: seq<string>, cut: seq<string>): string
    requires |kept| == |cut| + 1
    decreases |cut|
  {
    if cut == [] then kept[0] else kept[0] + cut[0] + Interleave(kept[1..], cut[1..])
  }

  function Concat(parts: seq<string>): string
  {
    if parts == [] then "" else parts[0] + Concat(parts[1..])
  }

  function TotalLength(parts: seq<string>): nat
  {
    if parts == [] then 0 else |parts[0]| + TotalLength(parts[1..])
  }

  /** Removal deletes exactly the matched text: the input is the kept
      stretches with the matches between them, in order, and the result is
      the kept stretches alone. */
  lemma {:induction false} RemovalCutsMatches(s: string, from: nat)
    requires from <= |s|
    ensures s[from..] == Interleave(KeptSegments(s, from), InstructionTexts(s, from))
    ensures RemoveInstructions(s, from) == Concat(KeptSegments(s, from))
    decreases |s| - from
  {
    match FirstInstructionFrom(s, from)
    case None =>
    case Some(i) =>
      var e := MatchEnd(s, i);
      RemovalCutsMatches(s, e);
      var cut := [s[i..e]] + InstructionTexts(s, e);
      var kept := [s[from..i]] + KeptSegments(s, e);
      assert cut[1..] == InstructionTexts(s, e);
      assert kept[1..] == KeptSegments(s, e);
      calc {
        Interleave(KeptSegments(s, from), InstructionTexts(s, from));
        Interleave(kept, cut);
        s[from..i] + s[i..e] + Interleave(KeptSegments(s, e), InstructionTexts(s, e));
        s[from..i] + s[i..e] + s[e..];
        s[from..];
      }
      calc {
        RemoveInstructions(s, from);
        s[from..i] + RemoveInstructions(s, e);
        Concat(kept);
      }
  }

  /** Hence the kept text and the matches add up to the input, and every
      match is longer than the marker. */
  lemma {:induction false} RemovalConservesLength(s: string, from: nat)
    requires from <= |s|
    ensures |RemoveInstructions(s, from)| + TotalLength(InstructionTexts(s, from)) == |s| - from
    ensures forall t :: t in InstructionTexts(s, from) ==> |t| > |Marker|
    decreases |s| - from
  {
    match FirstInstructionFrom(s, from)
    case None =>
    case Some(i) =>
      RemovalConservesLength(s, MatchEnd(s, i));
      var rest := InstructionTexts(s, MatchEnd(s, i));
      assert ([s[i..MatchEnd(s, i)]] + rest)[1..] == rest;
  }

  /** The text of an instruction, parsed again, names the same category. */
  lemma {:induction false} MatchTextNamesSame(s: string, i: nat)
    requires InstructionAt(s, i)
    ensures InstructionName(s[i..MatchEnd(s, i)]) == Some(s[i + |Marker|..MatchEnd(s, i)])
  {
    var t := s[i..MatchEnd(s, i)];
    assert t[..|Marker|] == s[i..i + |Marker|];
    assert t[|Marker|] == s[i + |Marker|];
    assert InstructionAt(t, 0);
    assert FirstInstructionFrom(t, 0) == Some(0);
    MatchWordRun(s, t, i, |Marker|);
    assert MatchEnd(t, 0) == |t|;
    assert t[|Marker|..MatchEnd(t, 0)] == s[i + |Marker|..MatchEnd(s, i)];
    assert InstructionName(t) == Some(t[|Marker|..MatchEnd(t, 0)]);
  }

  lemma {:induction false} MatchWordRun(s: string, t: string, i: nat, j: nat)
    requires InstructionAt(s, i) && t == s[i..MatchEnd(s, i)] && |Marker| <= j <= |t|
    ensures WordRunLength(t, j) == |t| - j
    decreases |t| - j
  {
    if j < |t| {
      assert t[j] == s[i + j];
      MatchWordRun(s, t, i, j + 1);
    }
  }

  datatype Extraction = Extraction(cleanContent: string, emojiPath: Option<string>)

  /** The reply with its instructions removed and trimmed, and the sticker of
      its first instruction; a reply without instructions is returned as is. */
  function ExtractEmojiInstruction(content: string, draw: real): (x: Extraction)
    requires 0.0 <= draw < 1.0
    ensures InstructionTexts(content, 0) == [] <==> InstructionName(content).None?
    ensures InstructionName(content).None? ==> x == Extraction(content, None)
    ensures InstructionName(content).Some? ==> IsTrimmed(x.cleanContent)
    ensures x.emojiPath.Some? ==> InstructionName(content).Some?
  {
    var matches := InstructionTexts(content, 0);
    if matches == [] then Extraction(content, None)
    else Extraction(Trim(RemoveInstructions(content, 0)), EmojiByInstruction(matches[0], draw))
  }

  /** A reply without an instruction is returned unchanged, without a sticker. */
  lemma ExtractionWithoutInstruction(content: string, draw: real)
    requires 0.0 <= draw < 1.0
    ensures InstructionName(content).None? <==> InstructionTexts(content, 0) == []
    ensures InstructionName(content).None? ==> ExtractEmojiInstruction(content, draw) == Extraction(content, None)
  {
  }

  /** With an instruction, the cleaned text is trimmed and shorter than the
      reply by at least all the matched text. */
  lemma ExtractionCleaned(content: string, draw: real)
    requires 0.0 <= draw < 1.0
    requires InstructionName(content).Some?
    ensures var x := ExtractEmojiInstruction(content, draw);
      IsTrimmed(x.cleanContent) && |x.cleanContent| + TotalLength(InstructionTexts(content, 0)) <= |content|
  {
    RemovalConservesLength(content, 0);
    var removed := RemoveInstructions(content, 0);
    var r := Trim(removed);
    var k :| TrimmedFrom(removed, r, k);
    assert |r| <= |removed|;
    assert InstructionTexts(content, 0) != [];
    assert ExtractEmojiInstruction(content, draw).cleanContent == r;
  }

  /** With an instruction, the sticker is the one the first instruction of
      the whole reply names. */
  lemma ExtractionSticker(content: string, draw: real)
    requires 0.0 <= draw < 1.0
    requires InstructionName(content).Some?
    ensures ExtractEmojiInstruction(content, draw).emojiPath == EmojiByInstruction(content, draw)
  {
    var i := FirstInstructionFrom(content, 0).value;
    var texts := InstructionTexts(content, 0);
    assert texts[0] == content[i..MatchEnd(content, i)];
    MatchTextNamesSame(content, i);
    assert InstructionName(texts[0]) == InstructionName(content);
  }

  // ---------------------------------------------------------------------------
  // Choosing a sticker for a message
  // ---------------------------------------------------------------------------

  /** The bonus for the user's risk level: comfort, hug, caring and heart at
      high or critical; comfort, encourage and hug at medium; every positive
      category otherwise. */
  function RiskBonus(userRiskLevel: string, c: Category): (b: real)
    ensures 0.0 <= b <= 0.5
    ensures b == 0.5 ==> userRiskLevel == "high" || userRiskLevel == "critical"
    ensures c.emotionType != Positive && c.name !in ["comfort", "encourage", "hug", "caring", "heart"] ==> b == 0.0
  {
    if userRiskLevel == "high" || userRiskLevel == "critical" then
      (if c.name in ["comfort", "hug", "caring", "heart"] then 0.5 else 0.0)
    else if userRiskLevel == "medium" then
      (if c.name in ["comfort", "encourage", "hug"] then 0.3 else 0.0)
    else if c.emotionType == Positive then 0.2
    else 0.0
  }

  /** Base weight, plus 0.4 per context phrase in the text, plus the risk
      bonus: never below the base weight and the bonus, never above them plus
      0.4 for every context phrase. */
  function CategoryScore(allText: string, userRiskLevel: string, c: Category): (score: real)
    ensures c.weight + RiskBonus(userRiskLevel, c) <= score
    ensures score <= c.weight + RiskBonus(userRiskLevel, c) + |c.contexts| as real * 0.4
  {
    MatchesMembership(allText, c.contexts);
    c.weight + |Matches(allText, c.contexts)| as real * 0.4 + RiskBonus(userRiskLevel, c)
  }

  /** A text in which every context phrase found in another is found too
      matches at least as many phrases. */
  lemma {:induction false} MatchesGrow(t1: string, t2: string, keys: seq<string>)
    requires forall k :: k in keys && Contains(t1, k) ==> Contains(t2, k)
    ensures |Matches(t1, keys)| <= |Matches(t2, keys)|
    decreases |keys|
  {
    if keys != [] {
      MatchesGrow(t1, t2, keys[..|keys| - 1]);
    }
  }

  /** Appending the conversation context to the message can only add
      context phrases, so it never lowers a category's score. */
  lemma ContextNeverLowersScore(messageContent: string, context: string, userRiskLevel: string, c: Category)
    ensures CategoryScore(Lower(messageContent) + " ", userRiskLevel, c)
         <= CategoryScore(Lower(messageContent) + " " + Lower(context), userRiskLevel, c)
  {
    var t1 := Lower(messageContent) + " ";
    var t2 := Lower(messageContent) + " " + Lower(context);
    forall k | k in c.contexts && Contains(t1, k)
      ensures Contains(t2, k)
    {
      ContainsInJoin(t1, Lower(context), k);
    }
    MatchesGrow(t1, t2, c.contexts);
  }

  /** One score per category, each between its base weight plus risk bonus
      and that plus 0.4 per context phrase. */
  function ScoresOf(allText: string, userRiskLevel: string, cats: seq<Category>): (r: seq<real>)
    ensures |r| == |cats|
    ensures forall i :: 0 <= i < |cats| ==> cats[i].weight + RiskBonus(userRiskLevel, cats[i]) <= r[i]
    ensures forall i :: 0 <= i < |cats| ==>
      r[i] <= cats[i].weight + RiskBonus(userRiskLevel, cats[i]) + |cats[i].contexts| as real * 0.4
  {
    seq(|cats|, i requires 0 <= i < |cats| => CategoryScore(allText, userRiskLevel, cats[i]))
  }

  /** The scoring loops: per category, the base weight, then 0.4 per context
      phrase found, then the risk bonus. */
  method ScoreCategories(allText: string, userRiskLevel: string, cats: seq<Category>) returns (scores: seq<real>)
    ensures scores == ScoresOf(allText, userRiskLevel, cats)
  {
    scores := [];
    for i := 0 to |cats|
      invariant |scores| == i
      invariant forall k :: 0 <= k < i ==> scores[k] == CategoryScore(allText, userRiskLevel, cats[k])
    {
      var config := cats[i];
      var score := 0.0;
      score := score + config.weight;
      for j := 0 to |config.contexts|
        invariant score == config.weight + |Matches(allText, config.contexts[..j])| as real * 0.4
      {
        assert config.contexts[..j + 1][..j] == config.contexts[..j];
        if Contains(allText, config.contexts[j]) {
          score := score + 0.4;
        }
      }
      assert config.contexts[..|config.contexts|] == config.contexts;
      score := score + RiskBonus(userRiskLevel, config);
      scores := scores + [score];
    }
  }

  /** The running best of the reduce: a category index (None for null) and its score. */
  datatype Best = Best(index: Option<nat>, score: real)

  /** The reduce from {category: null, score: 0}: a later score replaces the
      best only when strictly greater. */
  function BestOf(scores: seq<real>): (b: Best)
    ensures b.index.Some? ==> b.index.value < |scores|
    decreases |scores|
  {
    if scores == [] then Best(None, 0.0)
    else
      var b := BestOf(scores[..|scores| - 1]);
      var x := scores[|scores| - 1];
      if x > b.score then Best(Some(|scores| - 1), x) else b
  }

  method PickBest(scores: seq<real>) returns (best: Best)
    ensures best == BestOf(scores)
  {
    best := Best(None, 0.0);
    for i := 0 to |scores|
      invariant best == BestOf(scores[..i])
    {
      assert scores[..i + 1][..i] == scores[..i];
      if scores[i] > best.score {
        best := Best(Some(i), scores[i]);
      }
    }
    assert scores[..|scores|] == scores;
  }

  /** The reduce returns the first strictly greatest positive score: with no
      index every score is at most 0; with index k, score k is the best,
      positive, no score exceeds it and every earlier one is smaller. */
  lemma {:induction false} BestIsFirstStrictMaximum(scores: seq<real>)
    ensures var b := BestOf(scores);
      && (b.index.None? ==> b.score == 0.0 && forall j :: 0 <= j < |scores| ==> scores[j] <= 0.0)
      && (b.index.Some? ==>
            && b.index.value < |scores|
            && scores[b.index.value] == b.score > 0.0
            && (forall j :: 0 <= j < |scores| ==> scores[j] <= b.score)
            && (forall j :: 0 <= j < b.index.value ==> scores[j] < b.score))
    decreases |scores|
  {
    if scores != [] {
      var n := |scores| - 1;
      BestIsFirstStrictMaximum(scores[..n]);
      assert forall j :: 0 <= j < n ==> scores[j] == scores[..n][j];
    }
  }

  /** selectEmoji over a given table: nothing when the gate draw exceeds
      0.05; otherwise the best-scoring category over the lower-cased message
      and context, if its score reaches 0.4, and a drawn sticker of it, looked
      up again through its instruction. */
  function SelectionFrom(cats: seq<Category>, messageContent: string, context: string,
                         userRiskLevel: string, gate: real, draw: real): (r: Option<string>)
    requires 0.0 <= gate < 1.0 && 0.0 <= draw < 1.0
    ensures gate > 0.05 ==> r.None?
    ensures r.Some? ==> exists c :: c in cats && IsEmojiOf(r.value, c)
  {
    if gate > 0.05 then None
    else
      var allText := Lower(messageContent) + " " + Lower(context);
      var b := BestOf(ScoresOf(allText, userRiskLevel, cats));
      if b.index.None? || b.score < 0.4 then None
      else EmojiFor(cats, Marker + cats[b.index.value].name, draw)
  }

  function EmojiSelection(messageContent: string, context: string, userRiskLevel: string,
                          gate: real, draw: real): Option<string>
    requires 0.0 <= gate < 1.0 && 0.0 <= draw < 1.0
  {
    SelectionFrom(EmojiCategories, messageContent, context, userRiskLevel, gate, draw)
  }

  method SelectEmoji(messageContent: string, context: string, userRiskLevel: string,
                     gate: real, draw: real) returns (r: Option<string>)
    requires 0.0 <= gate < 1.0 && 0.0 <= draw < 1.0
    ensures r == EmojiSelection(messageContent, context, userRiskLevel, gate, draw)
  {
    if gate > 0.05 {
      return None;
    }
    var message := Lower(messageContent);
    var contextLower := Lower(context);
    var allText := message + " " + contextLower;
    var scores := ScoreCategories(allText, userRiskLevel, EmojiCategories);
    var bestCategory := PickBest(scores);
    if bestCategory.index.None? || bestCategory.score < 0.4 {
      return None;
    }
    r := EmojiByInstruction(Marker + EmojiCategories[bestCategory.index.value].name, draw);
  }

  /** The table checks, split so that each proof obligation stays small: one
      obligation for all twenty rows is beyond the solver's budget. */
  lemma TableKeysA()
    ensures forall i :: 0 <= i < 5 ==> IsKey(EmojiCategories[i].name)
  {
  }

  lemma TableKeysB()
    ensures forall i :: 5 <= i < 10 ==> IsKey(EmojiCategories[i].name)
  {
  }

  lemma TableKeysC()
    ensures forall i :: 10 <= i < 15 ==> IsKey(EmojiCategories[i].name)
  {
  }

  lemma TableKeysD()
    ensures forall i :: 15 <= i < |EmojiCategories| ==> IsKey(EmojiCategories[i].name)
  {
  }

  lemma TableFiles()
    ensures forall i :: 0 <= i < |EmojiCategories| ==> |EmojiCategories[i].emojis| > 0 && EmojiCategories[i].weight >= 0.0
  {
  }

  lemma TableDistinct()
    ensures forall i, j :: 0 <= i < j < |EmojiCategories| ==> EmojiCategories[i].name != EmojiCategories[j].name
  {
  }

  /** The table satisfies what the lookups rely on: twenty categories with
      distinct lower-case keys, each with files and a non-negative weight,
      comfort first with weight 0.9. */
  lemma TableWellFormed()
    ensures WellFormedTable(EmojiCategories)
    ensures |EmojiCategories| == 20 && EmojiCategories[0].weight == 0.9
  {
    TableKeysA();
    TableKeysB();
    TableKeysC();
    TableKeysD();
    TableFiles();
    TableDistinct();
  }

  /** Score `k` is the greatest, and every earlier score is smaller. */
  predicate FirstBestAt(scores: seq<real>, k: int)
  {
    && 0 <= k < |scores|
    && (forall j :: 0 <= j < |scores| ==> scores[j] <= scores[k])
    && (forall j :: 0 <= j < k ==> scores[j] < scores[k])
  }

  /** For a well-formed table whose first category alone passes the 0.4
      threshold: a closed gate gives no sticker, an open gate always gives
      one, and it is a file of the first category with the strictly greatest
      score. */
  lemma SelectionFromShape(cats: seq<Category>, messageContent: string, context: string,
                           userRiskLevel: string, gate: real, draw: real)
    requires WellFormedTable(cats) && |cats| > 0 && cats[0].weight >= 0.4
    requires 0.0 <= gate < 1.0 && 0.0 <= draw < 1.0
    ensures var r := SelectionFrom(cats, messageContent, context, userRiskLevel, gate, draw);
      var scores := ScoresOf(Lower(messageContent) + " " + Lower(context), userRiskLevel, cats);
      && (gate > 0.05 <==> r.None?)
      && (r.Some? ==> exists k :: FirstBestAt(scores, k) && IsEmojiOf(r.value, cats[k]))
  {
    var allText := Lower(messageContent) + " " + Lower(context);
    var scores := ScoresOf(allText, userRiskLevel, cats);
    BestIsFirstStrictMaximum(scores);
    if gate <= 0.05 {
      var b := BestOf(scores);
      assert scores[0] >= 0.4 by {
        assert RiskBonus(userRiskLevel, cats[0]) >= 0.0;
      }
      var k := b.index.value;
      InstructionForCategory(cats, k, draw);
      assert FirstBestAt(scores, k);
    }
  }

  /** The same for the source's table: comfort's base weight 0.9 alone passes
      the threshold, so an open gate always shows a sticker. */
  lemma SelectionShape(messageContent: string, context: string, userRiskLevel: string, gate: real, draw: real)
    requires 0.0 <= gate < 1.0 && 0.0 <= draw < 1.0
    ensures var r := EmojiSelection(messageContent, context, userRiskLevel, gate, draw);
      var scores := ScoresOf(Lower(messageContent) + " " + Lower(context), userRiskLevel, EmojiCategories);
      && (gate > 0.05 <==> r.None?)
      && (r.Some? ==> exists k :: FirstBestAt(scores, k) && IsEmojiOf(r.value, EmojiCategories[k]))
  {
    TableWellFormed();
    SelectionFromShape(EmojiCategories, messageContent, context, userRiskLevel, gate, draw);
  }

  // ---------------------------------------------------------------------------
  // Scenarios and sticker messages
  // ---------------------------------------------------------------------------

  /** The category each named scenario shows. */
  function ScenarioTarget(scenario: string): Option<string>
  {
    if scenario == "welcome" then Some("greeting")
    else if scenario == "test_complete" then Some("youaregreat")
    else if scenario == "high_risk" then Some("comfort")
    else if scenario == "game_offer" then Some("playwithyou")
    else if scenario == "comfort_needed" then Some("hug")
    else if scenario == "caring" then Some("caring")
    else if scenario == "encourage" then Some("encourage")
    else if scenario == "goodnight" then Some("goodnight")
    else if scenario == "sad_response" then Some("feelingsad")
    else if scenario == "angry_response" then Some("terrified")
    else if scenario == "workout_suggest" then Some("workout")
    else None
  }

  /** getScenarioEmoji: the sticker of the scenario's instruction, or None
      for a scenario the table lacks. */
  function ScenarioEmoji(scenario: string, draw: real): (r: Option<string>)
    requires 0.0 <= draw < 1.0
    ensures ScenarioTarget(scenario).None? ==> r.None?
    ensures r.Some? ==> exists c :: c in EmojiCategories && IsEmojiOf(r.value, c)
  {
    match ScenarioTarget(scenario)
    case None => None
    case Some(n) => EmojiByInstruction(Marker + n, draw)
  }

  /** Where each scenario's category sits in the table. */
  function TargetIndex(name: string): nat
  {
    if name == "greeting" then 11
    else if name == "youaregreat" then 4
    else if name == "comfort" then 0
    else if name == "playwithyou" then 8
    else if name == "hug" then 2
    else if name == "caring" then 10
    else if name == "encourage" then 1
    else if name == "goodnight" then 12
    else if name == "feelingsad" then 13
    else if name == "terrified" then 14
    else 9
  }

  /** Every scenario names a category of the table. */
  lemma ScenarioTargetsExist(scenario: string)
    requires ScenarioTarget(scenario).Some?
    ensures var n := ScenarioTarget(scenario).value;
      TargetIndex(n) < |EmojiCategories| && EmojiCategories[TargetIndex(n)].name == n
  {
  }

  /** An unknown scenario gives nothing; a known one always gives a sticker of
      the category it names. */
  lemma ScenarioShape(scenario: string, draw: real)
    requires 0.0 <= draw < 1.0
    ensures ScenarioTarget(scenario).None? ==> ScenarioEmoji(scenario, draw).None?
    ensures ScenarioTarget(scenario).Some? ==>
      var i := TargetIndex(ScenarioTarget(scenario).value);
      && i < |EmojiCategories|
      && EmojiCategories[i].name == ScenarioTarget(scenario).value
      && ScenarioEmoji(scenario, draw).Some?
      && IsEmojiOf(ScenarioEmoji(scenario, draw).value, EmojiCategories[i])
  {
    if ScenarioTarget(scenario).Some? {
      TableWellFormed();
      ScenarioTargetsExist(scenario);
      InstructionForCategory(EmojiCategories, TargetIndex(ScenarioTarget(scenario).value), draw);
    }
  }

  datatype EmojiMessage = EmojiMessage(kind: string, sender: string, emoji: string, timestamp: int)

  /** A sticker message from the assistant, or None for a missing or empty path. */
  function CreateEmojiMessage(emojiPath: Option<string>, now: int): (r: Option<EmojiMessage>)
    ensures r.None? <==> emojiPath.None? || emojiPath.value == ""
    ensures r.Some? ==> r.value == EmojiMessage("emoji", "assistant", emojiPath.value, now)
  {
    if emojiPath.None? || emojiPath.value == "" then None
    else Some(EmojiMessage("emoji", "assistant", emojiPath.value, now))
  }

  // ---------------------------------------------------------------------------
  // The lookup as written
  // ---------------------------------------------------------------------------

  /** What a call returns, or that it throws. */
  datatype Outcome = Returned(path: Option<string>) | Threw

  /** getEmojiByInstruction as written: the object-literal lookup also answers
      the lower-case names every object inherits, `constructor` and
      `__proto__`; neither has an `emojis` list, so reading its length throws. */
  function EmojiByInstructionAsWritten(instruction: string, draw: real): Outcome
    requires 0.0 <= draw < 1.0
  {
    match InstructionName(instruction)
    case None => Returned(None)
    case Some(n) =>
      if Lower(n) == "constructor" || Lower(n) == "__proto__" then Threw
      else Returned(EmojiByInstruction(instruction, draw))
  }

  /** A key no category has gives no sticker. */
  lemma AbsentKeyNoSticker(cats: seq<Category>, name: string, draw: real)
    requires IsKey(name) && 0.0 <= draw < 1.0
    requires forall i :: 0 <= i < |cats| ==> cats[i].name != name
    ensures EmojiFor(cats, Marker + name, draw) == None
  {
    InstructionForKey(name);
    LowerOfKey(name);
  }

  /** The discrepancy: "emoji:constructor" throws as written, where an unknown
      category should give no sticker, as the corrected lookup does. */
  lemma ConstructorInstructionThrows(draw: real)
    requires 0.0 <= draw < 1.0
    ensures EmojiByInstructionAsWritten(Marker + "constructor", draw) == Threw
    ensures EmojiByInstruction(Marker + "constructor", draw) == None
  {
    InstructionForKey("constructor");
    LowerOfKey("constructor");
    NoConstructorCategory();
    AbsentKeyNoSticker(EmojiCategories, "constructor", draw);
  }

  /** No category is keyed by an inherited name. */
  lemma NoConstructorCategory()
    ensures forall i :: 0 <= i < |EmojiCategories| ==> EmojiCategories[i].name != "constructor"
  {
  }
}
