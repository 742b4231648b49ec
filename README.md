# A verified model of the psychological-therapist risk and dialogue engine

This project is a Dafny model of the rule-based core of the
psychological-therapist chat service. It covers five parts:

- **Risk assessment** (`RiskAssessment`, from `server/services/riskAssessment.js`). It scores one
  utterance against fixed Chinese phrase tables: tiers of risk phrases with a weight and a minimum
  number of hits, plan indicators, protective factors and six emotion categories. The scorer combines
  these with the previous risk level and the conversation depth into a score clamped to [0, 1]. It
  buckets the score into low, medium, high or critical, and returns a confidence value and an ordered
  list of interventions. When the message is not a string, it returns a fixed medium-risk fallback.
- **Dialogue agent** (`Agent`, from `server/services/agentService.js`). It runs its own emotion
  detector and a three-tier keyword screen. A stage machine (initial, exploration, assessment,
  support, crisis) picks the conversation stage. A priority rule picks the reply text, a table gives
  the service recommendations, and a fixed fallback reply covers a message that is not a string.
- **Sticker helpers** (`Emoji`, from `src/utils/emojiConfig.js`). These parse `emoji:<name>`
  instructions and remove them from replies, score the twenty sticker categories against a message,
  map named scenarios to stickers and build sticker messages.
- **Chat session reducer** (`ChatState`, from `src/contexts/ChatContext.jsx`). It covers the initial
  session state and the eight reducer branches.
- **Glimmer client helpers** (`Glimmer`, from `src/services/glimmerApi.js`). These split the
  backend's comma-separated action string, and map backend character states and risk levels to the
  names the front end knows.

`Common` holds what these parts share:

- optional values and the four risk levels;
- `String.prototype.includes` as `Contains`;
- `keys.filter(k => text.includes(k))` as `Matches`;
- `[...new Set(xs)]` as `Dedup`;
- ASCII `toLowerCase` as `Lower`;
- `String.prototype.trim` as `Trim`;
- the index `Math.floor(draw * n)` as `PickIndex`.

Weights are exact reals. Every `Math.random()` call becomes a parameter `draw` (or `gate`) in [0, 1).
A `uuidv4()` value becomes a parameter `freshId`, and a `new Date()` value becomes a parameter `now`.

The source loops are written as methods: the keyword scan, the emotion scan, the score and
confidence accumulators, the intervention list, the agent's analysis, and the sticker scoring and
reduce. Each method is proved equal to a function defined from the back of its input. The
properties are then proved about those functions.

The demonstration conversations in `demo/conversation-examples.js` expect levels that the scorer
does not produce. For example, "我想自杀" alone is medium and not critical. The model follows the
scorer. `RiskAssessment.SingleIntentPhraseIsMedium` proves what the scorer actually gives.

## Model

| member | source | states |
|---|---|---|
| Common.ContainsIffOccurs | server/services/riskAssessment.js:161-163 | the recursive substring search holds exactly when the phrase occurs at some index of the text |
| Common.OccursImpliesContains | server/services/riskAssessment.js:161-163 | an occurrence at any index is found by the search |
| Common.ContainsImpliesOccurs | server/services/riskAssessment.js:161-163 | whatever the search finds is an occurrence at some index |
| Common.ContainsInJoin | src/utils/emojiConfig.js:286-288 | a phrase occurring in the message or in the context occurs in message + " " + context |
| Common.MatchesMembership | server/services/riskAssessment.js:161-163 | the filtered phrase list holds exactly the table phrases that occur in the text, and is no longer than the table |
| Common.SomeOccursIff | server/services/agentService.js:191-193 | `some(includes)` holds exactly when some phrase of the list occurs |
| Common.MatchesOfDistinct | server/services/riskAssessment.js:161-163 | filtering a list without repetitions gives a list without repetitions |
| Common.Dedup | server/services/riskAssessment.js:174 | the de-duplicated list has no repetitions, the same members as its input, and is no longer |
| Common.DedupOfDistinct | server/services/riskAssessment.js:174 | de-duplicating a list without repetitions leaves it unchanged |
| Common.Lower | server/services/riskAssessment.js:87 | lower-casing keeps the length, leaves no upper-case ASCII letter and keeps every other character |
| Common.LowerIdempotent | server/services/riskAssessment.js:87 | lower-casing twice is lower-casing once |
| Common.ContainsLower | server/services/riskAssessment.js:87-90 | a phrase without ASCII letters occurs in the lower-cased text exactly when it occurs in the original text |
| Common.MatchesLower | server/services/agentService.js:187-209 | filtering a letter-free phrase list over the lower-cased text gives the same matches as over the original text |
| Common.TrimStart | src/services/glimmerApi.js:199 | the result is a suffix of the input, everything cut off is white space, and it does not start with white space |
| Common.TrimEnd | src/services/glimmerApi.js:199 | the result is a prefix of the input, everything cut off is white space, and it does not end with white space |
| Common.Trim | src/services/glimmerApi.js:199 | the result has no white space at either end, and is a run of the input with only white space around it |
| Common.TrimmedFromParts | src/services/glimmerApi.js:199 | trimming the start and then the end leaves a run of the input surrounded by white space |
| Common.TrimOfTrimmed | src/services/glimmerApi.js:199 | trimming a string with no white space at either end changes nothing |
| Common.TrimIdempotent | src/services/glimmerApi.js:199 | trimming twice is trimming once |
| Common.TrimChars | src/services/glimmerApi.js:199 | every character left by trimming was in the input |
| Common.PickIndex | server/services/agentService.js:291-292 | `Math.floor(draw * n)` for a draw in [0, 1) is a valid index of a list of length n |
| RiskAssessment.EmotionWeight | server/services/riskAssessment.js:70-77 | each emotion weight lies in (0, 1] |
| RiskAssessment.KeywordAnalysisOf | server/services/riskAssessment.js:156-179 | the reported phrases have no repetitions and are no more than the raw hit count, none when there is no hit, and the largest weight is at least 0; HitsSound, HitsComplete and DetectedIsFiringTierMatches say which phrases they are |
| RiskAssessment.AnalyzeKeywords | server/services/riskAssessment.js:156-179 | the loop over the tiers returns the de-duplicated matches of the firing tiers, the weighted total, the largest firing weight and the raw hit count |
| RiskAssessment.MaxWeight | server/services/riskAssessment.js:169 | the largest weight is at least 0, bounds the weight of every firing tier, and is 0 or the weight of some firing tier |
| RiskAssessment.HitsSound | server/services/riskAssessment.js:161-170 | every collected phrase belongs to a tier that reached its minimum and occurs in the text |
| RiskAssessment.HitsComplete | server/services/riskAssessment.js:161-170 | every occurring phrase of a tier that reached its minimum is collected |
| RiskAssessment.DetectedIsFiringTierMatches | server/services/riskAssessment.js:156-179 | `detected` has no repetitions, holds exactly the occurring phrases of the firing tiers, and is no longer than `count`, which counts before de-duplication |
| RiskAssessment.WeightedBounds | server/services/riskAssessment.js:168 | a weight in [0, 1] counted n times lies in [0, n], and is at least the weight once there is a hit |
| RiskAssessment.WeightBounds | server/services/riskAssessment.js:156-179 | with valid tiers, 0 <= maxCategoryWeight <= totalWeight <= the number of hits |
| RiskAssessment.CriticalTierWeight | server/services/riskAssessment.js:21-53 | once the explicit-intent tier fires, each of its phrases adds 1 to the total weight; the largest weight exceeds 0.8 exactly when that tier fires |
| RiskAssessment.PlanScore | server/services/riskAssessment.js:190-193 | the plan score lies in [0, 1] and is 0 exactly when no indicator occurs |
| RiskAssessment.ProtectionScore | server/services/riskAssessment.js:211 | the protection score lies in [0, 0.5] and is 0 exactly when no factor occurs |
| RiskAssessment.AssessSuicidalPlan | server/services/riskAssessment.js:184-200 | the indicators are exactly the plan phrases in the text, `hasPlan` holds exactly when there is one, and the score is the capped 0.3 per hit |
| RiskAssessment.AssessProtectiveFactors | server/services/riskAssessment.js:205-218 | the factors are exactly the protective phrases in the text, `hasProtection` holds exactly when there is one, and the score is the capped 0.15 per hit |
| RiskAssessment.PlanScoreMonotone | server/services/riskAssessment.js:190-193 | more plan indicators never lower the plan score |
| RiskAssessment.ProtectionScoreMonotone | server/services/riskAssessment.js:211 | more protective factors never lower the protection score |
| RiskAssessment.EmotionalStateOf | server/services/riskAssessment.js:223-258 | a known primary emotion is among the detected emotions, and every detected emotion has at least one matched phrase; IntensitySign, PrimaryIsFirstStrictMaximum and DetectedEmotions carry the rest |
| RiskAssessment.AnalyzeEmotionalState | server/services/riskAssessment.js:223-258 | the loop over the emotion categories builds the state the specification function defines |
| RiskAssessment.IntensitySign | server/services/riskAssessment.js:233-257 | the intensity is 0 when the primary emotion is unknown and positive when it is known |
| RiskAssessment.UnknownIffNoMatch | server/services/riskAssessment.js:233-257 | the primary emotion stays unknown exactly when no emotion phrase occurs |
| RiskAssessment.IntensityIsMaximum | server/services/riskAssessment.js:237-251 | no category scores more than the intensity |
| RiskAssessment.PrimaryIsFirstStrictMaximum | server/services/riskAssessment.js:237-251 | a known primary emotion belongs to a category whose positive score is the intensity and which every earlier category scores strictly below |
| RiskAssessment.DetectedEmotions | server/services/riskAssessment.js:237-251 | the detected map records every emotion one of whose phrases occurs, and only those, each with the phrases and score of a matching category |
| RiskAssessment.PrevLevelBonus | server/services/riskAssessment.js:283-290 | the previous-level weight lies in [0, 0.4] |
| RiskAssessment.RiskScore | server/services/riskAssessment.js:263-301 | the score lies in [0, 1], equals the weighted sum when that is in range, and is 0 or 1 when the sum is below or above |
| RiskAssessment.CalculateRiskScore | server/services/riskAssessment.js:263-301 | the accumulator returns the clamped weighted sum |
| RiskAssessment.ScoreMonotoneInPlan | server/services/riskAssessment.js:277 | a higher plan score never lowers the risk score |
| RiskAssessment.ScoreAntitoneInProtection | server/services/riskAssessment.js:297 | a higher protection score never raises the risk score |
| RiskAssessment.ScoreMonotoneInPreviousLevel | server/services/riskAssessment.js:283-290 | a higher previous level never lowers the score, and no previous level scores above "critical" |
| RiskAssessment.DetermineRiskLevel | server/services/riskAssessment.js:306-311 | the level is critical, high, medium or low exactly when the score is at least 0.8, in [0.6, 0.8), in [0.3, 0.6) or below 0.3 |
| RiskAssessment.LevelMonotone | server/services/riskAssessment.js:306-311 | a higher score never gives a lower level |
| RiskAssessment.Confidence | server/services/riskAssessment.js:316-333 | the confidence lies in [0.5, 1] |
| RiskAssessment.CalculateConfidence | server/services/riskAssessment.js:316-333 | the accumulator returns 0.5 + 0.1 per hit + 0.2 for a known emotion + 0.2 for a critical tier, capped at 1 |
| RiskAssessment.ConfidenceMonotone | server/services/riskAssessment.js:316-333 | more hits never lower the confidence, and five hits reach the cap |
| RiskAssessment.InterventionsFor | server/services/riskAssessment.js:338-382 | there are 3 interventions for low, 5 for critical with a plan and 4 otherwise; removing lethal means appears exactly for critical with a plan, and then last; no repetitions |
| RiskAssessment.GenerateInterventions | server/services/riskAssessment.js:338-382 | the pushes build the list for the level and plan |
| RiskAssessment.AssessmentOf | server/services/riskAssessment.js:83-151 | the result is flagged as an error exactly for a non-string message, and is then medium with score 0.5, confidence 0.3, no evidence and only professional consultation; otherwise the score lies in [0, 1] and the level is its bucketing |
| RiskAssessment.AssessMessage | server/services/riskAssessment.js:83-151 | the whole assessment equals the specification function, the fallback included |
| RiskAssessment.AssessmentInvariants | server/services/riskAssessment.js:83-151 | score in [0, 1]; confidence in [0.3, 1], and at least 0.5 unless it fell back; the level is the bucketing of the score; evidence has no repetitions; it falls back exactly for a non-string message, with the single professional consultation; otherwise the interventions follow the level and plan |
| RiskAssessment.ExplicitIntentFloor | server/services/riskAssessment.js:21-25 | an explicit-intent phrase with no protective factor gives at least medium; two such phrases give critical with immediate professional intervention first |
| RiskAssessment.FloorFrom | server/services/riskAssessment.js:263-311 | with no protection, a total weight of 1 reaches medium, and a total weight of 2 reaches critical with immediate intervention first |
| RiskAssessment.SingleIntentPhraseIsMedium | server/services/riskAssessment.js:263-311 | one explicit-intent phrase and no other signal, after a low level in a short conversation, scores exactly 0.5, which is medium |
| RiskAssessment.SingleCriticalPhraseWeight | server/services/riskAssessment.js:156-179 | one explicit-intent phrase, with no other tier firing, weighs exactly 1 |
| RiskAssessment.AsWrittenAgreesOffPrototype | server/services/riskAssessment.js:283-290 | for any previous level that is not an inherited object member, the lookup as written gives the corrected score |
| RiskAssessment.PrototypePreviousLevelMasksIntent | server/services/riskAssessment.js:283-290 | with "constructor" as the previous level, two explicit-intent phrases are assessed low as written and critical when corrected |
| RiskAssessment.ConstructorIsInherited | server/services/riskAssessment.js:283-290 | "constructor" is not a table entry but an inherited member |
| RiskAssessment.InheritedPreviousLevelIsLow | server/services/riskAssessment.js:290-311 | any inherited name as the previous level makes the score NaN and the level low as written |
| Agent.Templates | server/services/agentService.js:49-89 | every stage has a pool of four templates |
| Agent.DetectedEmotionsOf | server/services/agentService.js:188-195 | no more emotions are listed than there are categories; DetectedMembership and DetectedInOrder say which and in what order |
| Agent.DetectedMembership | server/services/agentService.js:190-195 | an emotion is detected exactly when one of its category's phrases occurs |
| Agent.DetectedInOrder | server/services/agentService.js:190-195 | scanning categories in declaration order lists the emotions in that order |
| Agent.DetectedEmotionsShape | server/services/agentService.js:190-195 | the detected emotions are in the order sadness, anxiety, anger, loneliness, hopelessness, without repetitions, and exactly those whose phrases occur |
| Agent.TieringOf | server/services/agentService.js:198-214 | critical only when a critical phrase occurs and high only when none does, both with risk keywords; medium only with hopelessness detected; the risk keywords are empty exactly for medium and low |
| Agent.TieringSemantics | server/services/agentService.js:198-214 | critical exactly when a critical phrase occurs; high exactly when none does but a high one does; medium exactly when neither does and hopelessness was detected; the risk keywords are the occurring phrases of the deciding tier, empty for medium and low |
| Agent.AgentConfidence | server/services/agentService.js:324-341 | the confidence is at most 1, and at least 0.5 for a non-negative depth |
| Agent.CalculateConfidence | server/services/agentService.js:324-341 | the accumulator returns the capped sum of its terms |
| Agent.AgentConfidenceMonotone | server/services/agentService.js:324-341 | more emotions or risk keywords never lower the confidence, and two risk keywords reach the cap |
| Agent.DetectEmotions | server/services/agentService.js:188-195 | the loop lists the emotions the specification function defines |
| Agent.AnalysisOf | server/services/agentService.js:186-231 | the analysis records the message length, at most five emotions, a confidence in [0.5, 1] for a non-negative depth, and risk keywords exactly at a high or critical level |
| Agent.AnalyzeMessage | server/services/agentService.js:186-231 | the analysis equals the specification function |
| Agent.ConversationStage | server/services/agentService.js:236-259 | crisis exactly when the analysed or caller level is critical; otherwise assessment whenever either is high |
| Agent.StageByDepth | server/services/agentService.js:250-258 | without a high or critical level: initial exactly at depth 0, exploration at 1-2, assessment exactly at 3-5, support exactly from 6 |
| Agent.ContentPriority | server/services/agentService.js:264-294 | the reply is the hopelessness line exactly when hopelessness is detected; the loneliness, anxiety and sadness lines exactly when their emotion is the first of that order detected; the safety line exactly when none of the four is detected, the stage is crisis and 自杀 or 死 is a risk keyword; a template of the stage's pool exactly otherwise |
| Agent.ContentChoice | server/services/agentService.js:264-294 | a fixed line, by emotion priority or the crisis safety line, does not depend on the draw; otherwise every template of the pool is reached by some draw |
| Agent.RecommendServices | server/services/agentService.js:299-319 | the crisis stage always gets the fixed two-item crisis list; recommendations are numbered 1, 2 in order; they are empty exactly for low outside crisis; an emergency contact comes first in crisis or at high or critical |
| Agent.GenerateResponse | server/services/agentService.js:136-181 | the reply equals the specification function, the fallback included |
| Agent.ResponseOf | server/services/agentService.js:136-181 | the fallback reply is sent exactly for a non-string message, with the fixed content and no services; a reply is in the crisis stage exactly when it recommends the crisis list |
| Agent.PriorCriticalForcesCrisis | server/services/agentService.js:240-242 | a caller level of "critical" forces the crisis stage and the crisis services, whatever the message |
| Agent.SuicideMentionGetsSafetyLine | server/services/agentService.js:264-294 | a message containing 自杀 is answered in crisis with the crisis services, and with the safety line unless an emotion line takes precedence |
| Agent.CriticalTableRowUnreachable | server/services/agentService.js:299-319 | the critical row of the service table is never sent |
| Emoji.WordRunLength | src/utils/emojiConfig.js:253 | the `\w+` run stays in the text, consists of word characters, and is maximal |
| Emoji.MatchEnd | src/utils/emojiConfig.js:253 | a match extends past the marker and stays in the text |
| Emoji.FirstInstructionFrom | src/utils/emojiConfig.js:253 | the found instruction is the leftmost one; None means there is none |
| Emoji.Lookup | src/utils/emojiConfig.js:256-257 | a found category has the key; None means no category has it |
| Emoji.PickFrom | src/utils/emojiConfig.js:259-268 | no file exactly for an empty list; otherwise the category's folder, a slash and one of its files |
| Emoji.EmojiFor | src/utils/emojiConfig.js:252-269 | over any table: no instruction gives no sticker; a sticker is always a file of a category whose key is the instruction's lower-cased name |
| Emoji.EmojiByInstruction | src/utils/emojiConfig.js:252-269 | the same over the source's table: no instruction gives no sticker, and a sticker is a file of the category the instruction names |
| Emoji.InstructionForKey | src/utils/emojiConfig.js:253 | the instruction for a key names exactly that key |
| Emoji.WordRunOfKey | src/utils/emojiConfig.js:253 | a key at the end of a text is one whole word run |
| Emoji.LowerOfKey | src/utils/emojiConfig.js:256 | lower-casing leaves a key unchanged |
| Emoji.LookupOfKey | src/utils/emojiConfig.js:257 | in a well-formed table each category's key finds that category |
| Emoji.InstructionForCategory | src/utils/emojiConfig.js:252-269 | the instruction naming a category of a well-formed table always gives one of that category's files |
| Emoji.RemovalCutsMatches | src/utils/emojiConfig.js:379-387 | global removal deletes exactly the matched text: the reply is the kept stretches with the matches between them, in order, and the result is the kept stretches joined |
| Emoji.RemovalConservesLength | src/utils/emojiConfig.js:379-387 | the lengths of the kept text and of the matches add up to the reply's, and every match is longer than the marker |
| Emoji.MatchTextNamesSame | src/utils/emojiConfig.js:379-390 | a matched instruction text, parsed again, names the same category |
| Emoji.MatchWordRun | src/utils/emojiConfig.js:379-390 | within a matched text the word run reaches the end of the text |
| Emoji.ExtractEmojiInstruction | src/utils/emojiConfig.js:379-393 | there are matches exactly when there is an instruction; without one the content comes back unchanged with no sticker; with one the cleaned content is trimmed; a sticker only comes from an instruction |
| Emoji.ExtractionWithoutInstruction | src/utils/emojiConfig.js:380-384 | there is no match exactly when there is no instruction, and then the content is returned unchanged with no sticker |
| Emoji.ExtractionCleaned | src/utils/emojiConfig.js:387 | with instructions, the cleaned content is trimmed and shorter than the reply by at least all the matched text |
| Emoji.ExtractionSticker | src/utils/emojiConfig.js:389-392 | the sticker is the one the reply's first instruction names |
| Emoji.RiskBonus | src/utils/emojiConfig.js:306-316 | the risk bonus lies in [0, 0.5]; the full 0.5 only at a high or critical level; a category that is neither positive nor one of the five named ones gets none |
| Emoji.CategoryScore | src/utils/emojiConfig.js:293-318 | a category scores at least its base weight plus its risk bonus, and at most that plus 0.4 for each of its context phrases |
| Emoji.ContextNeverLowersScore | src/utils/emojiConfig.js:286-303 | appending the conversation context to the message never lowers a category's score |
| Emoji.ScoresOf | src/utils/emojiConfig.js:293-319 | one score per category, each between the base weight plus risk bonus and that plus 0.4 per context phrase |
| Emoji.ScoreCategories | src/utils/emojiConfig.js:293-319 | the nested loops compute the scores the specification function defines |
| Emoji.BestOf | src/utils/emojiConfig.js:322-324 | the best index, when there is one, is a valid category index |
| Emoji.PickBest | src/utils/emojiConfig.js:322-324 | the reduce loop returns the best the specification function defines |
| Emoji.BestIsFirstStrictMaximum | src/utils/emojiConfig.js:322-324 | with no category every score is at most 0; otherwise the chosen score is positive, no score exceeds it, and every earlier score is strictly smaller |
| Emoji.SelectionFrom | src/utils/emojiConfig.js:278-331 | over any table: a gate draw above 0.05 gives no sticker, and a sticker is always a file of some category of the table |
| Emoji.SelectEmoji | src/utils/emojiConfig.js:278-331 | the selection equals the specification function |
| Emoji.TableWellFormed | src/utils/emojiConfig.js:6-245 | the table has twenty categories with distinct lower-case ASCII keys, each with files and a non-negative base weight, and comfort comes first with weight 0.9 |
| Emoji.SelectionFromShape | src/utils/emojiConfig.js:278-331 | for a well-formed table whose first category alone passes 0.4: a closed gate gives nothing, an open gate always gives a file of the first category with the strictly greatest score |
| Emoji.SelectionShape | src/utils/emojiConfig.js:278-331 | with the source's table, no sticker exactly when the gate draw exceeds 0.05, and otherwise a file of the first best-scoring category |
| Emoji.ScenarioEmoji | src/utils/emojiConfig.js:338-355 | an unknown scenario gives no sticker, and a sticker is always a file of some category of the table |
| Emoji.ScenarioTargetsExist | src/utils/emojiConfig.js:339-351 | every scenario names a category of the table |
| Emoji.ScenarioShape | src/utils/emojiConfig.js:338-355 | an unknown scenario gives no sticker; a known one always gives a file of the category it names |
| Emoji.CreateEmojiMessage | src/utils/emojiConfig.js:362-371 | no message exactly for a missing or empty path; otherwise an assistant sticker message with that path and time |
| Emoji.AbsentKeyNoSticker | src/utils/emojiConfig.js:256-261 | an instruction naming a key no category has gives no sticker |
| Emoji.ConstructorInstructionThrows | src/utils/emojiConfig.js:256-259 | "emoji:constructor" throws as written, and gives no sticker when corrected |
| Emoji.NoConstructorCategory | src/utils/emojiConfig.js:6-245 | no category is keyed "constructor" |
| ChatState.Reduce | src/contexts/ChatContext.jsx:24-81 | every action but CLEAR_CHAT keeps the earlier messages as a prefix, adds one message for ADD_MESSAGE and none otherwise, and loses no service flag; CLEAR_CHAT leaves no messages, risk "unknown" and the fresh id; an unknown action keeps the state |
| ChatState.AddMessageAppends | src/contexts/ChatContext.jsx:32-40 | one message is appended, earlier messages and every other field are unchanged, and the message has the payload's fields, an id (the payload's if given) and the current time |
| ChatState.SingleFieldUpdates | src/contexts/ChatContext.jsx:42-52 | SET_TYPING and UPDATE_RISK_LEVEL each set their one field and change nothing else |
| ChatState.UserInfoMerge | src/contexts/ChatContext.jsx:54-61 | the user information gains exactly the payload's keys with its values and keeps every other key |
| ChatState.ToggleFlipsOne | src/contexts/ChatContext.jsx:63-70 | exactly one flag flips as the reducer reads it, and nothing else changes |
| ChatState.ToggleTwice | src/contexts/ChatContext.jsx:63-70 | toggling twice restores a present flag, and a missing one comes back as the value it read as |
| ChatState.ClearForgets | src/contexts/ChatContext.jsx:6-22 | CLEAR_CHAT gives the same state whatever came before: no messages, not typing, the fresh id, risk "unknown", depth 0, every service off |
| ChatState.InitSessionSetsId | src/contexts/ChatContext.jsx:26-30 | only the session id changes: the payload's when non-empty, the fresh one otherwise |
| ChatState.UnknownKeepsState | src/contexts/ChatContext.jsx:78-79 | an unknown action keeps the state |
| ChatState.HistoryOnlyGrows | src/contexts/ChatContext.jsx:24-81 | without CLEAR_CHAT the earlier messages stay as a prefix, one message is added per ADD_MESSAGE, and no service flag disappears |
| Glimmer.Split | src/services/glimmerApi.js:198 | splitting always gives at least one piece |
| Glimmer.SplitPiecesCommaFree | src/services/glimmerApi.js:198 | no piece contains a comma |
| Glimmer.JoinSplit | src/services/glimmerApi.js:198 | joining the pieces with commas gives the string back |
| Glimmer.SplitAround | src/services/glimmerApi.js:198 | splitting a + "," + b gives the pieces of a, then the pieces of b |
| Glimmer.SplitJoin | src/services/glimmerApi.js:198 | splitting a join of comma-free pieces gives the pieces back |
| Glimmer.SplitCommaFree | src/services/glimmerApi.js:198 | a comma-free string splits into itself |
| Glimmer.MapAllAt | src/services/glimmerApi.js:199 | mapping keeps the length and applies the function at each position |
| Glimmer.MapAllAppend | src/services/glimmerApi.js:199 | mapping distributes over concatenation |
| Glimmer.TrimAllAt | src/services/glimmerApi.js:199 | piece i of the result is piece i of the input, trimmed |
| Glimmer.TrimAllAppend | src/services/glimmerApi.js:199 | trimming each piece distributes over concatenation |
| Glimmer.ParseActions | src/services/glimmerApi.js:192-201 | a missing value gives no actions, and every action is non-empty |
| Glimmer.ParseOfString | src/services/glimmerApi.js:192-201 | the empty string needs no special case: the chain gives the empty list for it |
| Glimmer.NonEmptyAppend | src/services/glimmerApi.js:200 | filtering distributes over concatenation |
| Glimmer.ParseKeepsOrder | src/services/glimmerApi.js:192-201 | the actions of a + "," + b are the actions of a followed by the actions of b |
| Glimmer.NonEmptyMembers | src/services/glimmerApi.js:200 | the filter keeps exactly the non-empty members |
| Glimmer.ActionsArePieces | src/services/glimmerApi.js:197-200 | the actions are exactly the trimmed comma-separated pieces that are not blank |
| Glimmer.ActionsAreClean | src/services/glimmerApi.js:197-200 | every action is non-empty, trimmed and free of commas |
| Glimmer.TrimAllOfTrimmed | src/services/glimmerApi.js:199 | trimming leaves already-trimmed actions unchanged |
| Glimmer.NonEmptyOfNonEmpty | src/services/glimmerApi.js:200 | filtering keeps a list of non-empty strings whole |
| Glimmer.ParseJoinRoundTrip | src/services/glimmerApi.js:192-201 | joining the actions with commas and parsing again gives the same actions, for every input, missing and empty included |
| Glimmer.MapCharacterState | src/services/glimmerApi.js:208-221 | the eight known states map to themselves, every other state to "general", and the result is always a known state that maps to itself |
| Glimmer.CharacterStateIdempotent | src/services/glimmerApi.js:208-221 | mapping a state twice is mapping it once |
| Glimmer.MapRiskLevel | src/services/glimmerApi.js:228-237 | none, low, medium and high map to themselves, every other level to "none", and the result is always a known level |
| Glimmer.RiskLevelIdempotent | src/services/glimmerApi.js:228-237 | mapping a level twice is mapping it once, and "critical" is shown as "none" |

## Left out

- Logging (`console.log` and `console.error`) is not modelled. Nor are the timestamps of the
  assessment and the fallbacks, or `getStatus`, which only report.
- `Math.random()`, `uuidv4()` and `new Date()` are parameters. Nothing is assumed about them
  beyond the range [0, 1) of a draw.
- Weights are exact reals. JavaScript sums doubles, so a sum that lands exactly on a threshold
  (0.3, 0.6, 0.8, 0.4 for stickers) may round to the other side there.
- RiskAssessment.AnalyzeEmotionalState: the strict comparison `weight > maxWeight` compares
  exact products, where JavaScript compares doubles. Two equal products can then differ. For
  "我很难过又伤心，还很愤怒、生气、讨厌", sadness scores 0.6 × 2 and anger 0.4 × 3; as doubles
  these are 1.2 and 1.2000000000000002, so the source makes anger primary, where the model keeps
  sadness.
- Emoji.PickBest: the same holds for `score > max.score` in the sticker reduce. Two categories
  whose exact scores tie can be told apart by double rounding in the source.
- `toLowerCase` is modelled on ASCII letters only; every phrase table is Chinese or ASCII.
- Agent.AgentConfidence: a message's length is its number of characters. JavaScript's
  `message.length` counts UTF-16 units, so a character outside the Basic Multilingual Plane
  counts twice there. Emoji and CJK Extension B characters are such characters. For example,
  46 Chinese characters and 3 emoji have length 49 in the model and 52 in the source; only the
  source passes 50 and adds 0.1 to the confidence.
- RiskAssessment.AssessmentOf: the previous risk level is a string. The chat route forwards the
  client's `riskLevel` unchecked, and a non-string value is not modelled. An array such as
  `["high"]` is converted to the key "high" and weighs 0.3 in the source. An undefined level
  behaves like any string outside the table, which is how the model treats it.
- A message that is not a string is modelled as `None`. Both services then take their fallback,
  since reading it throws. Other ways the `try` blocks could throw do not arise in the model.
- RiskAssessment.AssessmentOf: the fallback's emotional state carries only the unknown primary
  emotion; the model fills in an empty map and intensity 0.
- RiskAssessment.AssessmentOf: the depth is the number `userInfo?.conversationDepth || 0`
  yields. A missing or non-numeric depth is not modelled, because the callers pass a count.
- Agent.ResponseContent: the `|| this.responseTemplates.initial` default for an unknown stage is
  not modelled. The stage always comes from the stage machine, which only yields the five
  stages.
- Agent.ConversationStage: the caller's level is compared as a string. An undefined or non-string
  level behaves like any other string outside "critical" and "high", and is modelled that way.
- Emoji.ScenarioEmoji: a scenario name that every object inherits is not modelled. For example,
  `getScenarioEmoji("constructor")` returns an empty object. The model gives no sticker for any
  name outside the scenario table.
- Glimmer.MapCharacterState: inherited names are not modelled. For example,
  `mapCharacterState("constructor")` returns a function, where the model gives "general".
- Glimmer.MapRiskLevel: inherited names are not modelled. For example,
  `mapRiskLevel("toString")` returns a function, where the model gives "none".
- Glimmer.ParseActions: the argument is `None` when it is not a string.
- Emoji.RemovalCutsMatches: the regular expression is modelled with ASCII `\w` and
  case-insensitive matching of the marker. Removing the matches can form a new instruction, as
  in "emojiemoji:a:b". The model states what the source does: it removes each match found in
  the original text once.
- ChatState.Reduce: the SET_TYPING payload is a boolean. The INIT_SESSION payload's session id is
  `None` for a missing or null id; a missing payload object is not modelled. A message and the
  user information are string-keyed records of plain values.
- The rest of the repository is not part of this model: HTTP routes, persistence, React
  components, the demo-script hook, the character and background contexts, scripts and
  configuration, `ChatProvider.sendMessage`, and the network calls of the Glimmer client.

## Findings

| source | as written | input that shows it | evidently intended | confidence | as-written member | corrected member |
|---|---|---|---|---|---|---|
| server/services/riskAssessment.js:283-290 | the previous-level weight is read from an object literal with the caller's string, so names every object inherits answer with a function or object; the sum turns into a string and then NaN, and NaN buckets to low | previous level "constructor" with a message containing 自杀 and 想死 and no protective factor: low | a name outside the table weighs 0, giving critical for that message | not executed | RiskAssessment.PrototypePreviousLevelMasksIntent | RiskAssessment.AssessmentOf |
| src/utils/emojiConfig.js:256-259 | the category is read from an object literal with the instruction's name, so "constructor" and "__proto__" find an inherited member without an `emojis` list, and reading its length throws a TypeError | "emoji:constructor" | an unknown category gives no sticker | not executed | Emoji.ConstructorInstructionThrows | Emoji.EmojiByInstruction |
