/** The chat session state of src/contexts/ChatContext.jsx and its reducer.
    Each branch of the reducer builds a new state from the old one with
    object spreads, so the model is a pure function from a state and an
    action to a state. The identifier uuidv4() would draw and the clock
    reading new Date() would take are passed in. */
module ChatState {
  import opened Common

  /** The values the state's records hold. */
  datatype Value = BoolValue(b: bool) | NumberValue(n: real) | TextValue(s: string) | TimeValue(t: int) | Null

  /** A message, user information and a payload are records keyed by field name. */
  type Record = map<string, Value>

  datatype ChatState = ChatState(
    messages: seq<Record>,
    isTyping: bool,
    sessionId: Option<string>,
    userRiskLevel: string,
    userInfo: Record,
    services: map<string, bool>)

  /** The state a session starts from. */
  const InitialUserInfo: Record := map[
    "hasSharedEmotions" := BoolValue(false),
    "hasExpressedSuicidalThoughts" := BoolValue(false),
    "conversationDepth" := NumberValue(0.0)]

  const InitialServices: map<string, bool> := map[
    "emergency" := false, "counseling" := false, "games" := false, "assessment" := false]

  const InitialState: ChatState := ChatState([], false, None, "unknown", InitialUserInfo, InitialServices)

  /** The actions the reducer understands, with their payloads; any other
      action type is `Unknown`. INIT_SESSION's payload id is None when it is
      missing or null. */
  datatype Action =
    | InitSession(payloadSessionId: Option<string>)
    | AddMessage(message: Record)
    | SetTyping(typing: bool)
    | UpdateRiskLevel(level: string)
    | UpdateUserInfo(info: Record)
    | ToggleService(service: string)
    | ClearChat
    | Unknown

  /** The message ADD_MESSAGE stores: a fresh id, which the payload may
      override, then the payload, then the current time. */
  function StoredMessage(payload: Record, freshId: string, now: int): Record
  {
    (map["id" := TextValue(freshId)] + payload)["timestamp" := TimeValue(now)]
  }

  /** The session id INIT_SESSION keeps: the payload's when it is a non-empty
      string, a fresh one otherwise. */
  function SessionIdFor(payload: Option<string>, freshId: string): string
  {
    if payload.Some? && payload.value != "" then payload.value else freshId
  }

  /** A service flag as the reducer reads it, for truthiness: a missing flag
      reads as false, except a name every object inherits, which reads as a
      function or an object and so as true. */
  function Flag(services: map<string, bool>, key: string): bool
  {
    if key in services then services[key] else IsPrototypeMember(key)
  }

  /** chatReducer: the state after `a`, given the id and time a fresh draw would give. */
  function Reduce(s: ChatState, a: Action, freshId: string, now: int): (t: ChatState)
    ensures !a.ClearChat? ==>
      && |t.messages| == |s.messages| + (if a.AddMessage? then 1 else 0)
      && t.messages[..|s.messages|] == s.messages
      && s.services.Keys <= t.services.Keys
    ensures a.ClearChat? ==> t.messages == [] && t.userRiskLevel == "unknown" && t.sessionId == Some(freshId)
    ensures a.Unknown? ==> t == s
  {
    match a
    case InitSession(p) => s.(sessionId := Some(SessionIdFor(p, freshId)))
    case AddMessage(m) => s.(messages := s.messages + [StoredMessage(m, freshId, now)])
    case SetTyping(b) => s.(isTyping := b)
    case UpdateRiskLevel(l) => s.(userRiskLevel := l)
    case UpdateUserInfo(info) => s.(userInfo := s.userInfo + info)
    case ToggleService(k) => s.(services := s.services[k := !Flag(s.services, k)])
    case ClearChat => InitialState.(sessionId := Some(freshId))
    case Unknown => s
  }

  /** ADD_MESSAGE appends exactly one message, leaves the earlier messages and
      every other field as they were, and the new message carries the
      payload's fields, an id (the payload's if it has one) and the current
      time. */
  lemma AddMessageAppends(s: ChatState, m: Record, freshId: string, now: int)
    ensures var t := Reduce(s, AddMessage(m), freshId, now);
      && |t.messages| == |s.messages| + 1
      && t.messages[..|s.messages|] == s.messages
      && t == s.(messages := t.messages)
      && var msg := t.messages[|s.messages|];
      && msg.Keys == m.Keys + {"id", "timestamp"}
      && msg["timestamp"] == TimeValue(now)
      && msg["id"] == (if "id" in m then m["id"] else TextValue(freshId))
      && (forall k :: k in m && k != "timestamp" ==> msg[k] == m[k])
  {
    var t := Reduce(s, AddMessage(m), freshId, now);
    assert t.messages[|s.messages|] == StoredMessage(m, freshId, now);
  }

  /** SET_TYPING and UPDATE_RISK_LEVEL each change one field only. */
  lemma SingleFieldUpdates(s: ChatState, b: bool, level: string, freshId: string, now: int)
    ensures Reduce(s, SetTyping(b), freshId, now) == s.(isTyping := b)
    ensures Reduce(s, UpdateRiskLevel(level), freshId, now) == s.(userRiskLevel := level)
    ensures Reduce(s, SetTyping(b), freshId, now).isTyping == b
    ensures Reduce(s, UpdateRiskLevel(level), freshId, now).userRiskLevel == level
  {
  }

  /** UPDATE_USER_INFO writes exactly the payload's keys and keeps every other
      key of the user information; nothing outside it changes. */
  lemma UserInfoMerge(s: ChatState, info: Record, freshId: string, now: int)
    ensures var t := Reduce(s, UpdateUserInfo(info), freshId, now);
      && t == s.(userInfo := t.userInfo)
      && t.userInfo.Keys == s.userInfo.Keys + info.Keys
      && (forall k :: k in info ==> t.userInfo[k] == info[k])
      && (forall k :: k in s.userInfo && k !in info ==> t.userInfo[k] == s.userInfo[k])
  {
  }

  /** TOGGLE_SERVICE flips exactly one flag (a missing one becomes true, a
      missing inherited name false) and changes nothing else. */
  lemma ToggleFlipsOne(s: ChatState, k: string, freshId: string, now: int)
    ensures var t := Reduce(s, ToggleService(k), freshId, now);
      && t == s.(services := t.services)
      && t.services.Keys == s.services.Keys + {k}
      && Flag(t.services, k) == !Flag(s.services, k)
      && (forall j :: j in s.services && j != k ==> t.services[j] == s.services[j])
  {
  }

  /** Toggling the same service twice restores a flag that was present; a
      flag that was missing comes back as the value it read as: false, or
      true for an inherited name. */
  lemma ToggleTwice(s: ChatState, k: string, id1: string, id2: string, now1: int, now2: int)
    ensures var t := Reduce(Reduce(s, ToggleService(k), id1, now1), ToggleService(k), id2, now2);
      && (k in s.services ==> t == s)
      && (k !in s.services ==> t == s.(services := s.services[k := IsPrototypeMember(k)]))
      && Flag(t.services, k) == Flag(s.services, k)
  {
    var t1 := Reduce(s, ToggleService(k), id1, now1);
    var t := Reduce(t1, ToggleService(k), id2, now2);
    if k in s.services {
      assert t.services == s.services;
    }
  }

  /** CLEAR_CHAT forgets the whole state: it gives the initial state with the
      fresh id, whatever the state was, with no messages, risk "unknown" and
      conversation depth 0. */
  lemma ClearForgets(s1: ChatState, s2: ChatState, freshId: string, now1: int, now2: int)
    ensures Reduce(s1, ClearChat, freshId, now1) == Reduce(s2, ClearChat, freshId, now2)
    ensures var t := Reduce(s1, ClearChat, freshId, now1);
      && t.messages == [] && !t.isTyping && t.sessionId == Some(freshId)
      && t.userRiskLevel == "unknown" && t.userInfo["conversationDepth"] == NumberValue(0.0)
      && (forall k :: k in t.services ==> !t.services[k])
  {
  }

  /** INIT_SESSION changes only the session id: the payload's when it is a
      non-empty string, the fresh one otherwise. */
  lemma InitSessionSetsId(s: ChatState, p: Option<string>, freshId: string, now: int)
    ensures var t := Reduce(s, InitSession(p), freshId, now);
      && t == s.(sessionId := t.sessionId)
      && (p.Some? && p.value != "" ==> t.sessionId == p)
      && (p.None? || p.value == "" ==> t.sessionId == Some(freshId))
  {
  }

  /** An action the reducer does not know leaves the state as it was. */
  lemma UnknownKeepsState(s: ChatState, freshId: string, now: int)
    ensures Reduce(s, Unknown, freshId, now) == s
  {
  }

  // ---------------------------------------------------------------------------
  // Runs of actions
  // ---------------------------------------------------------------------------

  /** One dispatched action with the id and time it would draw. */
  datatype Step = Step(action: Action, freshId: string, now: int)

  /** The state after a run of steps, applied in order. */
  function ReduceAll(s: ChatState, steps: seq<Step>): ChatState
    decreases |steps|
  {
    if steps == [] then s
    else
      var last := steps[|steps| - 1];
      Reduce(ReduceAll(s, steps[..|steps| - 1]), last.action, last.freshId, last.now)
  }

  function CountAdds(steps: seq<Step>): nat
  {
    if steps == [] then 0
    else CountAdds(steps[..|steps| - 1]) + (if steps[|steps| - 1].action.AddMessage? then 1 else 0)
  }

  /** Without CLEAR_CHAT the history only grows: the earlier messages stay in
      place as a prefix, one message is added per ADD_MESSAGE, and no service
      flag disappears. */
  lemma {:induction false} HistoryOnlyGrows(s: ChatState, steps: seq<Step>)
    requires forall i :: 0 <= i < |steps| ==> !steps[i].action.ClearChat?
    ensures var t := ReduceAll(s, steps);
      && |t.messages| == |s.messages| + CountAdds(steps)
      && t.messages[..|s.messages|] == s.messages
      && s.services.Keys <= t.services.Keys
    decreases |steps|
  {
    if steps != [] {
      var init := steps[..|steps| - 1];
      assert forall i :: 0 <= i < |init| ==> init[i] == steps[i];
      HistoryOnlyGrows(s, init);
      var t0 := ReduceAll(s, init);
      var t := ReduceAll(s, steps);
      assert t0.messages[..|s.messages|] == s.messages;
      assert t.messages[..|t0.messages|] == t0.messages;
      assert t.messages[..|s.messages|] == t0.messages[..|s.messages|];
    }
  }
}
