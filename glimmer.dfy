/** The static helpers of the Glimmer client in src/services/glimmerApi.js:
    turning the backend's comma-separated action string into a list, and
    the two total lookups from backend names to names the front end knows. */
module Glimmer {
  import opened Common

  // ---------------------------------------------------------------------------
  // Splitting and joining on commas
  // ---------------------------------------------------------------------------

  /** String.prototype.split(','): the pieces between commas, always at least one. */
  function Split(s: string): (r: seq<string>)
    ensures |r| >= 1
    decreases |s|
  {
    if s == [] then [""]
    else
      var rest := Split(s[1..]);
      if s[0] == ',' then [""] + rest else [[s[0]] + rest[0]] + rest[1..]
  }

  /** Array.prototype.join(','). */
  function Join(parts: seq<string>): string
    decreases |parts|
  {
    if parts == [] then ""
    else if |parts| == 1 then parts[0]
    else parts[0] + "," + Join(parts[1..])
  }

  predicate CommaFree(s: string)
  {
    ',' !in s
  }

  /** No piece of a split contains the separator. */
  lemma {:induction false} SplitPiecesCommaFree(s: string)
    ensures forall p :: p in Split(s) ==> CommaFree(p)
    decreases |s|
  {
    if s != [] {
      SplitPiecesCommaFree(s[1..]);
      var rest := Split(s[1..]);
      if s[0] != ',' {
        assert rest[0] in rest;
        forall p | p in Split(s)
          ensures CommaFree(p)
        {
          if p != [s[0]] + rest[0] {
            assert p in rest[1..];
            assert p in rest;
          }
        }
      }
    }
  }

  /** Joining the pieces of a split gives the string back. */
  lemma {:induction false} JoinSplit(s: string)
    ensures Join(Split(s)) == s
    decreases |s|
  {
    if s != [] {
      JoinSplit(s[1..]);
      var rest := Split(s[1..]);
      if s[0] == ',' {
        assert Join([""] + rest) == "" + "," + Join(rest);
      } else {
        var r := [[s[0]] + rest[0]] + rest[1..];
        if |rest| == 1 {
          assert Join(rest) == rest[0];
        } else {
          assert Join(rest) == rest[0] + "," + Join(rest[1..]);
          assert r[1..] == rest[1..];
        }
      }
    }
  }

  /** Splitting a string formed by joining two strings with a comma splits each of them. */
  lemma {:induction false} SplitAround(a: string, b: string)
    ensures Split(a + "," + b) == Split(a) + Split(b)
    decreases |a|
  {
    if a == [] {
      assert ("" + "," + b)[1..] == b;
    } else {
      var s := a + "," + b;
      assert s[1..] == a[1..] + "," + b;
      SplitAround(a[1..], b);
    }
  }

  /** Splitting a join of comma-free pieces gives the pieces back. */
  lemma {:induction false} SplitJoin(parts: seq<string>)
    requires |parts| >= 1
    requires forall i :: 0 <= i < |parts| ==> CommaFree(parts[i])
    ensures Split(Join(parts)) == parts
    decreases |parts|
  {
    if |parts| == 1 {
      SplitCommaFree(parts[0]);
    } else {
      SplitCommaFree(parts[0]);
      SplitJoin(parts[1..]);
      SplitAround(parts[0], Join(parts[1..]));
    }
  }

  /** A comma-free string splits into itself. */
  lemma {:induction false} SplitCommaFree(s: string)
    requires CommaFree(s)
    ensures Split(s) == [s]
    decreases |s|
  {
    if s != [] {
      assert CommaFree(s[1..]);
      SplitCommaFree(s[1..]);
      assert s[0] in s;
      assert [s[0]] + s[1..] == s;
    }
  }

  // ---------------------------------------------------------------------------
  // parseActions
  // ---------------------------------------------------------------------------

  /** xs.map(f), for the one map the parser applies. */
  function MapAll(f: string -> string, xs: seq<string>): seq<string>
    decreases |xs|
  {
    if xs == [] then [] else [f(xs[0])] + MapAll(f, xs[1..])
  }

  lemma {:induction false} MapAllAt(f: string -> string, xs: seq<string>)
    ensures |MapAll(f, xs)| == |xs|
    ensures forall i :: 0 <= i < |xs| ==> MapAll(f, xs)[i] == f(xs[i])
    decreases |xs|
  {
    if xs != [] {
      MapAllAt(f, xs[1..]);
    }
  }

  lemma {:induction false} MapAllAppend(f: string -> string, a: seq<string>, b: seq<string>)
    ensures MapAll(f, a + b) == MapAll(f, a) + MapAll(f, b)
    decreases |a|
  {
    if a != [] {
      assert (a + b)[1..] == a[1..] + b;
      MapAllAppend(f, a[1..], b);
      assert (a + b)[0] == a[0];
    } else {
      assert a + b == b;
    }
  }

  /** map(action => action.trim()) */
  function TrimAll(pieces: seq<string>): seq<string>
  {
    MapAll(Trim, pieces)
  }

  /** Piece `i` of the result is piece `i` of the input, trimmed. */
  lemma TrimAllAt(pieces: seq<string>)
    ensures |TrimAll(pieces)| == |pieces|
    ensures forall i :: 0 <= i < |pieces| ==> TrimAll(pieces)[i] == Trim(pieces[i])
  {
    MapAllAt(Trim, pieces);
  }

  lemma TrimAllAppend(a: seq<string>, b: seq<string>)
    ensures TrimAll(a + b) == TrimAll(a) + TrimAll(b)
  {
    MapAllAppend(Trim, a, b);
  }

  /** filter(action => action.length > 0) */
  function NonEmpty(xs: seq<string>): seq<string>
    decreases |xs|
  {
    if xs == [] then []
    else (if |xs[0]| > 0 then [xs[0]] else []) + NonEmpty(xs[1..])
  }

  /** parseActions: the empty list for a missing value (anything that is not a
      string) or the empty string; otherwise the pieces between commas,
      trimmed, without the empty ones. */
  function ParseActions(actionString: Option<string>): (r: seq<string>)
    ensures actionString.None? ==> r == []
    ensures forall t :: t in r ==> |t| > 0
  {
    if actionString.None? || actionString.value == "" then []
    else
      NonEmptyMembers(TrimAll(Split(actionString.value)));
      NonEmpty(TrimAll(Split(actionString.value)))
  }

  /** The empty string needs no special case: it has one empty piece. */
  lemma ParseOfString(s: string)
    ensures ParseActions(Some(s)) == NonEmpty(TrimAll(Split(s)))
  {
    if s == "" {
      assert Split(s) == [""];
      TrimAllAt([""]);
      assert TrimAll([""]) == [""];
      assert NonEmpty([""]) == [];
    }
  }

  lemma {:induction false} NonEmptyAppend(a: seq<string>, b: seq<string>)
    ensures NonEmpty(a + b) == NonEmpty(a) + NonEmpty(b)
    decreases |a|
  {
    if a != [] {
      assert (a + b)[1..] == a[1..] + b;
      NonEmptyAppend(a[1..], b);
      assert (a + b)[0] == a[0];
    } else {
      assert a + b == b;
    }
  }

  /** The actions keep the order of the input: the actions before a comma
      come first, then the actions after it. */
  lemma ParseKeepsOrder(a: string, b: string)
    ensures ParseActions(Some(a + "," + b)) == ParseActions(Some(a)) + ParseActions(Some(b))
  {
    SplitAround(a, b);
    TrimAllAppend(Split(a), Split(b));
    NonEmptyAppend(TrimAll(Split(a)), TrimAll(Split(b)));
    ParseOfString(a);
    ParseOfString(b);
    ParseOfString(a + "," + b);
  }

  lemma {:induction false} NonEmptyMembers(xs: seq<string>)
    ensures forall t :: t in NonEmpty(xs) <==> t in xs && |t| > 0
    decreases |xs|
  {
    if xs != [] {
      NonEmptyMembers(xs[1..]);
      assert xs == [xs[0]] + xs[1..];
    }
  }

  /** The actions are exactly the pieces between commas that are not blank,
      trimmed. */
  lemma ActionsArePieces(s: string)
    ensures forall t :: t in ParseActions(Some(s)) <==> exists p :: p in Split(s) && t == Trim(p) && |t| > 0
  {
    ParseOfString(s);
    var pieces := Split(s);
    NonEmptyMembers(TrimAll(pieces));
    TrimAllAt(pieces);
    forall t | t in ParseActions(Some(s))
      ensures exists p :: p in pieces && t == Trim(p) && |t| > 0
    {
      var i :| 0 <= i < |pieces| && TrimAll(pieces)[i] == t;
      assert pieces[i] in pieces;
    }
    forall t | exists p :: p in pieces && t == Trim(p) && |t| > 0
      ensures t in ParseActions(Some(s))
    {
      var p :| p in pieces && t == Trim(p) && |t| > 0;
      var i :| 0 <= i < |pieces| && pieces[i] == p;
      assert TrimAll(pieces)[i] == t;
    }
  }

  /** Every action is non-empty, trimmed and free of commas. */
  lemma ActionsAreClean(s: string)
    ensures forall t :: t in ParseActions(Some(s)) ==> IsAction(t) && CommaFree(t)
  {
    ActionsArePieces(s);
    SplitPiecesCommaFree(s);
    forall t | t in ParseActions(Some(s))
      ensures IsAction(t) && CommaFree(t)
    {
      var p :| p in Split(s) && t == Trim(p) && |t| > 0;
      if ',' in t {
        TrimChars(p, ',');
      }
    }
  }

  /** What an action looks like: non-empty and trimmed. */
  predicate IsAction(t: string)
  {
    |t| > 0 && IsTrimmed(t)
  }

  /** Trimming leaves trimmed pieces alone. */
  lemma TrimAllOfTrimmed(parts: seq<string>)
    requires forall i :: 0 <= i < |parts| ==> IsAction(parts[i])
    ensures TrimAll(parts) == parts
  {
    TrimAllAt(parts);
    forall i | 0 <= i < |parts|
      ensures TrimAll(parts)[i] == parts[i]
    {
      TrimOfTrimmed(parts[i]);
    }
  }

  /** Filtering keeps a list of non-empty pieces whole. */
  lemma {:induction false} NonEmptyOfNonEmpty(parts: seq<string>)
    requires forall i :: 0 <= i < |parts| ==> |parts[i]| > 0
    ensures NonEmpty(parts) == parts
    decreases |parts|
  {
    if parts != [] {
      NonEmptyOfNonEmpty(parts[1..]);
      assert parts == [parts[0]] + parts[1..];
    }
  }

  /** Joining the actions with commas and parsing again gives the same actions. */
  lemma ParseJoinRoundTrip(actionString: Option<string>)
    ensures var r := ParseActions(actionString); ParseActions(Some(Join(r))) == r
  {
    var r := ParseActions(actionString);
    if r != [] {
      var s := actionString.value;
      ActionsAreClean(s);
      assert forall i :: 0 <= i < |r| ==> r[i] in r;
      SplitJoin(r);
      ParseOfString(Join(r));
      TrimAllOfTrimmed(r);
      NonEmptyOfNonEmpty(r);
    }
  }

  // ---------------------------------------------------------------------------
  // The two lookups
  // ---------------------------------------------------------------------------

  /** The character states the front end draws, each mapped to itself. */
  const StateMapping: map<string, string> := map[
    "general" := "general", "greeting" := "greeting", "listening" := "listening",
    "encourage" := "encourage", "great" := "great", "clapping" := "clapping",
    "relaxing" := "relaxing", "tips" := "tips"]

  /** mapCharacterState: the table's entry, or "general" for a state it lacks. */
  /** The known states pass through, every other state becomes "general", the
      result is always a known state, and mapping twice is mapping once. */
  function MapCharacterState(backendState: string): (r: string)
    ensures r in StateMapping
    ensures backendState in StateMapping ==> r == backendState
    ensures backendState !in StateMapping ==> r == "general"
    ensures r in StateMapping && StateMapping[r] == r
  {
    if backendState in StateMapping then StateMapping[backendState] else "general"
  }

  /** Mapping twice is mapping once. */
  lemma CharacterStateIdempotent(backendState: string)
    ensures MapCharacterState(MapCharacterState(backendState)) == MapCharacterState(backendState)
  {
  }

  /** The risk levels the front end shows, each mapped to itself. */
  const RiskMapping: map<string, string> := map[
    "none" := "none", "low" := "low", "medium" := "medium", "high" := "high"]

  /** mapRiskLevel: the table's entry, or "none" for a level it lacks. */
  /** The four known levels pass through, every other level becomes "none"
      (including "critical", which the table lacks), and the result is always
      a known level. */
  function MapRiskLevel(backendRiskLevel: string): (r: string)
    ensures r in RiskMapping
    ensures backendRiskLevel in RiskMapping ==> r == backendRiskLevel
    ensures backendRiskLevel !in RiskMapping ==> r == "none"
  {
    if backendRiskLevel in RiskMapping then RiskMapping[backendRiskLevel] else "none"
  }

  /** Mapping twice is mapping once, and "critical" is shown as "none". */
  lemma RiskLevelIdempotent(backendRiskLevel: string)
    ensures MapRiskLevel(MapRiskLevel(backendRiskLevel)) == MapRiskLevel(backendRiskLevel)
    ensures MapRiskLevel("critical") == "none"
  {
  }
}
