/** Shared vocabulary: optional values, risk levels, and the JavaScript string
    operations the engine relies on (substring search, filtering a phrase list,
    de-duplication, ASCII lower-casing, whitespace trimming). */
module Common {

  datatype Option<+T> = None | Some(value: T)

  /** The discrete risk levels the assessment and the dialogue agent produce. */
  datatype Level = Low | Medium | High | Critical

  /** Position of a level in the order low < medium < high < critical. */
  function Rank(l: Level): nat
  {
    match l
    case Low => 0
    case Medium => 1
    case High => 2
    case Critical => 3
  }

  // ---------------------------------------------------------------------------
  // Substring search (String.prototype.includes)
  // ---------------------------------------------------------------------------

  /** `key` occurs as a contiguous run of `text`; the empty key occurs everywhere. */
  predicate Contains(text: string, key: string)
    decreases |text|
  {
    key <= text || (|text| > 0 && Contains(text[1..], key))
  }

  /** `key` occurs in `text` starting at index `i`. */
  predicate OccursAt(text: string, key: string, i: int)
  {
    0 <= i && i + |key| <= |text| && text[i..i + |key|] == key
  }

  /** Every occurrence is found by the recursive search. */
  lemma {:induction false} OccursImpliesContains(text: string, key: string, i: int)
    requires OccursAt(text, key, i)
    ensures Contains(text, key)
    decreases i
  {
    if i == 0 {
      assert text[..|key|] == key;
    } else {
      assert text[1..][i - 1..i - 1 + |key|] == text[i..i + |key|];
      OccursImpliesContains(text[1..], key, i - 1);
    }
  }

  /** Whatever the recursive search finds is an occurrence at some index. */
  lemma {:induction false} ContainsImpliesOccurs(text: string, key: string)
    requires Contains(text, key)
    ensures exists i :: OccursAt(text, key, i)
    decreases |text|
  {
    if key <= text {
      assert text[0..|key|] == key;
      assert OccursAt(text, key, 0);
    } else {
      ContainsImpliesOccurs(text[1..], key);
      var i :| OccursAt(text[1..], key, i);
      assert text[i + 1..i + 1 + |key|] == text[1..][i..i + |key|];
      assert OccursAt(text, key, i + 1);
    }
  }

  /** The recursive search agrees with the positional definition of an occurrence. */
  lemma ContainsIffOccurs(text: string, key: string)
    ensures Contains(text, key) <==> exists i :: OccursAt(text, key, i)
  {
    if Contains(text, key) {
      ContainsImpliesOccurs(text, key);
    }
    if exists i :: OccursAt(text, key, i) {
      var i :| OccursAt(text, key, i);
      OccursImpliesContains(text, key, i);
    }
  }

  /** An occurrence in either half is an occurrence in the joined text. */
  lemma ContainsInJoin(a: string, b: string, key: string)
    requires Contains(a, key) || Contains(b, key)
    ensures Contains(a + b, key)
  {
    ContainsIffOccurs(a, key);
    ContainsIffOccurs(b, key);
    ContainsIffOccurs(a + b, key);
    if Contains(a, key) {
      var i :| OccursAt(a, key, i);
      assert (a + b)[i..i + |key|] == a[i..i + |key|];
      assert OccursAt(a + b, key, i);
    } else {
      var i :| OccursAt(b, key, i);
      assert (a + b)[|a| + i..|a| + i + |key|] == b[i..i + |key|];
      assert OccursAt(a + b, key, |a| + i);
    }
  }

  // ---------------------------------------------------------------------------
  // Filtering a phrase list (keys.filter(k => text.includes(k)))
  // ---------------------------------------------------------------------------

  /** The entries of `keys` that occur in `text`, in the order of `keys`.
      Defined from the back, so that a loop over a prefix of `keys` extends it
      one entry at a time. */
  function Matches(text: string, keys: seq<string>): seq<string>
    decreases |keys|
  {
    if keys == [] then []
    else
      var last := keys[|keys| - 1];
      Matches(text, keys[..|keys| - 1]) + (if Contains(text, last) then [last] else [])
  }

  /** The matches are exactly the entries that occur in the text, and no more
      than there are entries. Kept apart from the function so that callers
      that only count matches do not pay for it. */
  lemma {:induction false} MatchesMembership(text: string, keys: seq<string>)
    ensures |Matches(text, keys)| <= |keys|
    ensures forall k :: k in Matches(text, keys) <==> k in keys && Contains(text, k)
    decreases |keys|
  {
    if keys != [] {
      MatchesMembership(text, keys[..|keys| - 1]);
      assert keys == keys[..|keys| - 1] + [keys[|keys| - 1]];
    }
  }

  /** keys.some(k => text.includes(k)): at least one entry occurs. */
  predicate SomeOccurs(text: string, keys: seq<string>)
  {
    Matches(text, keys) != []
  }

  lemma SomeOccursIff(text: string, keys: seq<string>)
    ensures SomeOccurs(text, keys) <==> exists k :: k in keys && Contains(text, k)
  {
    MatchesMembership(text, keys);
    if SomeOccurs(text, keys) {
      assert Matches(text, keys)[0] in Matches(text, keys);
    }
    if exists k :: k in keys && Contains(text, k) {
      var k :| k in keys && Contains(text, k);
      assert k in Matches(text, keys);
    }
  }

  /** A phrase list without repetitions gives a match list without repetitions. */
  lemma {:induction false} MatchesOfDistinct(text: string, keys: seq<string>)
    requires NoDuplicates(keys)
    ensures NoDuplicates(Matches(text, keys))
    decreases |keys|
  {
    if keys != [] {
      var init := keys[..|keys| - 1];
      assert NoDuplicates(init);
      MatchesOfDistinct(text, init);
      MatchesMembership(text, init);
      assert keys[|keys| - 1] !in init;
    }
  }

  // ---------------------------------------------------------------------------
  // De-duplication ([...new Set(xs)])
  // ---------------------------------------------------------------------------

  predicate NoDuplicates<T(==)>(s: seq<T>)
  {
    forall i, j :: 0 <= i < j < |s| ==> s[i] != s[j]
  }

  /** The distinct elements of `s`, each at the place of its first occurrence. */
  function Dedup<T(==,!new)>(s: seq<T>): (r: seq<T>)
    ensures NoDuplicates(r)
    ensures forall x :: x in r <==> x in s
    ensures |r| <= |s|
    decreases |s|
  {
    if s == [] then []
    else
      var d := Dedup(s[..|s| - 1]);
      var last := s[|s| - 1];
      if last in d then d else d + [last]
  }

  /** A list that already has no repetitions is left unchanged. */
  lemma {:induction false} DedupOfDistinct<T(!new)>(s: seq<T>)
    requires NoDuplicates(s)
    ensures Dedup(s) == s
    decreases |s|
  {
    if s != [] {
      DedupOfDistinct(s[..|s| - 1]);
      assert s[|s| - 1] !in s[..|s| - 1];
      assert s[..|s| - 1] + [s[|s| - 1]] == s;
    }
  }

  // ---------------------------------------------------------------------------
  // Case and whitespace
  // ---------------------------------------------------------------------------

  /** ASCII lower-casing; every phrase table in this system is CJK or ASCII. */
  function LowerChar(c: char): char
  {
    if 'A' <= c <= 'Z' then (c as int + 32) as char else c
  }

  predicate IsUpper(c: char)
  {
    'A' <= c <= 'Z'
  }

  predicate IsAsciiLetter(c: char)
  {
    'A' <= c <= 'Z' || 'a' <= c <= 'z'
  }

  /** Lower-casing keeps the length, leaves no upper-case ASCII letter, and
      keeps every character that is not one. */
  function Lower(s: string): (r: string)
    ensures |r| == |s|
    ensures forall i :: 0 <= i < |r| ==> !IsUpper(r[i])
    ensures forall i :: 0 <= i < |s| && !IsUpper(s[i]) ==> r[i] == s[i]
  {
    seq(|s|, i requires 0 <= i < |s| => LowerChar(s[i]))
  }

  /** Lower-casing twice is lower-casing once. */
  lemma LowerIdempotent(s: string)
    ensures Lower(Lower(s)) == Lower(s)
  {
  }

  /** A phrase without ASCII letters occurs in the lower-cased text exactly
      when it occurs in the text: lower-casing cannot create or destroy a
      match of the CJK phrase tables. */
  lemma ContainsLower(text: string, key: string)
    requires forall j :: 0 <= j < |key| ==> !IsAsciiLetter(key[j])
    ensures Contains(Lower(text), key) <==> Contains(text, key)
  {
    ContainsIffOccurs(Lower(text), key);
    ContainsIffOccurs(text, key);
    forall i | 0 <= i && i + |key| <= |text|
      ensures OccursAt(Lower(text), key, i) <==> OccursAt(text, key, i)
    {
      OccursAtLower(text, key, i);
    }
  }

  /** At one position: the letter-free key is there in the lower-cased text
      exactly when it is there in the text. */
  lemma OccursAtLower(text: string, key: string, i: int)
    requires forall j :: 0 <= j < |key| ==> !IsAsciiLetter(key[j])
    requires 0 <= i && i + |key| <= |text|
    ensures OccursAt(Lower(text), key, i) <==> OccursAt(text, key, i)
  {
    var low := Lower(text)[i..i + |key|];
    var orig := text[i..i + |key|];
    forall j | 0 <= j < |key|
      ensures low[j] == key[j] <==> orig[j] == key[j]
    {
      assert low[j] == LowerChar(orig[j]);
    }
    if low == key {
      assert orig == key;
    }
    if orig == key {
      assert low == key;
    }
  }

  /** Filtering a letter-free phrase list over the lower-cased text gives the
      same matches as over the text itself. */
  lemma {:induction false} MatchesLower(text: string, keys: seq<string>)
    requires forall k, j :: k in keys && 0 <= j < |k| ==> !IsAsciiLetter(k[j])
    ensures Matches(Lower(text), keys) == Matches(text, keys)
    decreases |keys|
  {
    if keys != [] {
      var last := keys[|keys| - 1];
      MatchesLower(text, keys[..|keys| - 1]);
      ContainsLower(text, last);
    }
  }

  /** The characters String.prototype.trim removes: white space and line terminators. */
  predicate IsJsSpace(c: char)
  {
    c == '\t' || c == '\n' || c == '\U{000B}' || c == '\U{000C}' || c == '\r' || c == ' '
    || c == '\U{00A0}' || c == '\U{1680}' || ('\U{2000}' <= c <= '\U{200A}')
    || c == '\U{2028}' || c == '\U{2029}' || c == '\U{202F}' || c == '\U{205F}'
    || c == '\U{3000}' || c == '\U{FEFF}'
  }

  /** Neither end of `s` is white space. */
  predicate IsTrimmed(s: string)
  {
    s == [] || (!IsJsSpace(s[0]) && !IsJsSpace(s[|s| - 1]))
  }

  function TrimStart(s: string): (r: string)
    ensures |r| <= |s| && r == s[|s| - |r|..]
    ensures forall i :: 0 <= i < |s| - |r| ==> IsJsSpace(s[i])
    ensures r == [] || !IsJsSpace(r[0])
    decreases |s|
  {
    if s != [] && IsJsSpace(s[0]) then TrimStart(s[1..]) else s
  }

  function TrimEnd(s: string): (r: string)
    ensures |r| <= |s| && r == s[..|r|]
    ensures forall i :: |r| <= i < |s| ==> IsJsSpace(s[i])
    ensures r == [] || !IsJsSpace(r[|r| - 1])
    decreases |s|
  {
    if s != [] && IsJsSpace(s[|s| - 1]) then TrimEnd(s[..|s| - 1]) else s
  }

  /** `r` is the run of `s` starting at `i`, and everything around it is white space. */
  predicate TrimmedFrom(s: string, r: string, i: int)
  {
    && 0 <= i <= |s| - |r|
    && r == s[i..i + |r|]
    && (forall k :: 0 <= k < i ==> IsJsSpace(s[k]))
    && (forall k :: i + |r| <= k < |s| ==> IsJsSpace(s[k]))
  }

  /** String.prototype.trim: `s` with the white space at both ends removed. */
  function Trim(s: string): (r: string)
    ensures IsTrimmed(r)
    ensures exists i :: TrimmedFrom(s, r, i)
  {
    var t := TrimStart(s);
    var r := TrimEnd(t);
    TrimmedFromParts(s, t, r);
    assert TrimmedFrom(s, r, |s| - |t|);
    assert r != [] ==> r[0] == t[0] && r[|r| - 1] == t[|r| - 1];
    r
  }

  lemma TrimmedFromParts(s: string, t: string, r: string)
    requires |t| <= |s| && t == s[|s| - |t|..]
    requires forall i :: 0 <= i < |s| - |t| ==> IsJsSpace(s[i])
    requires |r| <= |t| && r == t[..|r|]
    requires forall i :: |r| <= i < |t| ==> IsJsSpace(t[i])
    ensures TrimmedFrom(s, r, |s| - |t|)
  {
    var i := |s| - |t|;
    forall k | i + |r| <= k < |s|
      ensures IsJsSpace(s[k])
    {
      assert s[k] == t[k - i];
    }
  }

  /** Trimming a string whose ends are not white space changes nothing. */
  lemma TrimOfTrimmed(s: string)
    requires IsTrimmed(s)
    ensures Trim(s) == s
  {
  }

  /** Trimming is idempotent. */
  lemma TrimIdempotent(s: string)
    ensures Trim(Trim(s)) == Trim(s)
  {
    TrimOfTrimmed(Trim(s));
  }

  /** Every character that survives trimming was in the input. */
  lemma TrimChars(s: string, c: char)
    requires c in Trim(s)
    ensures c in s
  {
    var t := TrimStart(s);
    var r := TrimEnd(t);
    assert Trim(s) == r;
    var k :| 0 <= k < |r| && r[k] == c;
    assert r[k] == t[k];
    assert t[k] == s[|s| - |t| + k];
  }

  // ---------------------------------------------------------------------------
  // Object-literal lookups with a caller-supplied key
  // ---------------------------------------------------------------------------

  /** Names every plain JavaScript object answers through Object.prototype;
      each of them reads as a function or an object, never as undefined. */
  predicate IsPrototypeMember(key: string)
  {
    key in ["constructor", "__proto__", "toString", "toLocaleString", "valueOf",
            "hasOwnProperty", "isPrototypeOf", "propertyIsEnumerable",
            "__defineGetter__", "__defineSetter__", "__lookupGetter__", "__lookupSetter__"]
  }

  // ---------------------------------------------------------------------------
  // Arithmetic helpers
  // ---------------------------------------------------------------------------

  function Min(a: real, b: real): real { if a <= b then a else b }
  function Max(a: real, b: real): real { if a >= b then a else b }

  /** The index Math.floor(draw * n) picks from a list of length n, for a draw in [0, 1). */
  function PickIndex(draw: real, n: nat): (k: nat)
    requires 0.0 <= draw < 1.0 && n > 0
    ensures k < n
  {
    var x := draw * n as real;
    assert 0.0 <= x < n as real by {
      assert (1.0 - draw) * n as real > 0.0;
    }
    x.Floor
  }
}
