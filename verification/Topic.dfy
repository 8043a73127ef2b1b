/** Subjects and subscription patterns, `pubsub/shared/topic.py`. */
module Topic {
  import opened Common

  datatype TopicError = EmptySubject | EmptyToken | WildcardInSubject | TailNotLast | PartialWildcard

  const TOKEN_WILDCARD: string := "*"
  const TAIL_WILDCARD: string := ">"

  // ---- Splitting and joining ---------------------------------------------------------------

  /** `s.split(".")`. */
  function Split(s: string): (tokens: seq<string>)
    ensures tokens != []
  {
    if s == "" then [""]
    else
      var rest := Split(s[1..]);
      if s[0] == '.' then [""] + rest else [[s[0]] + rest[0]] + rest[1..]
  }

  function Join(tokens: seq<string>): string
    requires tokens != []
  {
    if |tokens| == 1 then tokens[0] else tokens[0] + "." + Join(tokens[1..])
  }

  lemma {:induction false} JoinSplit(s: string)
    ensures Join(Split(s)) == s
    ensures forall token <- Split(s) :: '.' !in token
  {
    if s != "" {
      var rest := Split(s[1..]);
      JoinSplit(s[1..]);
      assert rest == [rest[0]] + rest[1..];
      if s[0] == '.' {
        assert ([""] + rest)[1..] == rest;
        assert Join([""] + rest) == "" + "." + Join(rest);
      } else {
        var tokens := [[s[0]] + rest[0]] + rest[1..];
        assert tokens[1..] == rest[1..];
        assert Join(tokens) == [s[0]] + Join(rest);
      }
      assert s == [s[0]] + s[1..];
    }
  }

  lemma {:induction false} SplitToken(token: string)
    requires '.' !in token
    ensures Split(token) == [token]
  {
    if token != "" {
      SplitToken(token[1..]);
      assert token == [token[0]] + token[1..];
    }
  }

  lemma {:induction false} SplitFirst(token: string, rest: string)
    requires '.' !in token
    ensures Split(token + "." + rest) == [token] + Split(rest)
  {
    var s := token + "." + rest;
    if token == "" {
      assert s == "." + rest;
      assert s[1..] == rest;
    } else {
      assert s[1..] == token[1..] + "." + rest;
      SplitFirst(token[1..], rest);
      assert token == [token[0]] + token[1..];
    }
  }

  lemma {:induction false} SplitJoin(tokens: seq<string>)
    requires tokens != [] && forall token <- tokens :: '.' !in token
    ensures Split(Join(tokens)) == tokens
  {
    if |tokens| == 1 {
      assert tokens[0] in tokens;
      SplitToken(tokens[0]);
    } else {
      assert tokens[0] in tokens;
      SplitFirst(tokens[0], Join(tokens[1..]));
      SplitJoin(tokens[1..]);
    }
  }

  /** Splitting is injective. */
  lemma SplitInjective(s: string, u: string)
    requires Split(s) == Split(u)
    ensures s == u
  {
    JoinSplit(s);
    JoinSplit(u);
  }

  // ---- Validation --------------------------------------------------------------------------

  predicate Plain(token: string) {
    '*' !in token && '>' !in token
  }

  predicate WellSplit(s: string) {
    s != "" && "" !in Split(s)
  }

  predicate ValidSubject(s: string) {
    WellSplit(s) && forall token <- Split(s) :: Plain(token)
  }

  predicate GoodToken(tokens: seq<string>, i: nat)
    requires i < |tokens|
  {
    if tokens[i] == TAIL_WILDCARD then i == |tokens| - 1 else tokens[i] == TOKEN_WILDCARD || Plain(tokens[i])
  }

  /** `>` only as the last token, wildcards only as whole tokens. */
  predicate ValidTokens(tokens: seq<string>) {
    forall i | 0 <= i < |tokens| :: GoodToken(tokens, i)
  }

  predicate ValidPattern(s: string) {
    WellSplit(s) && ValidTokens(Split(s))
  }

  // ---- Validity, character by character ----------------------------------------------------

  /** Neighbours of position `i` are dots or the ends of the string. */
  predicate Alone(s: string, i: nat)
    requires i < |s|
  {
    (i == 0 || s[i - 1] == '.') && (i + 1 == |s| || s[i + 1] == '.')
  }

  predicate DotEndsToken(s: string, i: nat)
    requires i < |s|
  {
    s[i] == '.' && (i + 1 == |s| || s[i + 1] == '.')
  }

  lemma {:induction false} EmptyTokens(s: string)
    ensures Split(s)[0] == "" <==> s == "" || s[0] == '.'
    ensures "" in Split(s)[1..] <==> exists i | 0 <= i < |s| :: DotEndsToken(s, i)
  {
    if s != "" {
      var rest, tail := Split(s[1..]), s[1..];
      EmptyTokens(tail);
      assert rest == [rest[0]] + rest[1..];
      if "" in rest[1..] {
        var i :| 0 <= i < |tail| && DotEndsToken(tail, i);
        assert DotEndsToken(s, i + 1);
      }
      forall i | 0 <= i < |tail|
        ensures DotEndsToken(tail, i) <==> DotEndsToken(s, i + 1)
      {
      }
      forall i | 0 < i < |s| && DotEndsToken(s, i)
        ensures DotEndsToken(tail, i - 1)
      {
      }
      if s[0] == '.' {
        assert ([""] + rest)[1..] == rest;
        assert DotEndsToken(s, 0) <==> rest[0] == "";
        assert "" in rest <==> rest[0] == "" || "" in rest[1..];
      } else {
        assert !DotEndsToken(s, 0);
        assert ([[s[0]] + rest[0]] + rest[1..])[1..] == rest[1..];
      }
    }
  }

  /** A string splits well if it is not empty and has no dot at an end or next to another dot. */
  lemma WellSplitMeans(s: string)
    ensures WellSplit(s) <==>
      s != "" && s[0] != '.' && s[|s| - 1] != '.' && forall i | 0 < i < |s| :: s[i - 1] == '.' ==> s[i] != '.'
  {
    EmptyTokens(s);
    assert Split(s) == [Split(s)[0]] + Split(s)[1..];
    if s != "" && s[|s| - 1] == '.' {
      assert DotEndsToken(s, |s| - 1);
    }
    forall i | 0 < i < |s| && s[i - 1] == '.' && s[i] == '.'
      ensures DotEndsToken(s, i - 1)
    {
    }
    forall i | 0 <= i < |s| && DotEndsToken(s, i) && i + 1 < |s|
      ensures s[i + 1 - 1] == '.' && s[i + 1] == '.'
    {
    }
  }

  /** The wildcard characters of `s` from `from` on stand alone, and `>` only at the end. */
  predicate WildcardsAlone(s: string, from: nat) {
    forall i | from <= i < |s| && (s[i] == '*' || s[i] == '>') :: Alone(s, i) && (s[i] == '>' ==> i + 1 == |s|)
  }

  lemma FirstToken(s: string)
    requires |Split(s)| > 1
    ensures s == Split(s)[0] + "." + Join(Split(s)[1..]) && Split(Join(Split(s)[1..])) == Split(s)[1..]
    ensures '.' !in Split(s)[0]
  {
    JoinSplit(s);
    SplitJoin(Split(s)[1..]);
  }

  lemma OnlyToken(s: string)
    requires |Split(s)| == 1
    ensures Split(s)[0] == s && '.' !in s
  {
    JoinSplit(s);
    assert Split(s)[0] in Split(s);
  }

  /** One token in front of a dot, or alone. */
  lemma TokenAlone(t: string, s: string)
    requires t != "" && '.' !in t && t <= s && (|s| > |t| ==> s[|t|] == '.')
    ensures (forall i | 0 <= i < |t| && (s[i] == '*' || s[i] == '>') :: Alone(s, i) && (s[i] == '>' ==> i + 1 == |s|))
      <==> (if t == ">" then t == s else t == "*" || Plain(t))
  {
    assert forall i | 0 <= i < |t| :: s[i] == t[i] && t[i] in t;
    if |t| == 1 {
      assert t == [t[0]];
    } else if !Plain(t) {
      var i :| 0 <= i < |t| && (t[i] == '*' || t[i] == '>');
      assert i > 0 ==> s[i - 1] != '.';
      assert i == 0 ==> s[i + 1] == t[1] != '.';
      assert !Alone(s, i);
    }
  }

  lemma WildcardsSplit(t: string, rest: string)
    ensures
      var s := t + "." + rest;
      WildcardsAlone(s, 0) <==>
        WildcardsAlone(rest, 0)
        && forall i | 0 <= i < |t| && (s[i] == '*' || s[i] == '>') :: Alone(s, i) && (s[i] == '>' ==> i + 1 == |s|)
  {
    var s, n := t + "." + rest, |t| + 1;
    assert forall i | 0 <= i < |rest| :: s[i + n] == rest[i];
    forall i | 0 <= i < |rest|
      ensures Alone(s, i + n) <==> Alone(rest, i)
    {
      assert i > 0 ==> s[i + n - 1] == rest[i - 1];
      assert i + 1 < |rest| ==> s[i + n + 1] == rest[i + 1];
    }
    assert s[|t|] == '.';
    if WildcardsAlone(s, 0) {
      forall i | 0 <= i < |rest| && (rest[i] == '*' || rest[i] == '>')
        ensures Alone(rest, i) && (rest[i] == '>' ==> i + 1 == |rest|)
      {
        assert s[i + n] == rest[i];
      }
    }
  }

  lemma {:induction false} TokensMean(s: string)
    requires "" !in Split(s)
    ensures ValidTokens(Split(s)) <==> WildcardsAlone(s, 0)
    decreases |Split(s)|
  {
    hide Split, Join, Alone, Plain;
    var tokens := Split(s);
    assert tokens[0] in tokens;
    if |tokens| == 1 {
      OnlyToken(s);
      TokenAlone(s, s);
      assert ValidTokens(tokens) <==> GoodToken(tokens, 0);
    } else {
      FirstToken(s);
      var rest := Join(tokens[1..]);
      TokensMean(rest);
      TokenAlone(tokens[0], s);
      WildcardsSplit(tokens[0], rest);
      ValidFirst(tokens);
    }
  }

  lemma ValidFirst(tokens: seq<string>)
    requires tokens != []
    ensures ValidTokens(tokens) <==> GoodToken(tokens, 0) && ValidTokens(tokens[1..])
  {
    forall i | 0 <= i < |tokens[1..]|
      ensures GoodToken(tokens[1..], i) <==> GoodToken(tokens, i + 1)
    {
    }
    forall i | 0 < i < |tokens| && ValidTokens(tokens[1..])
      ensures GoodToken(tokens, i)
    {
      assert GoodToken(tokens[1..], i - 1);
    }
  }

  /** A pattern is valid if it splits well, every `*` and `>` is a token of its own, and `>` is the last. */
  lemma ValidPatternMeans(s: string)
    ensures ValidPattern(s) <==>
      && WellSplit(s)
      && forall i | 0 <= i < |s| && (s[i] == '*' || s[i] == '>') :: Alone(s, i) && (s[i] == '>' ==> i + 1 == |s|)
  {
    if WellSplit(s) {
      TokensMean(s);
    }
  }

  lemma {:induction false} CharactersStay(s: string, c: char)
    requires c != '.'
    ensures c in s <==> exists token <- Split(s) :: c in token
  {
    if s != "" {
      var rest := Split(s[1..]);
      CharactersStay(s[1..], c);
      assert s == [s[0]] + s[1..];
      assert rest == [rest[0]] + rest[1..];
      if s[0] == '.' {
        assert forall token :: token in Split(s) <==> token == "" || token in rest;
      } else {
        assert forall token :: token in Split(s) <==> token == [s[0]] + rest[0] || token in rest[1..];
        assert forall token :: token in rest <==> token == rest[0] || token in rest[1..];
        assert [s[0]] + rest[0] in Split(s);
      }
    }
  }

  /** A subject is valid if it splits well and has no wildcard character at all. */
  lemma ValidSubjectMeans(s: string)
    ensures ValidSubject(s) <==> WellSplit(s) && '*' !in s && '>' !in s
  {
    CharactersStay(s, '*');
    CharactersStay(s, '>');
  }

  method SplitSubject(subject: string) returns (r: Result<seq<string>, TopicError>)
    ensures r.Ok? <==> WellSplit(subject)
    ensures r.Ok? ==> r.value == Split(subject)
    ensures r.Err? ==> r.error == if subject == "" then EmptySubject else EmptyToken
  {
    if subject == "" {
      return Err(EmptySubject);
    }
    var tokens := Split(subject);
    for i := 0 to |tokens|
      invariant forall k | 0 <= k < i :: tokens[k] != ""
    {
      if tokens[i] == "" {
        return Err(EmptyToken);
      }
    }
    return Ok(tokens);
  }

  method ValidateSubject(subject: string) returns (r: Result<seq<string>, TopicError>)
    ensures r.Ok? <==> ValidSubject(subject)
    ensures r.Ok? ==> r.value == Split(subject)
    ensures r.Err? ==>
      r.error == if subject == "" then EmptySubject else if "" in Split(subject) then EmptyToken else WildcardInSubject
  {
    r := SplitSubject(subject);
    if r.Err? {
      return;
    }
    var tokens := r.value;
    for i := 0 to |tokens|
      invariant forall k | 0 <= k < i :: Plain(tokens[k])
    {
      if '*' in tokens[i] || '>' in tokens[i] {
        assert tokens[i] in tokens;
        return Err(WildcardInSubject);
      }
    }
  }

  /** The first token that breaks the pattern rules decides the error. */
  method ValidatePattern(pattern: string) returns (r: Result<seq<string>, TopicError>)
    ensures r.Ok? <==> ValidPattern(pattern)
    ensures r.Ok? ==> r.value == Split(pattern)
    ensures r.Err? && WellSplit(pattern) ==>
      exists i | 0 <= i < |Split(pattern)| && !GoodToken(Split(pattern), i) ::
        && r.error == (if Split(pattern)[i] == TAIL_WILDCARD then TailNotLast else PartialWildcard)
        && forall k | 0 <= k < i :: GoodToken(Split(pattern), k)
    ensures r.Err? && !WellSplit(pattern) ==> r.error == if pattern == "" then EmptySubject else EmptyToken
  {
    r := SplitSubject(pattern);
    if r.Err? {
      return;
    }
    var tokens := r.value;
    for i := 0 to |tokens|
      invariant forall k | 0 <= k < i :: GoodToken(tokens, k)
    {
      var good := GoodToken(tokens, i);
      if tokens[i] == TAIL_WILDCARD {
        if i != |tokens| - 1 {
          return Err(TailNotLast);
        }
      } else if tokens[i] == TOKEN_WILDCARD {
      } else if '>' in tokens[i] || '*' in tokens[i] {
        return Err(PartialWildcard);
      }
    }
  }

  // ---- Matching ----------------------------------------------------------------------------

  predicate TokenMatches(pattern: string, token: string) {
    pattern == TOKEN_WILDCARD || pattern == token
  }

  /** What a validated pattern denotes: one token for each pattern token, and one or more for a final
      tail wildcard. */
  predicate Denotes(pattern: seq<string>, subject: seq<string>) {
    if pattern == [] then subject == []
    else if pattern == [TAIL_WILDCARD] then subject != []
    else subject != [] && TokenMatches(pattern[0], subject[0]) && Denotes(pattern[1..], subject[1..])
  }

  /** Position by position: before a final `>`, which stands for one or more tokens, a pattern token is `*`
      or equals the subject's token. */
  lemma {:induction false} DenotesPositions(pattern: seq<string>, subject: seq<string>)
    requires ValidTokens(pattern)
    ensures
      var tail := pattern != [] && pattern[|pattern| - 1] == ">";
      var exact := if tail then |pattern| - 1 else |pattern|;
      Denotes(pattern, subject) <==>
        && (if tail then |subject| > exact else |subject| == exact)
        && (forall i | 0 <= i < exact && i < |subject| :: pattern[i] == "*" || pattern[i] == subject[i])
  {
    if pattern != [] && pattern != [TAIL_WILDCARD] {
      assert GoodToken(pattern, 0);
      assert |pattern| == 1 ==> pattern == [pattern[0]];
      if subject != [] {
        forall i | 0 <= i < |pattern[1..]|
          ensures GoodToken(pattern[1..], i)
        {
          assert GoodToken(pattern, i + 1);
        }
        DenotesPositions(pattern[1..], subject[1..]);
        var exact := if pattern[|pattern| - 1] == TAIL_WILDCARD then |pattern| - 1 else |pattern|;
        assert forall i | 0 < i < exact && i < |subject| ::
          TokenMatches(pattern[i], subject[i]) <==> TokenMatches(pattern[1..][i - 1], subject[1..][i - 1]);
      }
    }
  }

  /** Under a `*` any token does. */
  lemma StarMatchesAnyToken(pattern: seq<string>, subject: seq<string>, i: nat, token: string)
    requires ValidTokens(pattern) && i < |pattern| && i < |subject| && pattern[i] == "*"
    ensures Denotes(pattern, subject[i := token]) <==> Denotes(pattern, subject)
  {
    hide Denotes;
    DenotesPositions(pattern, subject);
    DenotesPositions(pattern, subject[i := token]);
  }

  /** Under a final `>` any one or more tokens do. */
  lemma TailMatchesAnyRest(pattern: seq<string>, head: seq<string>, rest: seq<string>, other: seq<string>)
    requires ValidTokens(pattern) && |pattern| == |head| + 1 && pattern[|head|] == ">" && rest != [] && other != []
    ensures Denotes(pattern, head + rest) <==> Denotes(pattern, head + other)
  {
    hide Denotes;
    DenotesPositions(pattern, head + rest);
    DenotesPositions(pattern, head + other);
  }

  /** The indexed loop decides the denotation, for validated patterns and any subject that splits. */
  method MatchesTokens(pattern: seq<string>, subject: string) returns (r: Result<bool, TopicError>)
    requires ValidTokens(pattern)
    ensures r.Ok? <==> WellSplit(subject)
    ensures r.Ok? ==> (r.value <==> Denotes(pattern, Split(subject)))
    ensures r.Err? ==> r.error == if subject == "" then EmptySubject else EmptyToken
  {
    var split := SplitSubject(subject);
    if split.Err? {
      return Err(split.error);
    }
    var sub := split.value;
    DenotesPositions(pattern, sub);
    for i := 0 to |pattern|
      invariant i <= |sub|
      invariant forall k | 0 <= k < i :: pattern[k] != TAIL_WILDCARD && TokenMatches(pattern[k], sub[k])
    {
      assert GoodToken(pattern, i);
      if pattern[i] == TAIL_WILDCARD {
        return Ok(|sub| > i);
      }
      if i >= |sub| {
        return Ok(false);
      }
      if pattern[i] != TOKEN_WILDCARD && pattern[i] != sub[i] {
        return Ok(false);
      }
    }
    return Ok(|pattern| == |sub|);
  }

  /** `matches`: both arguments are validated as far as the source does. */
  method Matches(pattern: string, subject: string) returns (r: Result<bool, TopicError>)
    ensures r.Ok? <==> ValidPattern(pattern) && WellSplit(subject)
    ensures r.Ok? ==> (r.value <==> Denotes(Split(pattern), Split(subject)))
  {
    var tokens := ValidatePattern(pattern);
    if tokens.Err? {
      return Err(tokens.error);
    }
    r := MatchesTokens(tokens.value, subject);
  }

  lemma {:induction false} PlainDenotesItself(pattern: seq<string>, subject: seq<string>)
    requires forall token <- pattern :: Plain(token)
    ensures Denotes(pattern, subject) <==> subject == pattern
  {
    if pattern != [] {
      assert pattern[0] in pattern && pattern == [pattern[0]] + pattern[1..];
      assert '>' in TAIL_WILDCARD && '*' in TOKEN_WILDCARD by {
        assert TAIL_WILDCARD[0] == '>' && TOKEN_WILDCARD[0] == '*';
      }
      if subject != [] {
        assert subject == [subject[0]] + subject[1..];
        PlainDenotesItself(pattern[1..], subject[1..]);
      }
    }
  }

  /** A valid subject is a valid pattern, and as a pattern it matches exactly itself. */
  lemma SubjectMatchesOnlyItself(s: string, u: string)
    requires ValidSubject(s)
    ensures ValidPattern(s)
    ensures Denotes(Split(s), Split(u)) <==> u == s
  {
    assert '>' in TAIL_WILDCARD by {
      assert TAIL_WILDCARD[0] == '>';
    }
    forall i | 0 <= i < |Split(s)|
      ensures Plain(Split(s)[i])
    {
      assert Split(s)[i] in Split(s);
    }
    PlainDenotesItself(Split(s), Split(u));
    if Split(u) == Split(s) {
      SplitInjective(s, u);
    }
  }
}
