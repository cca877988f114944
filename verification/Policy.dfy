/** Policy rules, bundles and evaluation inputs, and the cheap rule prefilter. */
module Policy {
  import opened Prelude
  import opened Constraints

  /** An effect is a string in the source; Unset is "" and Other any unknown name. */
  datatype Effect = Unset | Allow | AllowWithConstraints | RequireApproval | Deny | Other(name: string)

  datatype Rule = Rule(
    id: string,
    priority: int,
    enabled: bool,
    effect: Effect,
    actionPatterns: seq<string>,
    resourceTypes: seq<string>,
    riskLevels: seq<string>,
    maximumCost: Option<int>,
    condition: string,
    constraints: Limits,
    reason: string)

  datatype Bundle = Bundle(policyId: string, policyVersion: int, defaultEffect: Effect, rules: seq<Rule>)

  /** `facts` stands for everything only a condition can look at. */
  datatype Input = Input(
    subjectType: string,
    autonomy: string,
    action: string,
    resourceType: string,
    risk: string,
    estimatedCost: int,
    facts: map<string, string>)

  const MAXIMUM_PATTERN := 256

  predicate IsSpace(c: char) {
    c in {' ', '\t', '\n', '\r', '\U{000B}', '\U{000C}'}
  }

  function TrimLeft(s: string): string {
    if s != [] && IsSpace(s[0]) then TrimLeft(s[1..]) else s
  }

  function TrimRight(s: string): string {
    if s != [] && IsSpace(s[|s| - 1]) then TrimRight(s[..|s| - 1]) else s
  }

  function TrimSpace(s: string): string {
    TrimRight(TrimLeft(s))
  }

  predicate EndsWithStar(pattern: string) {
    pattern != [] && pattern[|pattern| - 1] == '*'
  }

  /** What validation accepts: after trimming, short, and starred only at the end. */
  predicate ValidPattern(pattern: string) {
    var p := TrimSpace(pattern);
    && p != ""
    && |p| <= MAXIMUM_PATTERN
    && multiset(p)['*'] <= 1
    && ('*' in p ==> EndsWithStar(p))
  }

  predicate ActionMatches(pattern: string, action: string) {
    if EndsWithStar(pattern) then pattern[..|pattern| - 1] <= action else pattern == action
  }

  /** Reference matcher: a star stands for any characters, wherever it appears. */
  predicate Glob(pattern: string, action: string)
    decreases |pattern| + |action|
  {
    if pattern == [] then action == []
    else if pattern[0] == '*' then
      Glob(pattern[1..], action) || (action != [] && Glob(pattern, action[1..]))
    else action != [] && action[0] == pattern[0] && Glob(pattern[1..], action[1..])
  }

  lemma {:induction false} GlobLiteral(p: string, action: string)
    requires '*' !in p
    ensures Glob(p, action) <==> p == action
  {
    if p != [] && action != [] {
      assert p == [p[0]] + p[1..] && action == [action[0]] + action[1..];
      GlobLiteral(p[1..], action[1..]);
    }
  }

  lemma {:induction false} GlobStar(action: string)
    ensures Glob("*", action)
    decreases |action|
  {
    assert "*"[1..] == "";
    if action != [] {
      GlobStar(action[1..]);
    }
  }

  lemma {:induction false} GlobPrefix(u: string, action: string)
    requires '*' !in u
    ensures Glob(u + "*", action) <==> u <= action
  {
    if u == [] {
      GlobStar(action);
      assert u + "*" == "*";
    } else {
      assert (u + "*")[1..] == u[1..] + "*";
      if action != [] && action[0] == u[0] {
        GlobPrefix(u[1..], action[1..]);
        assert u == [u[0]] + u[1..] && action == [action[0]] + action[1..];
        assert u <= action <==> u[1..] <= action[1..];
      }
    }
  }

  /** A valid pattern has no star before its last character. */
  lemma StarOnlyAtEnd(p: string)
    requires multiset(p)['*'] <= 1 && EndsWithStar(p)
    ensures p == p[..|p| - 1] + "*" && '*' !in p[..|p| - 1]
  {
    assert p == p[..|p| - 1] + "*";
    assert multiset(p)['*'] == multiset(p[..|p| - 1])['*'] + 1;
  }

  lemma {:induction false} TrimLeftKeepsSuffix(s: string)
    ensures exists w: string :: s == w + TrimLeft(s)
    ensures TrimLeft(s) != [] ==> !IsSpace(TrimLeft(s)[0])
  {
    if s != [] && IsSpace(s[0]) {
      TrimLeftKeepsSuffix(s[1..]);
      var w :| s[1..] == w + TrimLeft(s[1..]);
      assert s == [s[0]] + s[1..];
      assert s == ([s[0]] + w) + TrimLeft(s);
    } else {
      assert s == "" + TrimLeft(s);
    }
  }

  lemma {:induction false} TrimRightIdle(s: string)
    ensures s != [] && !IsSpace(s[|s| - 1]) ==> TrimRight(s) == s
  {
  }

  predicate AllSpace(s: string) {
    forall c :: c in s ==> c == ' ' || '\t' <= c <= '\r'
  }

  lemma SpaceByCode(c: char)
    ensures IsSpace(c) <==> AllSpace([c])
  {
    assert c in [c];
  }

  lemma {:induction false} TrimLeftStrips(s: string) returns (w: string)
    ensures s == w + TrimLeft(s)
    ensures AllSpace(w)
  {
    if s != [] && IsSpace(s[0]) {
      var rest := TrimLeftStrips(s[1..]);
      w := [s[0]] + rest;
      var trimmed := TrimLeft(s[1..]);
      assert TrimLeft(s) == trimmed;
      LeftStep(s, rest, trimmed);
      SpacesJoin([s[0]], rest);
    } else {
      w := "";
    }
  }

  lemma LeftStep(s: string, rest: string, trimmed: string)
    requires s != [] && s[1..] == rest + trimmed
    ensures s == [s[0]] + rest + trimmed
  {
    assert s == [s[0]] + s[1..];
  }

  lemma SpacesJoin(a: string, b: string)
    requires forall c :: c in a ==> IsSpace(c)
    requires AllSpace(b)
    ensures AllSpace(a + b) && AllSpace(b + a)
  {
    forall c | c in a ensures c == ' ' || '\t' <= c <= '\r' {
      SpaceByCode(c);
      assert c in [c];
    }
  }

  lemma {:induction false} TrimRightStrips(s: string) returns (w: string)
    ensures s == TrimRight(s) + w && AllSpace(w)
    ensures TrimRight(s) != [] ==> TrimRight(s)[0] == s[0]
    ensures TrimRight(s) != [] ==> !IsSpace(TrimRight(s)[|TrimRight(s)| - 1])
  {
    if s != [] && IsSpace(s[|s| - 1]) {
      var rest := TrimRightStrips(s[..|s| - 1]);
      w := rest + [s[|s| - 1]];
      assert s == s[..|s| - 1] + [s[|s| - 1]];
      SpacesJoin([s[|s| - 1]], rest);
    } else {
      w := "";
    }
  }

  /** Trimming takes white space off both ends, all of it there and nothing else. */
  lemma TrimSpaceStrips(s: string) returns (left: string, right: string)
    ensures s == left + TrimSpace(s) + right && AllSpace(left) && AllSpace(right)
    ensures var t := TrimSpace(s);
            t != [] ==> !AllSpace([t[0]]) && !AllSpace([t[|t| - 1]])
  {
    left := TrimLeftStrips(s);
    right := TrimRightStrips(TrimLeft(s));
    TrimLeftKeepsSuffix(s);
    var t := TrimSpace(s);
    if t != [] {
      SpaceByCode(t[0]);
      SpaceByCode(t[|t| - 1]);
    }
  }

  /** Validation by the trimmed text: 1 to 256 characters, and a star only as the last one. */
  lemma ValidPatternByText(pattern: string)
    ensures var t := TrimSpace(pattern);
            ValidPattern(pattern) <==> 1 <= |t| <= 256 && forall i | 0 <= i < |t| - 1 :: t[i] != '*'
  {
    var t := TrimSpace(pattern);
    if ValidPattern(pattern) && '*' in t {
      StarOnlyAtEnd(t);
      assert forall i | 0 <= i < |t| - 1 :: t[i] == t[..|t| - 1][i];
    }
    if t != [] && forall i | 0 <= i < |t| - 1 :: t[i] != '*' {
      assert t == t[..|t| - 1] + [t[|t| - 1]];
      assert '*' !in t[..|t| - 1];
    }
  }

  lemma TrimmedMatches(p: string, action: string)
    requires ValidPattern(p) && p == TrimSpace(p)
    ensures ActionMatches(p, action) == Glob(p, action)
  {
    if EndsWithStar(p) {
      StarOnlyAtEnd(p);
      GlobPrefix(p[..|p| - 1], action);
    } else {
      GlobLiteral(p, action);
    }
  }

  /**
   Validation trims a pattern but matching does not, so a validated pattern matches
   as the reference reads it exactly when it carries no outer white space.
   */
  lemma MatchesAsValidated(p: string)
    requires ValidPattern(p)
    ensures (forall action :: ActionMatches(p, action) == Glob(TrimSpace(p), action)) <==> p == TrimSpace(p)
  {
    var q := TrimSpace(p);
    if p == q {
      forall action ensures ActionMatches(p, action) == Glob(q, action) {
        TrimmedMatches(p, action);
      }
    } else {
      var action := UntrimmedDiffers(p);
      assert ActionMatches(p, action) != Glob(q, action);
    }
  }

  /** An action that tells an untrimmed pattern from its trimmed reading. */
  lemma UntrimmedDiffers(p: string) returns (action: string)
    requires ValidPattern(p) && p != TrimSpace(p)
    ensures !ActionMatches(p, action) && Glob(TrimSpace(p), action)
  {
    var q := TrimSpace(p);
    if EndsWithStar(p) {
      TrimLeftKeepsSuffix(p);
      var w :| p == w + TrimLeft(p);
      assert TrimLeft(p) != [];
      assert TrimLeft(p)[|TrimLeft(p)| - 1] == p[|p| - 1];
      TrimRightIdle(TrimLeft(p));
      StarOnlyAtEnd(q);
      action := q[..|q| - 1];
      GlobPrefix(action, action);
    } else {
      action := q;
      if '*' in q {
        StarOnlyAtEnd(q);
        GlobPrefix(q[..|q| - 1], q);
      } else {
        GlobLiteral(q, q);
      }
    }
  }

  predicate Prefilter(rule: Rule, input: Input) {
    && (exists p :: p in rule.actionPatterns && ActionMatches(p, input.action))
    && (rule.resourceTypes != [] ==> input.resourceType in rule.resourceTypes)
    && (rule.riskLevels != [] ==> input.risk in rule.riskLevels)
    && (rule.maximumCost.Some? ==> input.estimatedCost <= rule.maximumCost.value)
  }

  method RuleMatchesPrefilter(rule: Rule, input: Input) returns (r: bool)
    ensures r == Prefilter(rule, input)
  {
    var actionMatched := false;
    for i := 0 to |rule.actionPatterns|
      invariant !actionMatched
      invariant forall j | 0 <= j < i :: !ActionMatches(rule.actionPatterns[j], input.action)
    {
      if ActionMatches(rule.actionPatterns[i], input.action) {
        actionMatched := true;
        break;
      }
    }
    if !actionMatched {
      return false;
    }
    if |rule.resourceTypes| > 0 && input.resourceType !in rule.resourceTypes {
      return false;
    }
    if |rule.riskLevels| > 0 && input.risk !in rule.riskLevels {
      return false;
    }
    if rule.maximumCost.Some? && input.estimatedCost > rule.maximumCost.value {
      return false;
    }
    return true;
  }
}
