/**
 * The assistant's intent recogniser: a fixed, ordered table of keyword
 * patterns per intent (and per subtopic of an intent), scored by how much of
 * the lower-cased query a matching pattern covers.
 *
 * The source scores a match of pattern `p` in query `q` as `|p| / |q| * 2`
 * (top-level pattern) or `|p| / |q| * 2.5` (subtopic pattern) and keeps the
 * first strictly higher score. Within one query `|q|` is fixed and positive
 * whenever anything matches, so multiplying every score by `2 * |q|` keeps
 * every comparison: the model scores `4 * |p|` and `5 * |p|` in integers.
 */
module Intents {
  import opened Wrappers
  import opened Text

  datatype Intent = Skills | Projects | Contact | Personal | Reset | Unknown

  /** The intent's key in the table, as the reply text spells it. */
  function IntentName(intent: Intent): (r: string)
    ensures r != ""
  {
    match intent
    case Skills => "skills"
    case Projects => "projects"
    case Contact => "contact"
    case Personal => "personal"
    case Reset => "reset"
    case Unknown => "unknown"
  }

  /** Subtopic keys; `PortfolioSite` is the key `portfolio` of the projects intent. */
  datatype Subtopic = Frontend | Backend | Devops | PortfolioSite | Dashboard | TaskApp

  /** A keyword of the table; none is empty. */
  type Pattern = p: string | p != "" witness "?"

  /** The intents a table entry can name: every intent but the `unknown` sentinel. */
  type Topic = i: Intent | i != Unknown witness Skills

  datatype SubtopicRule = SubtopicRule(name: Subtopic, patterns: seq<Pattern>)

  datatype IntentRule = IntentRule(intent: Topic, patterns: seq<Pattern>, subtopics: seq<SubtopicRule>)

  /** The intent table, in the order the source enumerates it. */
  const INTENTS: seq<IntentRule> := [SKILLS_RULE, PROJECTS_RULE, CONTACT_RULE, PERSONAL_RULE, RESET_RULE]

  const SKILLS_RULE: IntentRule := IntentRule(Skills,
    ["skills", "good at", "know", "technologies", "tech stack", "abilities", "can do", "proficient", "experience"],
    [SubtopicRule(Frontend, FRONTEND_PATTERNS), SubtopicRule(Backend, BACKEND_PATTERNS), SubtopicRule(Devops, DEVOPS_PATTERNS)])

  const FRONTEND_PATTERNS: seq<Pattern> :=
    ["front", "frontend", "ui", "react", "javascript", "typescript", "css", "html", "tailwind"]

  const BACKEND_PATTERNS: seq<Pattern> :=
    ["back", "backend", "server", "database", "api", "node", "express", "sql", "postgres", "mongodb"]

  const DEVOPS_PATTERNS: seq<Pattern> := ["devops", "deployment", "git", "version control"]

  const PROJECTS_RULE: IntentRule := IntentRule(Projects,
    ["project", "portfolio", "work", "built", "created", "developed", "showcase", "github", "demo"],
    [SubtopicRule(PortfolioSite, PORTFOLIO_PATTERNS), SubtopicRule(Dashboard, DASHBOARD_PATTERNS), SubtopicRule(TaskApp, TASKAPP_PATTERNS)])

  const PORTFOLIO_PATTERNS: seq<Pattern> := ["portfolio", "website", "portfolio website", "portfolio site"]

  const DASHBOARD_PATTERNS: seq<Pattern> :=
    ["dashboard", "project dashboard", "metrics", "performance", "visualization"]

  const TASKAPP_PATTERNS: seq<Pattern> := ["task", "management", "app", "task app", "todo"]

  const CONTACT_RULE: IntentRule := IntentRule(Contact,
    ["contact", "email", "reach out", "connect", "linkedin", "github", "social", "dm", "message"],
    [])

  const PERSONAL_RULE: IntentRule := IntentRule(Personal,
    ["yourself", "about you", "background", "interests", "hobbies", "passion", "who are you", "tell me about"],
    [])

  const RESET_RULE: IntentRule := IntentRule(Reset,
    ["reset", "start over", "beginning", "restart", "start again", "go back", "fresh"],
    [])

  /** Where a pattern sits in the table: among an intent's own patterns, or under one of its subtopics. */
  datatype Origin = TopLevel | Within(subtopic: Subtopic)

  /** One pattern of the table together with the intent (and subtopic) it votes for. */
  datatype Candidate = Candidate(intent: Topic, origin: Origin, pattern: Pattern)

  function Weight(origin: Origin): nat {
    match origin
    case TopLevel => 4
    case Within(_) => 5
  }

  /** The scaled score of a candidate against a query: zero when its pattern does not occur. */
  function Score(query: string, c: Candidate): nat {
    if Contains(query, c.pattern) then Weight(c.origin) * |c.pattern| else 0
  }

  /** The three variables the scoring loop updates: `highestScore`, `detectedIntent`, `subtopic`. */
  datatype State = State(best: nat, intent: Intent, subtopic: Option<Subtopic>)

  const START: State := State(0, Unknown, None)

  /** One visit of the scoring loop: a strictly better match takes over the intent; a subtopic match also sets the subtopic. */
  function Step(query: string, st: State, c: Candidate): State {
    if Contains(query, c.pattern) && Weight(c.origin) * |c.pattern| > st.best then
      State(Weight(c.origin) * |c.pattern|, c.intent,
        match c.origin
        case TopLevel => st.subtopic
        case Within(s) => Some(s))
    else
      st
  }

  /**
   * A step changes the state exactly when the candidate scores above the best
   * so far; the state then carries that score and the candidate's intent, and
   * a top-level candidate never changes the subtopic.
   */
  lemma StepTakeover(query: string, st: State, c: Candidate)
    ensures Step(query, st, c) != st <==> Score(query, c) > st.best
    ensures Step(query, st, c) != st ==> Step(query, st, c).best == Score(query, c) && Step(query, st, c).intent == c.intent
    ensures c.origin == TopLevel ==> Step(query, st, c).subtopic == st.subtopic
  {
  }

  /** The loop's state after visiting the candidates `cs` in order, starting from `st`. */
  function Visit(query: string, st: State, cs: seq<Candidate>): State
    decreases |cs|
  {
    if cs == [] then st else Step(query, Visit(query, st, cs[..|cs| - 1]), cs[|cs| - 1])
  }

  /** The loop's state after visiting `cs` from the initial state. */
  function Run(query: string, cs: seq<Candidate>): State {
    Visit(query, START, cs)
  }

  /** Visiting two lists one after the other is visiting their concatenation. */
  lemma {:induction false} VisitAppend(query: string, st: State, a: seq<Candidate>, b: seq<Candidate>)
    ensures Visit(query, st, a + b) == Visit(query, Visit(query, st, a), b)
    decreases |b|
  {
    if b == [] {
      assert a + b == a;
    } else {
      assert (a + b)[..|a + b| - 1] == a + b[..|b| - 1];
      VisitAppend(query, st, a, b[..|b| - 1]);
    }
  }

  function PatternCandidates(intent: Topic, origin: Origin, patterns: seq<Pattern>): seq<Candidate> {
    seq(|patterns|, k requires 0 <= k < |patterns| => Candidate(intent, origin, patterns[k]))
  }

  function SubtopicCandidates(intent: Topic, subtopics: seq<SubtopicRule>): seq<Candidate>
    decreases |subtopics|
  {
    if subtopics == [] then []
    else
      var last := subtopics[|subtopics| - 1];
      SubtopicCandidates(intent, subtopics[..|subtopics| - 1]) + PatternCandidates(intent, Within(last.name), last.patterns)
  }

  /** An intent's candidates: its own patterns first, then each subtopic's patterns. */
  function RuleCandidates(rule: IntentRule): seq<Candidate> {
    PatternCandidates(rule.intent, TopLevel, rule.patterns) + SubtopicCandidates(rule.intent, rule.subtopics)
  }

  /** Every candidate of a table, in the order the scoring loop visits them. */
  function Flatten(rules: seq<IntentRule>): seq<Candidate>
    decreases |rules|
  {
    if rules == [] then [] else Flatten(rules[..|rules| - 1]) + RuleCandidates(rules[|rules| - 1])
  }

  const CANDIDATES: seq<Candidate> := Flatten(INTENTS)

  /** What the recogniser reports: `detectedIntent` and `subtopic` (None for the empty string). */
  datatype Verdict = Verdict(intent: Intent, subtopic: Option<Subtopic>)

  /** The recogniser's answer for an already lower-cased query. */
  function Detect(query: string): (r: Verdict)
    ensures r.intent == Unknown ==> r.subtopic == None
    ensures r.intent != Unknown ==>
      exists i :: 0 <= i < |CANDIDATES| && CANDIDATES[i].intent == r.intent && Contains(query, CANDIDATES[i].pattern)
  {
    RunBest(query, CANDIDATES);
    var st := Run(query, CANDIDATES);
    Verdict(st.intent, st.subtopic)
  }

  /** The highest score any candidate of `cs` reaches on the query (zero if none matches). */
  function MaxScore(query: string, cs: seq<Candidate>): (r: nat)
    ensures forall i :: 0 <= i < |cs| ==> Score(query, cs[i]) <= r
    ensures r == 0 || exists i :: 0 <= i < |cs| && Score(query, cs[i]) == r
    decreases |cs|
  {
    if cs == [] then 0
    else
      var init := cs[..|cs| - 1];
      var m := MaxScore(query, init);
      assert forall i :: 0 <= i < |init| ==> cs[i] == init[i];
      if Score(query, cs[|cs| - 1]) > m then Score(query, cs[|cs| - 1]) else m
  }

  /**
   * The scoring loop ends with the highest score of all candidates; it is
   * untouched when nothing scores, and otherwise reports the intent of a
   * candidate that reaches that score.
   */
  lemma {:induction false} RunBest(query: string, cs: seq<Candidate>)
    ensures Run(query, cs).best == MaxScore(query, cs)
    ensures Run(query, cs).best == 0 ==> Run(query, cs) == START
    ensures Run(query, cs).best > 0 ==>
      exists i :: 0 <= i < |cs| && cs[i].intent == Run(query, cs).intent && Score(query, cs[i]) == Run(query, cs).best
    decreases |cs|
  {
    if cs != [] {
      var init := cs[..|cs| - 1];
      RunBest(query, init);
      assert forall i :: 0 <= i < |init| ==> cs[i] == init[i];
    }
  }

  /** Candidate `i` took over when it was visited: it beat every candidate before it. */
  predicate TookOver(query: string, cs: seq<Candidate>, i: int) {
    0 <= i < |cs| && Score(query, cs[i]) > MaxScore(query, cs[..i])
  }

  /**
   * Ties keep the first match: the reported intent is that of the first
   * candidate reaching the highest score, and the reported score is that score.
   */
  lemma {:induction false} FirstMaximumWins(query: string, cs: seq<Candidate>, k: nat)
    requires k < |cs| && Score(query, cs[k]) > 0
    requires forall j :: 0 <= j < k ==> Score(query, cs[j]) < Score(query, cs[k])
    requires forall j :: k < j < |cs| ==> Score(query, cs[j]) <= Score(query, cs[k])
    ensures Run(query, cs).intent == cs[k].intent && Run(query, cs).best == Score(query, cs[k])
    decreases |cs|
  {
    var init := cs[..|cs| - 1];
    assert forall i :: 0 <= i < |init| ==> cs[i] == init[i];
    RunBest(query, init);
    if k < |cs| - 1 {
      FirstMaximumWins(query, init, k);
    }
  }

  /** A takeover in a prefix of the candidates is a takeover in the whole list. */
  lemma TookOverPrefix(query: string, cs: seq<Candidate>, n: nat, j: nat)
    requires n <= |cs| && TookOver(query, cs[..n], j)
    ensures TookOver(query, cs, j) && cs[..n][j] == cs[j]
  {
    assert cs[..n][..j] == cs[..j];
  }

  /**
   * The reported subtopic is that of the last subtopic candidate that took
   * over; a top-level candidate taking over later does not clear it.
   */
  lemma {:induction false} SubtopicOfLastSubtopicTakeover(query: string, cs: seq<Candidate>, k: nat, s: Subtopic)
    requires TookOver(query, cs, k) && cs[k].origin == Within(s)
    requires forall j :: k < j < |cs| && TookOver(query, cs, j) ==> cs[j].origin == TopLevel
    ensures Run(query, cs).subtopic == Some(s)
    decreases |cs|
  {
    var n := |cs| - 1;
    var init := cs[..n];
    var prev := Run(query, init);
    RunBest(query, init);
    assert Run(query, cs) == Step(query, prev, cs[n]);
    if k < n {
      forall j | k < j < |init| && TookOver(query, init, j)
        ensures init[j].origin == TopLevel
      {
        TookOverPrefix(query, cs, n, j);
      }
      assert cs[k] == init[k] && init[..k] == cs[..k];
      SubtopicOfLastSubtopicTakeover(query, init, k, s);
      if Score(query, cs[n]) > prev.best {
        assert TookOver(query, cs, n);
        assert Step(query, prev, cs[n]).subtopic == prev.subtopic;
      } else {
        assert Step(query, prev, cs[n]) == prev;
      }
    } else {
      assert cs[..k] == init;
      assert Step(query, prev, cs[n]).subtopic == Some(s);
    }
  }

  /** When no subtopic candidate ever took over, the reported subtopic is empty. */
  lemma {:induction false} NoSubtopicTakeover(query: string, cs: seq<Candidate>)
    requires forall j :: 0 <= j < |cs| && TookOver(query, cs, j) ==> cs[j].origin == TopLevel
    ensures Run(query, cs).subtopic == None
    decreases |cs|
  {
    if cs != [] {
      var init := cs[..|cs| - 1];
      assert forall i :: 0 <= i < |init| ==> cs[i] == init[i] && init[..i] == cs[..i];
      assert forall j :: 0 <= j < |init| && TookOver(query, init, j) ==> TookOver(query, cs, j);
      NoSubtopicTakeover(query, init);
      RunBest(query, init);
    }
  }

  /**
   * The scoring loop reports `unknown` with no subtopic exactly when no
   * pattern at all occurs in the query.
   */
  lemma UnknownIffNoMatch(query: string, cs: seq<Candidate>)
    ensures Run(query, cs).intent == Unknown <==> forall i :: 0 <= i < |cs| ==> !Contains(query, cs[i].pattern)
    ensures Run(query, cs).intent == Unknown ==> Run(query, cs).subtopic == None
  {
    RunBest(query, cs);
    if exists i :: 0 <= i < |cs| && Contains(query, cs[i].pattern) {
      var i :| 0 <= i < |cs| && Contains(query, cs[i].pattern);
      assert Score(query, cs[i]) > 0;
    }
  }

  /**
   * The recogniser answers `unknown` with an empty subtopic exactly when no
   * pattern of the table occurs in the query; the empty query is one such.
   */
  lemma DetectUnknownIffNoMatch(query: string)
    ensures Detect(query) == Verdict(Unknown, None) <==>
      forall i :: 0 <= i < |CANDIDATES| ==> !Contains(query, CANDIDATES[i].pattern)
    ensures Detect("") == Verdict(Unknown, None)
  {
    UnknownIffNoMatch(query, CANDIDATES);
    UnknownIffNoMatch("", CANDIDATES);
    forall i | 0 <= i < |CANDIDATES|
      ensures !Contains("", CANDIDATES[i].pattern)
    {
      ContainsBounds("", CANDIDATES[i].pattern);
    }
  }

  /** Candidates that score no higher than the best so far leave the loop's state alone. */
  lemma {:induction false} Outscored(query: string, st: State, cs: seq<Candidate>)
    requires forall i :: 0 <= i < |cs| ==> Score(query, cs[i]) <= st.best
    ensures Visit(query, st, cs) == st
    decreases |cs|
  {
    if cs != [] {
      Outscored(query, st, cs[..|cs| - 1]);
    }
  }

  /** A pattern list none of whose occurring patterns beats the best score leaves the state alone. */
  lemma OutscoredPatterns(query: string, st: State, intent: Topic, origin: Origin, patterns: seq<Pattern>)
    requires forall p :: p in patterns ==> !Contains(query, p) || Weight(origin) * |p| <= st.best
    ensures Visit(query, st, PatternCandidates(intent, origin, patterns)) == st
  {
    var cs := PatternCandidates(intent, origin, patterns);
    assert forall i :: 0 <= i < |cs| ==> cs[i].pattern in patterns;
    Outscored(query, st, cs);
  }

  /** Visiting one rule is visiting its own patterns, then each of its subtopics in order. */
  lemma VisitRule(query: string, st: State, rule: IntentRule)
    ensures |rule.subtopics| == 0 ==>
      Visit(query, st, RuleCandidates(rule)) == Visit(query, st, PatternCandidates(rule.intent, TopLevel, rule.patterns))
    ensures |rule.subtopics| == 3 ==>
      var s1 := Visit(query, st, PatternCandidates(rule.intent, TopLevel, rule.patterns));
      var s2 := Visit(query, s1, PatternCandidates(rule.intent, Within(rule.subtopics[0].name), rule.subtopics[0].patterns));
      var s3 := Visit(query, s2, PatternCandidates(rule.intent, Within(rule.subtopics[1].name), rule.subtopics[1].patterns));
      Visit(query, st, RuleCandidates(rule))
        == Visit(query, s3, PatternCandidates(rule.intent, Within(rule.subtopics[2].name), rule.subtopics[2].patterns))
  {
    var top := PatternCandidates(rule.intent, TopLevel, rule.patterns);
    var subs := rule.subtopics;
    VisitAppend(query, st, top, SubtopicCandidates(rule.intent, subs));
    if |subs| == 0 {
      assert RuleCandidates(rule) == top + [];
    } else if |subs| == 3 {
      var c0 := PatternCandidates(rule.intent, Within(subs[0].name), subs[0].patterns);
      var c1 := PatternCandidates(rule.intent, Within(subs[1].name), subs[1].patterns);
      var c2 := PatternCandidates(rule.intent, Within(subs[2].name), subs[2].patterns);
      assert subs[..2][..1] == subs[..1] && subs[..1][..0] == [];
      assert SubtopicCandidates(rule.intent, subs[..1]) == [] + c0;
      assert SubtopicCandidates(rule.intent, subs[..2]) == c0 + c1;
      assert SubtopicCandidates(rule.intent, subs) == c0 + c1 + c2;
      var s1 := Visit(query, st, top);
      VisitAppend(query, s1, c0 + c1, c2);
      VisitAppend(query, s1, c0, c1);
    }
  }

  /** The recogniser visits the five intents of the table one after the other. */
  lemma DetectByRules(query: string)
    ensures
      var s1 := Visit(query, START, RuleCandidates(SKILLS_RULE));
      var s2 := Visit(query, s1, RuleCandidates(PROJECTS_RULE));
      var s3 := Visit(query, s2, RuleCandidates(CONTACT_RULE));
      var s4 := Visit(query, s3, RuleCandidates(PERSONAL_RULE));
      var s5 := Visit(query, s4, RuleCandidates(RESET_RULE));
      Detect(query) == Verdict(s5.intent, s5.subtopic)
  {
    var r0, r1, r2, r3, r4 :=
      RuleCandidates(SKILLS_RULE), RuleCandidates(PROJECTS_RULE), RuleCandidates(CONTACT_RULE),
      RuleCandidates(PERSONAL_RULE), RuleCandidates(RESET_RULE);
    assert INTENTS[..1][..0] == [] && INTENTS[..2][..1] == INTENTS[..1];
    assert INTENTS[..3][..2] == INTENTS[..2] && INTENTS[..4][..3] == INTENTS[..3];
    assert Flatten(INTENTS[..1]) == [] + r0;
    assert Flatten(INTENTS[..2]) == r0 + r1;
    assert Flatten(INTENTS[..3]) == r0 + r1 + r2;
    assert Flatten(INTENTS[..4]) == r0 + r1 + r2 + r3;
    assert CANDIDATES == r0 + r1 + r2 + r3 + r4;
    VisitAppend(query, START, r0 + r1 + r2 + r3, r4);
    VisitAppend(query, START, r0 + r1 + r2, r3);
    VisitAppend(query, START, r0 + r1, r2);
    VisitAppend(query, START, r0, r1);
  }

  /** Runs the recogniser of the source over the intent table on an already lower-cased query. */
  method Classify(query: string) returns (intent: Intent, subtopic: Option<Subtopic>)
    ensures Verdict(intent, subtopic) == Detect(query)
  {
    var st := ClassifyWith(INTENTS, query);
    intent, subtopic := st.intent, st.subtopic;
  }

  /**
   * The outer `forEach` of the source over a given table: for each intent,
   * its own patterns, then (if it has any) its subtopics' patterns.
   */
  method ClassifyWith(intents: seq<IntentRule>, query: string) returns (st: State)
    ensures st == Run(query, Flatten(intents))
  {
    st := START;
    for i := 0 to |intents|
      invariant st == Run(query, Flatten(intents[..i]))
    {
      var rule := intents[i];
      ghost var before := Flatten(intents[..i]);
      ghost var top := PatternCandidates(rule.intent, TopLevel, rule.patterns);
      ghost var subs := SubtopicCandidates(rule.intent, rule.subtopics);
      st := VisitPatterns(query, st, rule.intent, TopLevel, rule.patterns);
      st := VisitSubtopics(query, st, rule.intent, rule.subtopics);
      FlattenSnoc(intents, i);
      VisitAppend(query, START, before, top);
      VisitAppend(query, START, before + top, subs);
    }
    assert intents[..|intents|] == intents;
  }

  lemma FlattenSnoc(rules: seq<IntentRule>, i: nat)
    requires i < |rules|
    ensures Flatten(rules[..i + 1])
      == Flatten(rules[..i]) + PatternCandidates(rules[i].intent, TopLevel, rules[i].patterns)
         + SubtopicCandidates(rules[i].intent, rules[i].subtopics)
  {
    assert rules[..i + 1][..i] == rules[..i];
  }

  /** The `forEach` over the subtopics of one intent. */
  method VisitSubtopics(query: string, st0: State, intent: Topic, subtopics: seq<SubtopicRule>) returns (st: State)
    ensures st == Visit(query, st0, SubtopicCandidates(intent, subtopics))
  {
    st := st0;
    for k := 0 to |subtopics|
      invariant st == Visit(query, st0, SubtopicCandidates(intent, subtopics[..k]))
    {
      var sub := subtopics[k];
      st := VisitPatterns(query, st, intent, Within(sub.name), sub.patterns);
      VisitAppend(query, st0, SubtopicCandidates(intent, subtopics[..k]),
        PatternCandidates(intent, Within(sub.name), sub.patterns));
      assert subtopics[..k + 1][..k] == subtopics[..k];
    }
    assert subtopics[..|subtopics|] == subtopics;
  }

  /**
   * The `forEach` over one pattern list: a pattern that occurs in the query
   * and scores strictly higher than the best so far takes over the intent,
   * and, under a subtopic, the subtopic too.
   */
  method VisitPatterns(query: string, st0: State, intent: Topic, origin: Origin, patterns: seq<Pattern>)
    returns (st: State)
    ensures st == Visit(query, st0, PatternCandidates(intent, origin, patterns))
  {
    var highestScore: nat, detectedIntent, subtopic := st0.best, st0.intent, st0.subtopic;
    for j := 0 to |patterns|
      invariant State(highestScore, detectedIntent, subtopic)
        == Visit(query, st0, PatternCandidates(intent, origin, patterns[..j]))
    {
      var pattern := patterns[j];
      if Contains(query, pattern) {
        var score := Weight(origin) * |pattern|;
        if score > highestScore {
          highestScore := score;
          detectedIntent := intent;
          if origin.Within? {
            subtopic := Some(origin.subtopic);
          }
        }
      }
      assert PatternCandidates(intent, origin, patterns[..j + 1])[..j] == PatternCandidates(intent, origin, patterns[..j]);
    }
    assert patterns[..|patterns|] == patterns;
    st := State(highestScore, detectedIntent, subtopic);
  }
}
