/**
 * Worked examples of the intent recogniser on short queries, evaluated block
 * by block through the table: each lemma fixes the loop's state after one
 * part of the table.
 */
module Scenarios {
  import opened Wrappers
  import opened Text
  import opened Intents
  import Portfolio
  import Conversation
  import Composer
  import Chat

  /** A pattern list may be visited as a prefix followed by the rest. */
  lemma PatternsSplit(query: string, st: State, intent: Topic, origin: Origin, patterns: seq<Pattern>, k: nat)
    requires k <= |patterns|
    ensures Visit(query, st, PatternCandidates(intent, origin, patterns))
      == Visit(query, Visit(query, st, PatternCandidates(intent, origin, patterns[..k])),
               PatternCandidates(intent, origin, patterns[k..]))
  {
    assert PatternCandidates(intent, origin, patterns)
      == PatternCandidates(intent, origin, patterns[..k]) + PatternCandidates(intent, origin, patterns[k..]);
    VisitAppend(query, st, PatternCandidates(intent, origin, patterns[..k]), PatternCandidates(intent, origin, patterns[k..]));
  }

  /** A one-pattern list is one step of the loop. */
  lemma SinglePattern(query: string, st: State, intent: Topic, origin: Origin, patterns: seq<Pattern>)
    requires |patterns| == 1
    ensures Visit(query, st, PatternCandidates(intent, origin, patterns)) == Step(query, st, Candidate(intent, origin, patterns[0]))
  {
    var cs := PatternCandidates(intent, origin, patterns);
    assert cs[..0] == [];
  }

  const BACK_MATCH: State := State(20, Skills, Some(Backend))

  lemma GoBackSkillsKeywords()
    ensures Visit("go back", START, PatternCandidates(Skills, TopLevel, SKILLS_RULE.patterns)) == START
  {
    assert forall p :: p in SKILLS_RULE.patterns ==> !Contains("go back", p);
    OutscoredPatterns("go back", START, Skills, TopLevel, SKILLS_RULE.patterns);
  }

  lemma GoBackFrontend()
    ensures Visit("go back", START, PatternCandidates(Skills, Within(Frontend), FRONTEND_PATTERNS)) == START
  {
    assert forall p :: p in FRONTEND_PATTERNS ==> !Contains("go back", p);
    OutscoredPatterns("go back", START, Skills, Within(Frontend), FRONTEND_PATTERNS);
  }

  lemma GoBackHitsBack()
    ensures Visit("go back", START, PatternCandidates(Skills, Within(Backend), BACKEND_PATTERNS[..1])) == BACK_MATCH
  {
    SinglePattern("go back", START, Skills, Within(Backend), BACKEND_PATTERNS[..1]);
    assert BACKEND_PATTERNS[..1][0] == "back";
    assert Contains("go back", "back");
  }

  lemma GoBackMissesOtherBackend()
    ensures Visit("go back", BACK_MATCH, PatternCandidates(Skills, Within(Backend), BACKEND_PATTERNS[1..])) == BACK_MATCH
  {
    assert forall p :: p in BACKEND_PATTERNS[1..] ==> !Contains("go back", p);
    OutscoredPatterns("go back", BACK_MATCH, Skills, Within(Backend), BACKEND_PATTERNS[1..]);
  }

  lemma GoBackBackend()
    ensures Visit("go back", START, PatternCandidates(Skills, Within(Backend), BACKEND_PATTERNS)) == BACK_MATCH
  {
    PatternsSplit("go back", START, Skills, Within(Backend), BACKEND_PATTERNS, 1);
    GoBackHitsBack();
    GoBackMissesOtherBackend();
  }

  lemma GoBackDevops()
    ensures Visit("go back", BACK_MATCH, PatternCandidates(Skills, Within(Devops), DEVOPS_PATTERNS)) == BACK_MATCH
  {
    assert forall p :: p in DEVOPS_PATTERNS ==> !Contains("go back", p);
    OutscoredPatterns("go back", BACK_MATCH, Skills, Within(Devops), DEVOPS_PATTERNS);
  }

  /** "go back": the skills table's only match is the backend keyword "back" (score 5 * 4). */
  lemma GoBackThroughSkills()
    ensures Visit("go back", START, RuleCandidates(SKILLS_RULE)) == BACK_MATCH
  {
    VisitRule("go back", START, SKILLS_RULE);
    assert SKILLS_RULE.subtopics[0] == SubtopicRule(Frontend, FRONTEND_PATTERNS);
    assert SKILLS_RULE.subtopics[1] == SubtopicRule(Backend, BACKEND_PATTERNS);
    assert SKILLS_RULE.subtopics[2] == SubtopicRule(Devops, DEVOPS_PATTERNS);
    GoBackSkillsKeywords();
    GoBackFrontend();
    GoBackBackend();
    GoBackDevops();
  }

  lemma GoBackProjectsKeywords()
    ensures Visit("go back", BACK_MATCH, PatternCandidates(Projects, TopLevel, PROJECTS_RULE.patterns)) == BACK_MATCH
  {
    assert forall p :: p in PROJECTS_RULE.patterns ==> !Contains("go back", p);
    OutscoredPatterns("go back", BACK_MATCH, Projects, TopLevel, PROJECTS_RULE.patterns);
  }

  lemma GoBackPortfolio()
    ensures Visit("go back", BACK_MATCH, PatternCandidates(Projects, Within(PortfolioSite), PORTFOLIO_PATTERNS)) == BACK_MATCH
  {
    assert forall p :: p in PORTFOLIO_PATTERNS ==> !Contains("go back", p);
    OutscoredPatterns("go back", BACK_MATCH, Projects, Within(PortfolioSite), PORTFOLIO_PATTERNS);
  }

  lemma GoBackDashboard()
    ensures Visit("go back", BACK_MATCH, PatternCandidates(Projects, Within(Dashboard), DASHBOARD_PATTERNS)) == BACK_MATCH
  {
    assert forall p :: p in DASHBOARD_PATTERNS ==> !Contains("go back", p);
    OutscoredPatterns("go back", BACK_MATCH, Projects, Within(Dashboard), DASHBOARD_PATTERNS);
  }

  lemma GoBackTaskApp()
    ensures Visit("go back", BACK_MATCH, PatternCandidates(Projects, Within(TaskApp), TASKAPP_PATTERNS)) == BACK_MATCH
  {
    assert forall p :: p in TASKAPP_PATTERNS ==> !Contains("go back", p);
    OutscoredPatterns("go back", BACK_MATCH, Projects, Within(TaskApp), TASKAPP_PATTERNS);
  }

  /** "go back" matches nothing in the projects table, so the backend match stands. */
  lemma GoBackThroughProjects()
    ensures Visit("go back", BACK_MATCH, RuleCandidates(PROJECTS_RULE)) == BACK_MATCH
  {
    VisitRule("go back", BACK_MATCH, PROJECTS_RULE);
    assert PROJECTS_RULE.subtopics[0] == SubtopicRule(PortfolioSite, PORTFOLIO_PATTERNS);
    assert PROJECTS_RULE.subtopics[1] == SubtopicRule(Dashboard, DASHBOARD_PATTERNS);
    assert PROJECTS_RULE.subtopics[2] == SubtopicRule(TaskApp, TASKAPP_PATTERNS);
    GoBackProjectsKeywords();
    GoBackPortfolio();
    GoBackDashboard();
    GoBackTaskApp();
  }

  lemma GoBackContact()
    ensures Visit("go back", BACK_MATCH, PatternCandidates(Contact, TopLevel, CONTACT_RULE.patterns)) == BACK_MATCH
  {
    assert forall p :: p in CONTACT_RULE.patterns ==> !Contains("go back", p);
    OutscoredPatterns("go back", BACK_MATCH, Contact, TopLevel, CONTACT_RULE.patterns);
  }

  lemma GoBackPersonal()
    ensures Visit("go back", BACK_MATCH, PatternCandidates(Personal, TopLevel, PERSONAL_RULE.patterns)) == BACK_MATCH
  {
    assert forall p :: p in PERSONAL_RULE.patterns ==> !Contains("go back", p);
    OutscoredPatterns("go back", BACK_MATCH, Personal, TopLevel, PERSONAL_RULE.patterns);
  }

  const GO_BACK_MATCH: State := State(28, Reset, Some(Backend))

  lemma GoBackEarlyResetKeywords()
    ensures Visit("go back", BACK_MATCH, PatternCandidates(Reset, TopLevel, RESET_RULE.patterns[..5])) == BACK_MATCH
  {
    assert forall p :: p in RESET_RULE.patterns[..5] ==> !Contains("go back", p);
    OutscoredPatterns("go back", BACK_MATCH, Reset, TopLevel, RESET_RULE.patterns[..5]);
  }

  lemma GoBackHitsGoBack()
    ensures Visit("go back", BACK_MATCH, PatternCandidates(Reset, TopLevel, RESET_RULE.patterns[5..6])) == GO_BACK_MATCH
  {
    var q := "go back";
    OccursMiddle("", q, "");
    assert "" + q + "" == q;
    assert Step(q, BACK_MATCH, Candidate(Reset, TopLevel, q)) == GO_BACK_MATCH;
    assert RESET_RULE.patterns[5..6] == [q];
    SinglePattern(q, BACK_MATCH, Reset, TopLevel, RESET_RULE.patterns[5..6]);
  }

  lemma GoBackMissesFresh()
    ensures Visit("go back", GO_BACK_MATCH, PatternCandidates(Reset, TopLevel, RESET_RULE.patterns[6..])) == GO_BACK_MATCH
  {
    assert RESET_RULE.patterns[6..] == ["fresh"];
    assert !Contains("go back", "fresh");
    OutscoredPatterns("go back", GO_BACK_MATCH, Reset, TopLevel, RESET_RULE.patterns[6..]);
  }

  /** In the reset table "go back" (4 * 7) beats the backend match; the subtopic is left as it was. */
  lemma GoBackThroughReset()
    ensures Visit("go back", BACK_MATCH, RuleCandidates(RESET_RULE)) == GO_BACK_MATCH
  {
    var q := "go back";
    VisitRule(q, BACK_MATCH, RESET_RULE);
    var ps := RESET_RULE.patterns;
    var c0, c1, c2 :=
      PatternCandidates(Reset, TopLevel, ps[..5]), PatternCandidates(Reset, TopLevel, ps[5..6]), PatternCandidates(Reset, TopLevel, ps[6..]);
    assert PatternCandidates(Reset, TopLevel, ps) == c0 + c1 + c2;
    VisitAppend(q, BACK_MATCH, c0 + c1, c2);
    VisitAppend(q, BACK_MATCH, c0, c1);
    GoBackEarlyResetKeywords();
    GoBackHitsGoBack();
    GoBackMissesFresh();
  }

  /**
   * "go back" is recognised as a reset request (the reset keyword "go back",
   * 4 * 7, beats the backend keyword "back", 5 * 4), but the subtopic the
   * backend keyword set is never cleared: the verdict carries subtopic backend.
   */
  lemma GoBackKeepsBackendSubtopic()
    ensures Detect("go back") == Verdict(Reset, Some(Backend))
  {
    var q := "go back";
    DetectByRules(q);
    GoBackThroughSkills();
    GoBackThroughProjects();
    VisitRule(q, BACK_MATCH, CONTACT_RULE);
    GoBackContact();
    VisitRule(q, BACK_MATCH, PERSONAL_RULE);
    GoBackPersonal();
    GoBackThroughReset();
  }

  /** Every character of `s` is one of `letters`. */
  predicate Over(s: string, letters: set<char>) {
    forall i :: 0 <= i < |s| ==> s[i] in letters
  }

  /**
   * A query written with `letters` passes over a pattern list without a
   * takeover when each pattern either scores no more than the current best,
   * is known to be absent, or holds the character `marks[i]`, which is not
   * one of `letters`.
   */
  lemma LettersRuleOut(query: string, letters: set<char>, absent: set<Pattern>, st: State, intent: Topic, origin: Origin,
                       patterns: seq<Pattern>, marks: string)
    requires Over(query, letters) && |marks| == |patterns|
    requires forall p :: p in absent ==> !Contains(query, p)
    requires forall i :: 0 <= i < |patterns| ==>
      Weight(origin) * |patterns[i]| <= st.best || patterns[i] in absent || (marks[i] in patterns[i] && marks[i] !in letters)
    ensures Visit(query, st, PatternCandidates(intent, origin, patterns)) == st
  {
    forall p | p in patterns
      ensures !Contains(query, p) || Weight(origin) * |p| <= st.best
    {
      var i :| 0 <= i < |patterns| && patterns[i] == p;
      if Weight(origin) * |p| > st.best && p !in absent {
        MissingChar(query, p, marks[i]);
      }
    }
    OutscoredPatterns(query, st, intent, origin, patterns);
  }

  /**
   * A pattern list whose `k`th pattern occurs and beats the current best, and
   * whose other patterns change nothing, leaves the state that pattern sets.
   */
  lemma TakeoverAt(query: string, st: State, intent: Topic, origin: Origin, patterns: seq<Pattern>, k: nat)
    requires k < |patterns|
    requires Contains(query, patterns[k]) && Weight(origin) * |patterns[k]| > st.best
    requires Visit(query, st, PatternCandidates(intent, origin, patterns[..k])) == st
    requires
      var st' := State(Weight(origin) * |patterns[k]|, intent, match origin case TopLevel => st.subtopic case Within(s) => Some(s));
      Visit(query, st', PatternCandidates(intent, origin, patterns[k + 1..])) == st'
    ensures Visit(query, st, PatternCandidates(intent, origin, patterns))
      == State(Weight(origin) * |patterns[k]|, intent, match origin case TopLevel => st.subtopic case Within(s) => Some(s))
  {
    PatternsSplit(query, st, intent, origin, patterns, k);
    PatternsSplit(query, st, intent, origin, patterns[k..], 1);
    assert patterns[k..][..1] == [patterns[k]] && patterns[k..][1..] == patterns[k + 1..];
    SinglePattern(query, st, intent, origin, [patterns[k]]);
  }

  /** No two consecutive characters of `s` are the characters `j` and `j + 1` of `p`; then `p` does not occur in `s`. */
  lemma PairAbsent(s: string, p: string, j: nat)
    requires j + 1 < |p|
    requires forall k :: 0 <= k < |s| - 1 ==> !(s[k] == p[j] && s[k + 1] == p[j + 1])
    ensures !Contains(s, p)
  {
    forall k: nat | k + |p| <= |s|
      ensures !MatchesAt(s, p, k)
    {
      assert s[k..k + |p|][j] == s[k + j] && s[k..k + |p|][j + 1] == s[k + j + 1];
    }
    ContainsIff(s, p);
  }

  // The "New chat" button of the chat layout sends "Go back to the beginning".

  const NEW_CHAT_BUTTON: string := "Go back to the beginning"
  const NEW_CHAT: string := "go back to the beginning"
  const NEW_CHAT_LETTERS: set<char> := {'g', 'o', ' ', 'b', 'a', 'c', 'k', 't', 'h', 'e', 'i', 'n'}
  const NEW_CHAT_MATCH: State := State(36, Reset, Some(Backend))

  lemma NewChatSkillsKeywords(q: string)
    requires Over(q, NEW_CHAT_LETTERS)
    ensures Visit(q, START, PatternCandidates(Skills, TopLevel, SKILLS_RULE.patterns)) == START
  {
    LettersRuleOut(q, NEW_CHAT_LETTERS, {}, START, Skills, TopLevel, SKILLS_RULE.patterns, "sdwlsldpx");
  }

  lemma NewChatFrontend(q: string)
    requires Over(q, NEW_CHAT_LETTERS)
    ensures Visit(q, START, PatternCandidates(Skills, Within(Frontend), FRONTEND_PATTERNS)) == START
  {
    LettersRuleOut(q, NEW_CHAT_LETTERS, {}, START, Skills, Within(Frontend), FRONTEND_PATTERNS, "ffurjysml");
  }

  lemma NewChatBackend(q: string)
    requires Over(q, NEW_CHAT_LETTERS) && Contains(q, "back")
    ensures Visit(q, START, PatternCandidates(Skills, Within(Backend), BACKEND_PATTERNS)) == BACK_MATCH
  {
    assert BACKEND_PATTERNS[..0] == [];
    LettersRuleOut(q, NEW_CHAT_LETTERS, {}, BACK_MATCH, Skills, Within(Backend), BACKEND_PATTERNS[1..], "dsd--x-pm");
    TakeoverAt(q, START, Skills, Within(Backend), BACKEND_PATTERNS, 0);
  }

  lemma NewChatDevops(q: string)
    requires Over(q, NEW_CHAT_LETTERS)
    ensures Visit(q, BACK_MATCH, PatternCandidates(Skills, Within(Devops), DEVOPS_PATTERNS)) == BACK_MATCH
  {
    LettersRuleOut(q, NEW_CHAT_LETTERS, {}, BACK_MATCH, Skills, Within(Devops), DEVOPS_PATTERNS, "dd-v");
  }

  lemma NewChatThroughSkills(q: string)
    requires Over(q, NEW_CHAT_LETTERS) && Contains(q, "back")
    ensures Visit(q, START, RuleCandidates(SKILLS_RULE)) == BACK_MATCH
  {
    VisitRule(q, START, SKILLS_RULE);
    assert SKILLS_RULE.subtopics[0] == SubtopicRule(Frontend, FRONTEND_PATTERNS);
    assert SKILLS_RULE.subtopics[1] == SubtopicRule(Backend, BACKEND_PATTERNS);
    assert SKILLS_RULE.subtopics[2] == SubtopicRule(Devops, DEVOPS_PATTERNS);
    NewChatSkillsKeywords(q);
    NewChatFrontend(q);
    NewChatBackend(q);
    NewChatDevops(q);
  }

  lemma NewChatProjectsKeywords(q: string)
    requires Over(q, NEW_CHAT_LETTERS)
    ensures Visit(q, BACK_MATCH, PatternCandidates(Projects, TopLevel, PROJECTS_RULE.patterns)) == BACK_MATCH
  {
    LettersRuleOut(q, NEW_CHAT_LETTERS, {}, BACK_MATCH, Projects, TopLevel, PROJECTS_RULE.patterns, "pp--rdsu-");
  }

  lemma NewChatPortfolio(q: string)
    requires Over(q, NEW_CHAT_LETTERS)
    ensures Visit(q, BACK_MATCH, PatternCandidates(Projects, Within(PortfolioSite), PORTFOLIO_PATTERNS)) == BACK_MATCH
  {
    LettersRuleOut(q, NEW_CHAT_LETTERS, {}, BACK_MATCH, Projects, Within(PortfolioSite), PORTFOLIO_PATTERNS, "pwpp");
  }

  lemma NewChatDashboard(q: string)
    requires Over(q, NEW_CHAT_LETTERS)
    ensures Visit(q, BACK_MATCH, PatternCandidates(Projects, Within(Dashboard), DASHBOARD_PATTERNS)) == BACK_MATCH
  {
    LettersRuleOut(q, NEW_CHAT_LETTERS, {}, BACK_MATCH, Projects, Within(Dashboard), DASHBOARD_PATTERNS, "dpmpv");
  }

  lemma NewChatTaskApp(q: string)
    requires Over(q, NEW_CHAT_LETTERS)
    ensures Visit(q, BACK_MATCH, PatternCandidates(Projects, Within(TaskApp), TASKAPP_PATTERNS)) == BACK_MATCH
  {
    LettersRuleOut(q, NEW_CHAT_LETTERS, {}, BACK_MATCH, Projects, Within(TaskApp), TASKAPP_PATTERNS, "-m-s-");
  }

  lemma NewChatThroughProjects(q: string)
    requires Over(q, NEW_CHAT_LETTERS)
    ensures Visit(q, BACK_MATCH, RuleCandidates(PROJECTS_RULE)) == BACK_MATCH
  {
    VisitRule(q, BACK_MATCH, PROJECTS_RULE);
    assert PROJECTS_RULE.subtopics[0] == SubtopicRule(PortfolioSite, PORTFOLIO_PATTERNS);
    assert PROJECTS_RULE.subtopics[1] == SubtopicRule(Dashboard, DASHBOARD_PATTERNS);
    assert PROJECTS_RULE.subtopics[2] == SubtopicRule(TaskApp, TASKAPP_PATTERNS);
    NewChatProjectsKeywords(q);
    NewChatPortfolio(q);
    NewChatDashboard(q);
    NewChatTaskApp(q);
  }

  lemma NewChatContact(q: string)
    requires Over(q, NEW_CHAT_LETTERS) && !Contains(q, "contact") && !Contains(q, "connect")
    ensures Visit(q, BACK_MATCH, RuleCandidates(CONTACT_RULE)) == BACK_MATCH
  {
    VisitRule(q, BACK_MATCH, CONTACT_RULE);
    LettersRuleOut(q, NEW_CHAT_LETTERS, {"contact", "connect"}, BACK_MATCH, Contact, TopLevel, CONTACT_RULE.patterns, "--r-lus-m");
  }

  lemma NewChatPersonal(q: string)
    requires Over(q, NEW_CHAT_LETTERS)
    ensures Visit(q, BACK_MATCH, RuleCandidates(PERSONAL_RULE)) == BACK_MATCH
  {
    VisitRule(q, BACK_MATCH, PERSONAL_RULE);
    LettersRuleOut(q, NEW_CHAT_LETTERS, {}, BACK_MATCH, Personal, TopLevel, PERSONAL_RULE.patterns, "yurrspwl");
  }

  lemma NewChatEarlyReset(q: string)
    requires Over(q, NEW_CHAT_LETTERS)
    ensures Visit(q, BACK_MATCH, PatternCandidates(Reset, TopLevel, RESET_RULE.patterns[..2])) == BACK_MATCH
  {
    LettersRuleOut(q, NEW_CHAT_LETTERS, {}, BACK_MATCH, Reset, TopLevel, RESET_RULE.patterns[..2], "-s");
  }

  lemma NewChatLateReset(q: string)
    requires Over(q, NEW_CHAT_LETTERS)
    ensures Visit(q, NEW_CHAT_MATCH, PatternCandidates(Reset, TopLevel, RESET_RULE.patterns[3..])) == NEW_CHAT_MATCH
  {
    LettersRuleOut(q, NEW_CHAT_LETTERS, {}, NEW_CHAT_MATCH, Reset, TopLevel, RESET_RULE.patterns[3..], "-s--");
  }

  /** In the reset table "beginning" (4 * 9) beats the backend match; the subtopic is left as it was. */
  lemma NewChatThroughReset(q: string)
    requires Over(q, NEW_CHAT_LETTERS) && Contains(q, "beginning")
    ensures Visit(q, BACK_MATCH, RuleCandidates(RESET_RULE)) == NEW_CHAT_MATCH
  {
    VisitRule(q, BACK_MATCH, RESET_RULE);
    assert RESET_RULE.patterns[2] == "beginning";
    NewChatEarlyReset(q);
    NewChatLateReset(q);
    TakeoverAt(q, BACK_MATCH, Reset, TopLevel, RESET_RULE.patterns, 2);
  }

  /** The button's query holds the keywords "back" and "beginning"; its letters are those of `NEW_CHAT_LETTERS`. */
  lemma NewChatKeywords()
    ensures Over(NEW_CHAT, NEW_CHAT_LETTERS)
    ensures Contains(NEW_CHAT, "back") && Contains(NEW_CHAT, "beginning")
  {
    assert MatchesAt(NEW_CHAT, "back", 3);
    assert MatchesAt(NEW_CHAT, "beginning", 15);
    ContainsIff(NEW_CHAT, "back");
    ContainsIff(NEW_CHAT, "beginning");
  }

  /** "contact" and "connect" have every letter in the button's query, but no "co". */
  lemma NewChatLacksContact()
    ensures !Contains(NEW_CHAT, "contact") && !Contains(NEW_CHAT, "connect")
  {
    PairAbsent(NEW_CHAT, "contact", 0);
    PairAbsent(NEW_CHAT, "connect", 0);
  }

  /**
   * The "New chat" button's query is recognised as a reset request
   * ("beginning", 4 * 9), after the backend keyword "back" (5 * 4) has set
   * the subtopic, which the reset match does not clear.
   */
  lemma NewChatKeepsBackendSubtopic()
    ensures Detect(NEW_CHAT) == Verdict(Reset, Some(Backend))
  {
    var q := NEW_CHAT;
    NewChatKeywords();
    NewChatLacksContact();
    DetectByRules(q);
    NewChatThroughSkills(q);
    NewChatThroughProjects(q);
    NewChatContact(q);
    NewChatPersonal(q);
    NewChatThroughReset(q);
  }

  /** The button's text, lower-cased, is the query the recogniser sees. */
  lemma NewChatButtonLowered()
    ensures Lower(NEW_CHAT_BUTTON) == NEW_CHAT
  {
    assert Lower(NEW_CHAT_BUTTON)[0] == 'g';
  }

  /**
   * Pressing "New chat" in any context gets the reset reply (the welcome menu
   * and its quick replies), and the conversation starts over from the
   * initial context.
   */
  lemma NewChatRestarts(profile: Portfolio.Profile, ctx: Conversation.Context)
    requires Composer.Complete(profile)
    ensures Chat.Respond(profile, ctx, NEW_CHAT_BUTTON)
      == Chat.Turn(Conversation.INITIAL_CONTEXT, Composer.Reply(Composer.RESET_TEXT, Composer.WELCOME_OPTIONS))
  {
    NewChatButtonLowered();
    NewChatKeepsBackendSubtopic();
  }

  // The "Frontend Details" quick reply sends "Tell me about your frontend skills".

  const FRONTEND_DETAILS: string := "tell me about your frontend skills"
  const FRONTEND_DETAILS_LETTERS: set<char> :=
    {'t', 'e', 'l', ' ', 'm', 'a', 'b', 'o', 'u', 'y', 'r', 'f', 'n', 'd', 's', 'k', 'i'}
  const SKILLS_MATCH: State := State(24, Skills, None)
  const FRONT_MATCH: State := State(25, Skills, Some(Frontend))
  const FRONTEND_MATCH: State := State(40, Skills, Some(Frontend))
  const DETAILS_MATCH: State := State(52, Personal, Some(Frontend))

  lemma DetailsSkillsKeywords(q: string)
    requires Over(q, FRONTEND_DETAILS_LETTERS) && Contains(q, "skills") && !Contains(q, "abilities")
    ensures Visit(q, START, PatternCandidates(Skills, TopLevel, SKILLS_RULE.patterns)) == SKILLS_MATCH
  {
    assert SKILLS_RULE.patterns[..0] == [];
    LettersRuleOut(q, FRONTEND_DETAILS_LETTERS, {"abilities"}, SKILLS_MATCH, Skills, TopLevel, SKILLS_RULE.patterns[1..], "g-cc--px");
    TakeoverAt(q, START, Skills, TopLevel, SKILLS_RULE.patterns, 0);
  }

  /** "front" (5 * 5) and then "frontend" (5 * 8) take over from the skills keyword. */
  lemma DetailsFrontend(q: string)
    requires Over(q, FRONTEND_DETAILS_LETTERS) && Contains(q, "front") && Contains(q, "frontend")
    ensures Visit(q, SKILLS_MATCH, PatternCandidates(Skills, Within(Frontend), FRONTEND_PATTERNS)) == FRONTEND_MATCH
  {
    var ps := FRONTEND_PATTERNS;
    PatternsSplit(q, SKILLS_MATCH, Skills, Within(Frontend), ps, 1);
    SinglePattern(q, SKILLS_MATCH, Skills, Within(Frontend), ps[..1]);
    assert ps[1..][..0] == [];
    LettersRuleOut(q, FRONTEND_DETAILS_LETTERS, {}, FRONTEND_MATCH, Skills, Within(Frontend), ps[1..][1..], "--jp---");
    TakeoverAt(q, FRONT_MATCH, Skills, Within(Frontend), ps[1..], 0);
  }

  lemma DetailsBackend(q: string)
    requires Over(q, FRONTEND_DETAILS_LETTERS)
    ensures Visit(q, FRONTEND_MATCH, PatternCandidates(Skills, Within(Backend), BACKEND_PATTERNS)) == FRONTEND_MATCH
  {
    LettersRuleOut(q, FRONTEND_DETAILS_LETTERS, {}, FRONTEND_MATCH, Skills, Within(Backend), BACKEND_PATTERNS, "----------");
  }

  lemma DetailsDevops(q: string)
    requires Over(q, FRONTEND_DETAILS_LETTERS)
    ensures Visit(q, FRONTEND_MATCH, PatternCandidates(Skills, Within(Devops), DEVOPS_PATTERNS)) == FRONTEND_MATCH
  {
    LettersRuleOut(q, FRONTEND_DETAILS_LETTERS, {}, FRONTEND_MATCH, Skills, Within(Devops), DEVOPS_PATTERNS, "-p-v");
  }

  lemma DetailsThroughSkills(q: string)
    requires Over(q, FRONTEND_DETAILS_LETTERS) && !Contains(q, "abilities")
    requires Contains(q, "skills") && Contains(q, "front") && Contains(q, "frontend")
    ensures Visit(q, START, RuleCandidates(SKILLS_RULE)) == FRONTEND_MATCH
  {
    VisitRule(q, START, SKILLS_RULE);
    assert SKILLS_RULE.subtopics[0] == SubtopicRule(Frontend, FRONTEND_PATTERNS);
    assert SKILLS_RULE.subtopics[1] == SubtopicRule(Backend, BACKEND_PATTERNS);
    assert SKILLS_RULE.subtopics[2] == SubtopicRule(Devops, DEVOPS_PATTERNS);
    DetailsSkillsKeywords(q);
    DetailsFrontend(q);
    DetailsBackend(q);
    DetailsDevops(q);
  }

  lemma DetailsProjectsKeywords(q: string)
    requires Over(q, FRONTEND_DETAILS_LETTERS)
    ensures Visit(q, FRONTEND_MATCH, PatternCandidates(Projects, TopLevel, PROJECTS_RULE.patterns)) == FRONTEND_MATCH
  {
    LettersRuleOut(q, FRONTEND_DETAILS_LETTERS, {}, FRONTEND_MATCH, Projects, TopLevel, PROJECTS_RULE.patterns, "---------");
  }

  lemma DetailsPortfolio(q: string)
    requires Over(q, FRONTEND_DETAILS_LETTERS)
    ensures Visit(q, FRONTEND_MATCH, PatternCandidates(Projects, Within(PortfolioSite), PORTFOLIO_PATTERNS)) == FRONTEND_MATCH
  {
    LettersRuleOut(q, FRONTEND_DETAILS_LETTERS, {}, FRONTEND_MATCH, Projects, Within(PortfolioSite), PORTFOLIO_PATTERNS, "p-pp");
  }

  lemma DetailsDashboard(q: string)
    requires Over(q, FRONTEND_DETAILS_LETTERS)
    ensures Visit(q, FRONTEND_MATCH, PatternCandidates(Projects, Within(Dashboard), DASHBOARD_PATTERNS)) == FRONTEND_MATCH
  {
    LettersRuleOut(q, FRONTEND_DETAILS_LETTERS, {}, FRONTEND_MATCH, Projects, Within(Dashboard), DASHBOARD_PATTERNS, "hp-pv");
  }

  lemma DetailsTaskApp(q: string)
    requires Over(q, FRONTEND_DETAILS_LETTERS)
    ensures Visit(q, FRONTEND_MATCH, PatternCandidates(Projects, Within(TaskApp), TASKAPP_PATTERNS)) == FRONTEND_MATCH
  {
    LettersRuleOut(q, FRONTEND_DETAILS_LETTERS, {}, FRONTEND_MATCH, Projects, Within(TaskApp), TASKAPP_PATTERNS, "-g---");
  }

  lemma DetailsThroughProjects(q: string)
    requires Over(q, FRONTEND_DETAILS_LETTERS)
    ensures Visit(q, FRONTEND_MATCH, RuleCandidates(PROJECTS_RULE)) == FRONTEND_MATCH
  {
    VisitRule(q, FRONTEND_MATCH, PROJECTS_RULE);
    assert PROJECTS_RULE.subtopics[0] == SubtopicRule(PortfolioSite, PORTFOLIO_PATTERNS);
    assert PROJECTS_RULE.subtopics[1] == SubtopicRule(Dashboard, DASHBOARD_PATTERNS);
    assert PROJECTS_RULE.subtopics[2] == SubtopicRule(TaskApp, TASKAPP_PATTERNS);
    DetailsProjectsKeywords(q);
    DetailsPortfolio(q);
    DetailsDashboard(q);
    DetailsTaskApp(q);
  }

  lemma DetailsContact(q: string)
    requires Over(q, FRONTEND_DETAILS_LETTERS)
    ensures Visit(q, FRONTEND_MATCH, RuleCandidates(CONTACT_RULE)) == FRONTEND_MATCH
  {
    VisitRule(q, FRONTEND_MATCH, CONTACT_RULE);
    LettersRuleOut(q, FRONTEND_DETAILS_LETTERS, {}, FRONTEND_MATCH, Contact, TopLevel, CONTACT_RULE.patterns, "---------");
  }

  lemma DetailsEarlyPersonal(q: string)
    requires Over(q, FRONTEND_DETAILS_LETTERS)
    ensures Visit(q, FRONTEND_MATCH, PatternCandidates(Personal, TopLevel, PERSONAL_RULE.patterns[..7])) == FRONTEND_MATCH
  {
    LettersRuleOut(q, FRONTEND_DETAILS_LETTERS, {}, FRONTEND_MATCH, Personal, TopLevel, PERSONAL_RULE.patterns[..7], "------w");
  }

  /** "tell me about" (4 * 13) beats the frontend match; "about you" (4 * 9) does not. */
  lemma DetailsPersonal(q: string)
    requires Over(q, FRONTEND_DETAILS_LETTERS) && Contains(q, "tell me about")
    ensures Visit(q, FRONTEND_MATCH, RuleCandidates(PERSONAL_RULE)) == DETAILS_MATCH
  {
    VisitRule(q, FRONTEND_MATCH, PERSONAL_RULE);
    assert PERSONAL_RULE.patterns[7] == "tell me about" && PERSONAL_RULE.patterns[8..] == [];
    DetailsEarlyPersonal(q);
    TakeoverAt(q, FRONTEND_MATCH, Personal, TopLevel, PERSONAL_RULE.patterns, 7);
  }

  lemma DetailsReset(q: string)
    requires Over(q, FRONTEND_DETAILS_LETTERS)
    ensures Visit(q, DETAILS_MATCH, RuleCandidates(RESET_RULE)) == DETAILS_MATCH
  {
    VisitRule(q, DETAILS_MATCH, RESET_RULE);
    LettersRuleOut(q, FRONTEND_DETAILS_LETTERS, {}, DETAILS_MATCH, Reset, TopLevel, RESET_RULE.patterns, "-------");
  }

  /** The quick reply's query holds "tell me about", "front", "frontend" and "skills"; its letters are those of `FRONTEND_DETAILS_LETTERS`. */
  lemma FrontendDetailsKeywords()
    ensures Over(FRONTEND_DETAILS, FRONTEND_DETAILS_LETTERS)
    ensures Contains(FRONTEND_DETAILS, "skills") && Contains(FRONTEND_DETAILS, "front")
    ensures Contains(FRONTEND_DETAILS, "frontend") && Contains(FRONTEND_DETAILS, "tell me about")
  {
    assert MatchesAt(FRONTEND_DETAILS, "tell me about", 0);
    assert MatchesAt(FRONTEND_DETAILS, "front", 19);
    assert MatchesAt(FRONTEND_DETAILS, "frontend", 19);
    assert MatchesAt(FRONTEND_DETAILS, "skills", 28);
    ContainsIff(FRONTEND_DETAILS, "tell me about");
    ContainsIff(FRONTEND_DETAILS, "front");
    ContainsIff(FRONTEND_DETAILS, "frontend");
    ContainsIff(FRONTEND_DETAILS, "skills");
  }

  /** "abilities" has every letter in the quick reply's query, but no "bi". */
  lemma FrontendDetailsLacksAbilities()
    ensures !Contains(FRONTEND_DETAILS, "abilities")
  {
    PairAbsent(FRONTEND_DETAILS, "abilities", 1);
  }

  /**
   * The "Frontend Details" quick reply is recognised as a personal question:
   * "tell me about" (4 * 13) outscores "frontend" (5 * 8), and the verdict
   * keeps the frontend subtopic.
   */
  lemma FrontendDetailsIsPersonal()
    ensures Detect(FRONTEND_DETAILS) == Verdict(Personal, Some(Frontend))
  {
    var q := FRONTEND_DETAILS;
    FrontendDetailsKeywords();
    FrontendDetailsLacksAbilities();
    DetectByRules(q);
    DetailsThroughSkills(q);
    DetailsThroughProjects(q);
    DetailsContact(q);
    DetailsPersonal(q);
    DetailsReset(q);
  }
}
