/**
 * The reply the assistant gives for a recognised intent: the text and the
 * quick replies offered under it (the `switch (detectedIntent)` of the
 * source, with the icons left out). Every reply quotes the portfolio record
 * it is given.
 */
module Composer {
  import opened Wrappers
  import opened Text
  import opened Portfolio
  import opened Intents
  import opened Conversation

  /** A quick reply: the button `label` (a reserved word here, hence `caption`) and the question it sends. */
  datatype QuickReply = QuickReply(caption: string, value: string)

  datatype Reply = Reply(text: string, options: seq<QuickReply>)

  /** The menu both the welcome message and the reset reply end with. */
  const MENU: string :=
    "\n\n• Experience and skills\n• Projects and achievements\n• Contact information\n\nWhat would you like to know about?"

  /** The greeting the conversation opens with. */
  function WelcomeText(profile: Profile): (r: string)
    ensures Occurs(r, profile.name) && Occurs(r, MENU)
    ensures |MENU| <= |r| && r[|r| - |MENU|..] == MENU
  {
    var named := "Hi! I'm an AI assistant for " + profile.name;
    var intro := named + "'s portfolio. I can help you explore their:";
    OccursHalves("Hi! I'm an AI assistant for ", profile.name);
    OccursHalves(named, "'s portfolio. I can help you explore their:");
    OccursHalves(intro, MENU);
    OccursTrans(intro + MENU, intro, named);
    OccursTrans(intro + MENU, named, profile.name);
    intro + MENU
  }

  const WELCOME_OPTIONS: seq<QuickReply> := [
    QuickReply("Skills & Experience", "Tell me about your skills and experience"),
    QuickReply("View Projects", "Show me your projects"),
    QuickReply("Contact Info", "How can I contact you?")]

  const RESET_TEXT: string := "Let's start fresh! I can help you explore:" + MENU

  const FRONTEND_OPTIONS: seq<QuickReply> := [
    QuickReply("Backend Skills", "What about your backend skills?"),
    QuickReply("View Projects", "Show me your frontend projects")]

  const BACKEND_OPTIONS: seq<QuickReply> := [
    QuickReply("Frontend Skills", "What frontend technologies do you use?"),
    QuickReply("View Projects", "Show me your backend projects")]

  const STACK_OPTIONS: seq<QuickReply> := [
    QuickReply("Frontend Details", "Tell me about your frontend skills"),
    QuickReply("Backend Details", "Tell me about your backend skills"),
    QuickReply("View Projects", "Show me your projects")]

  const PROJECT_DETAIL_OPTIONS: seq<QuickReply> := [
    QuickReply("Other Projects", "What other projects have you worked on?"),
    QuickReply("Tech Stack", "Tell me more about the tech stack")]

  const CONTACT_OPTIONS: seq<QuickReply> := [
    QuickReply("View Projects", "Show me your projects first"),
    QuickReply("Experience", "Tell me about your experience")]

  const PERSONAL_OPTIONS: seq<QuickReply> := [
    QuickReply("Skills", "What are your technical skills?"),
    QuickReply("Projects", "Show me your projects"),
    QuickReply("Contact", "How can I contact you?")]

  /** `items.join(", ")`. */
  function List(items: seq<string>): string {
    Join(items, ", ")
  }

  /** Every item occurs in its list. */
  lemma ListQuotesItems(items: seq<string>)
    ensures forall i :: 0 <= i < |items| ==> Occurs(List(items), items[i])
  {
    forall i | 0 <= i < |items| ensures Occurs(List(items), items[i]) {
      JoinOccursPiece(items, ", ", i);
    }
  }

  const FRONTEND_LEAD: string := "In frontend development, I specialize in "
  const FRONTEND_CLOSE: string :=
    ". I focus on creating responsive, accessible, and performant user interfaces with modern web technologies."

  /** The skills reply for the frontend subtopic. */
  function FrontendReply(skills: Skills): (r: Reply)
    ensures Occurs(r.text, List(skills.frontend))
  {
    var head := FRONTEND_LEAD + List(skills.frontend);
    var tail := FRONTEND_CLOSE;
    OccursHalves(head, tail);
    OccursHalves(FRONTEND_LEAD, List(skills.frontend));
    OccursTrans(head + tail, head, List(skills.frontend));
    Reply(head + tail, FRONTEND_OPTIONS)
  }

  const BACKEND_LEAD: string := "For backend development, I work with "
  const BACKEND_CLOSE: string :=
    ". I have experience building scalable APIs and working with various database systems."

  /** The skills reply for the backend subtopic. */
  function BackendReply(skills: Skills): (r: Reply)
    ensures Occurs(r.text, List(skills.backend))
  {
    var head := BACKEND_LEAD + List(skills.backend);
    var tail := BACKEND_CLOSE;
    OccursHalves(head, tail);
    OccursHalves(BACKEND_LEAD, List(skills.backend));
    OccursTrans(head + tail, head, List(skills.backend));
    Reply(head + tail, BACKEND_OPTIONS)
  }

  /** The skills reply without a (distinguished) subtopic: all three lists. */
  function StackReply(skills: Skills): (r: Reply)
    ensures Occurs(r.text, List(skills.frontend)) && Occurs(r.text, List(skills.backend))
    ensures Occurs(r.text, List(skills.devops))
  {
    var fe, be, dv := List(skills.frontend), List(skills.backend), List(skills.devops);
    var l1 := "I work with various technologies across the stack:\n\n**Frontend:** " + fe;
    var l2 := l1 + "\n**Backend:** " + be;
    var l3 := l2 + "\n**DevOps:** " + dv;
    var text := l3 + "\n\nWould you like to know more about any specific area?";
    OccursHalves(l3, "\n\nWould you like to know more about any specific area?");
    OccursHalves(l2 + "\n**DevOps:** ", dv);
    OccursHalves(l1 + "\n**Backend:** ", be);
    OccursHalves("I work with various technologies across the stack:\n\n**Frontend:** ", fe);
    OccursHalves(l2, "\n**DevOps:** ");
    OccursHalves(l1, "\n**Backend:** ");
    OccursTrans(text, l3, dv);
    OccursTrans(l3, l2 + "\n**DevOps:** ", l2);
    OccursTrans(text, l3, l2);
    OccursTrans(text, l2, be);
    OccursTrans(l2, l1 + "\n**Backend:** ", l1);
    OccursTrans(text, l2, l1);
    OccursTrans(text, l1, fe);
    Reply(text, STACK_OPTIONS)
  }

  /** The bold heading a project's name is shown under. */
  function Heading(project: Project): string {
    "**" + project.name + "**"
  }

  /** The detailed card of one project: the template's parts, concatenated. */
  function ProjectDetail(project: Project): (r: Reply)
    ensures Occurs(r.text, Heading(project)) && Occurs(r.text, project.description)
    ensures Occurs(r.text, List(project.techStack)) && Occurs(r.text, project.challengesSolved)
    ensures Occurs(r.text, project.liveUrl) && Occurs(r.text, project.codeUrl)
  {
    var parts := [Heading(project), "\n\n", project.description, "\n\n**Tech Stack:** ", List(project.techStack),
      "\n**Key Achievement:** ", project.challengesSolved,
      "\n\nYou can view the [live site](", project.liveUrl, ") or check out the [source code](", project.codeUrl, ")."];
    JoinOccursPiece(parts, "", 0);
    JoinOccursPiece(parts, "", 2);
    JoinOccursPiece(parts, "", 4);
    JoinOccursPiece(parts, "", 6);
    JoinOccursPiece(parts, "", 8);
    JoinOccursPiece(parts, "", 10);
    Reply(Join(parts, ""), PROJECT_DETAIL_OPTIONS)
  }

  /** One project's block of the projects summary: the template's parts, concatenated. */
  function ProjectBlock(project: Project): (r: string)
    ensures Occurs(r, Heading(project)) && Occurs(r, project.description) && Occurs(r, List(project.techStack))
  {
    var parts := [Heading(project), "\n", project.description, "\n**Tech Stack:** ", List(project.techStack), "\n"];
    JoinOccursPiece(parts, "", 0);
    JoinOccursPiece(parts, "", 2);
    JoinOccursPiece(parts, "", 4);
    Join(parts, "")
  }

  /** One quick reply per project, in order, each asking about that project by name. */
  function ProjectOptions(projects: seq<Project>): (r: seq<QuickReply>)
    ensures |r| == |projects|
    ensures forall i :: 0 <= i < |r| ==>
      r[i].caption == projects[i].name && r[i].value == "Tell me more about " + projects[i].name
  {
    seq(|projects|, i requires 0 <= i < |projects| => QuickReply(projects[i].name, "Tell me more about " + projects[i].name))
  }

  /** The summary of every project, with one quick reply per project. */
  function ProjectsSummary(projects: seq<Project>): (r: Reply)
    ensures forall i :: 0 <= i < |projects| ==> Occurs(r.text, Heading(projects[i]))
    ensures r.options == ProjectOptions(projects)
  {
    var blocks := seq(|projects|, i requires 0 <= i < |projects| => ProjectBlock(projects[i]));
    var head := "Here are some of my key projects:\n\n";
    var text := head + Join(blocks, "\n");
    OccursHalves(head, Join(blocks, "\n"));
    forall i | 0 <= i < |projects|
      ensures Occurs(text, Heading(projects[i]))
    {
      JoinOccursPiece(blocks, "\n", i);
      OccursTrans(text, Join(blocks, "\n"), blocks[i]);
      OccursTrans(text, blocks[i], Heading(projects[i]));
    }
    Reply(text, ProjectOptions(projects))
  }

  const CONTACT_LEAD: string := "You can reach me through:\n\n\U{1F4E7} **Email:** "
  const LINKEDIN_LABEL: string := "\n\U{1F517} **LinkedIn:** "
  const GITHUB_LABEL: string := "\n\U{1F419} **GitHub:** "
  const WEBSITE_LABEL: string := "\n\U{1F310} **Website:** "
  const CONTACT_CLOSE: string := "\n\nFeel free to connect for professional opportunities or collaborations!"

  /** The contact card: the template's parts, concatenated. */
  function ContactReply(profile: Profile): (r: Reply)
    ensures Occurs(r.text, profile.email) && Occurs(r.text, profile.linkedin)
    ensures Occurs(r.text, profile.github) && Occurs(r.text, profile.website)
  {
    var parts := [CONTACT_LEAD, profile.email, LINKEDIN_LABEL, profile.linkedin, GITHUB_LABEL, profile.github,
      WEBSITE_LABEL, profile.website, CONTACT_CLOSE];
    JoinOccursPiece(parts, "", 1);
    JoinOccursPiece(parts, "", 3);
    JoinOccursPiece(parts, "", 5);
    JoinOccursPiece(parts, "", 7);
    Reply(Join(parts, ""), CONTACT_OPTIONS)
  }

  /** The introduction: the template's parts, concatenated. */
  function PersonalReply(profile: Profile): (r: Reply)
    ensures Occurs(r.text, profile.name) && Occurs(r.text, profile.role) && Occurs(r.text, profile.location)
    ensures Occurs(r.text, profile.about) && Occurs(r.text, List(profile.interests))
  {
    var parts := ["I'm ", profile.name, ", a ", profile.role, " based in ", profile.location, ".\n\n", profile.about,
      "\n\nI'm passionate about ", List(profile.interests), "."];
    JoinOccursPiece(parts, "", 1);
    JoinOccursPiece(parts, "", 3);
    JoinOccursPiece(parts, "", 5);
    JoinOccursPiece(parts, "", 7);
    JoinOccursPiece(parts, "", 9);
    Reply(Join(parts, ""), PERSONAL_OPTIONS)
  }

  /** The three fallback answers to a question nothing matched. */
  datatype Fallback = Orientation | Discussing(topic: Intent) | MenuFallback

  /**
   * Which fallback the advanced context selects: the orientation on the first
   * question, otherwise the last topic if there is one, otherwise the menu.
   */
  function FallbackFor(ctx: Context): (r: Fallback)
    ensures r.Orientation? <==> ctx.questionsAsked == 1
    ensures r.Discussing? <==> ctx.questionsAsked != 1 && ctx.lastTopic.Some?
    ensures r.Discussing? ==> Some(r.topic) == ctx.lastTopic
  {
    if ctx.questionsAsked == 1 then Orientation
    else if ctx.lastTopic.Some? then Discussing(ctx.lastTopic.value)
    else MenuFallback
  }

  const ORIENTATION_LEAD: string := "I'm here to help you learn about my experience as a "
  const ORIENTATION_CLOSE: string := ". You can ask about my skills, projects, or how to get in touch. What interests you?"

  const MENU_FALLBACK_TEXT: string :=
    "I can tell you about my skills, projects, experience, or how to get in touch. What would you like to know?"

  const DISCUSSING_LEAD: string := "I'm not sure I understood that. We were discussing "
  const DISCUSSING_CLOSE: string := ". Would you like to know more about that or something else?"

  /** The fallback that names the last topic. */
  function DiscussingText(name: string): (r: string)
    ensures Occurs(r, name)
  {
    var head := DISCUSSING_LEAD + name;
    var tail := DISCUSSING_CLOSE;
    OccursHalves(head, tail);
    OccursHalves(DISCUSSING_LEAD, name);
    OccursTrans(head + tail, head, name);
    head + tail
  }

  /** The text of a fallback: the orientation names the owner's role, the topic fallback names the topic. */
  function FallbackText(profile: Profile, fallback: Fallback): (r: string)
    ensures fallback.Orientation? ==> Occurs(r, profile.role)
    ensures fallback.Discussing? ==> Occurs(r, IntentName(fallback.topic))
  {
    match fallback
    case Orientation =>
      OccursMiddle(ORIENTATION_LEAD, profile.role, ORIENTATION_CLOSE);
      ORIENTATION_LEAD + profile.role + ORIENTATION_CLOSE
    case Discussing(topic) => DiscussingText(IntentName(topic))
    case MenuFallback => MENU_FALLBACK_TEXT
  }

  const FALLBACK_OPTIONS: seq<QuickReply> := [
    QuickReply("Skills", "Tell me about your skills"),
    QuickReply("Projects", "Show me your projects"),
    QuickReply("Contact", "How can I contact you?")]

  /** The record the replies quote: the project card of the portfolio subtopic must be in it. */
  predicate Complete(profile: Profile) {
    FindProject(profile.projects, "Portfolio Website").Some?
  }

  /** The skills reply: only the frontend and backend subtopics have replies of their own. */
  function SkillsReply(skills: Skills, subtopic: Option<Subtopic>): (r: Reply)
    ensures |r.options| > 0
  {
    if subtopic == Some(Frontend) then FrontendReply(skills)
    else if subtopic == Some(Backend) then BackendReply(skills)
    else StackReply(skills)
  }

  /** The projects reply: only the portfolio subtopic has a reply of its own. */
  function ProjectsReply(projects: seq<Project>, subtopic: Option<Subtopic>): (r: Reply)
    requires FindProject(projects, "Portfolio Website").Some?
    ensures |r.options| > 0
  {
    if subtopic == Some(PortfolioSite) then ProjectDetail(FindProject(projects, "Portfolio Website").value)
    else ProjectsSummary(projects)
  }

  /**
   * The reply to a question nothing matched: after the first question it
   * names the owner's role, later it names the last topic when there is one,
   * and it always offers the fallback quick replies.
   */
  function UnknownReply(profile: Profile, ctx: Context): (r: Reply)
    ensures r.options == FALLBACK_OPTIONS
    ensures ctx.questionsAsked == 1 ==> Occurs(r.text, profile.role)
    ensures ctx.questionsAsked != 1 && ctx.lastTopic.Some? ==> Occurs(r.text, IntentName(ctx.lastTopic.value))
  {
    Reply(FallbackText(profile, FallbackFor(ctx)), FALLBACK_OPTIONS)
  }

  /**
   * The reply to a question recognised as `intent` (with `subtopic`), given the
   * context as the question advanced it.
   */
  function Compose(profile: Profile, intent: Intent, subtopic: Option<Subtopic>, ctx: Context): (r: Reply)
    requires Complete(profile)
    ensures |r.options| > 0
  {
    match intent
    case Skills => SkillsReply(profile.skills, subtopic)
    case Projects => ProjectsReply(profile.projects, subtopic)
    case Contact => ContactReply(profile)
    case Personal => PersonalReply(profile)
    case Reset => Reply(RESET_TEXT, WELCOME_OPTIONS)
    case Unknown => UnknownReply(profile, ctx)
  }

  /**
   * Detected subtopics the replies ignore: the devops subtopic of skills and
   * the dashboard and task-app subtopics of projects give the same reply as no
   * subtopic, and so does any subtopic under the other intents.
   */
  lemma IgnoredSubtopics(profile: Profile, intent: Intent, subtopic: Option<Subtopic>, ctx: Context)
    requires Complete(profile)
    requires intent == Intent.Skills ==> subtopic != Some(Frontend) && subtopic != Some(Backend)
    requires intent == Projects ==> subtopic != Some(PortfolioSite)
    ensures Compose(profile, intent, subtopic, ctx) == Compose(profile, intent, None, ctx)
  {
    if intent == Intent.Skills {
      assert SkillsReply(profile.skills, subtopic) == StackReply(profile.skills);
    } else if intent == Projects {
      assert ProjectsReply(profile.projects, subtopic) == ProjectsSummary(profile.projects);
    }
  }

  /** Only the fallback reads the conversation context. */
  lemma ContextOnlyForFallback(profile: Profile, intent: Intent, subtopic: Option<Subtopic>, c1: Context, c2: Context)
    requires Complete(profile)
    requires intent != Unknown
    ensures Compose(profile, intent, subtopic, c1) == Compose(profile, intent, subtopic, c2)
  {}

  /**
   * The fallback as the source reaches it: the context it reads has already
   * been advanced with the unknown intent, so it has a last topic ("unknown")
   * and the menu fallback can never be chosen. After the first question the
   * visitor is always told that the conversation was about "unknown".
   */
  lemma FallbackAfterAdvance(profile: Profile, ctx: Context)
    ensures
      var fallback := FallbackFor(Advance(ctx, Unknown));
      && fallback != MenuFallback
      && (fallback == Orientation <==> ctx.questionsAsked == 0)
      && (ctx.questionsAsked > 0 ==> fallback == Discussing(Unknown))
    ensures ctx.questionsAsked > 0 ==> Occurs(UnknownReply(profile, Advance(ctx, Unknown)).text, "unknown")
  {
    if ctx.questionsAsked > 0 {
      assert IntentName(Unknown) == "unknown";
    }
  }

  /** The reset reply offers the welcome message's quick replies and repeats its menu. */
  lemma ResetRepeatsWelcome(profile: Profile, subtopic: Option<Subtopic>, ctx: Context)
    requires Complete(profile)
    ensures Compose(profile, Reset, subtopic, ctx).options == WELCOME_OPTIONS
    ensures Occurs(Compose(profile, Reset, subtopic, ctx).text, MENU) && Occurs(WelcomeText(profile), MENU)
  {
    OccursHalves("Let's start fresh! I can help you explore:", MENU);
  }

  /** The projects summary names every project and offers one quick reply per project, in order. */
  lemma SummaryCoversEveryProject(profile: Profile, subtopic: Option<Subtopic>, ctx: Context)
    requires Complete(profile)
    requires subtopic != Some(PortfolioSite)
    ensures
      var r := Compose(profile, Projects, subtopic, ctx);
      && |r.options| == |profile.projects|
      && forall i :: 0 <= i < |profile.projects| ==>
           && Occurs(r.text, Heading(profile.projects[i]))
           && r.options[i] == QuickReply(profile.projects[i].name, "Tell me more about " + profile.projects[i].name)
  {}

  /** The portfolio subtopic shows the card of the project named "Portfolio Website". */
  lemma PortfolioCardNamesProject(profile: Profile, ctx: Context)
    requires Complete(profile)
    ensures
      var project := FindProject(profile.projects, "Portfolio Website").value;
      && project in profile.projects && project.name == "Portfolio Website"
      && Occurs(Compose(profile, Projects, Some(PortfolioSite), ctx).text, Heading(project))
  {}

  /** The skills replies quote the skill lists of the record. */
  lemma SkillsRepliesQuoteSkills(profile: Profile, subtopic: Option<Subtopic>, ctx: Context)
    requires Complete(profile)
    ensures
      var r := Compose(profile, Intent.Skills, subtopic, ctx);
      && (subtopic != Some(Backend) ==> Occurs(r.text, List(profile.skills.frontend)))
      && (subtopic != Some(Frontend) ==> Occurs(r.text, List(profile.skills.backend)))
      && (subtopic != Some(Frontend) && subtopic != Some(Backend) ==> Occurs(r.text, List(profile.skills.devops)))
  {}
}
