# Portfolio chat assistant — a Dafny model

This project models the canned-reply chat assistant of a personal portfolio
site: the `ChatProvider` component. It covers these parts:

- **The intent recogniser.** A fixed, ordered table of keyword patterns per
  intent, plus per subtopic of the skills and projects intents. It finds the
  best-scoring pattern in the lower-cased question.
- **The conversation context.** It tracks the question count, the last topic
  and two flags, and it is updated once per question.
- **The reply composer.** It turns the recognised intent, the subtopic and the
  context into a markdown reply and its quick-reply buttons. It quotes the
  static portfolio record.
- **The chat session.** It holds the transcript and the context, and offers
  these operations:
  - install the welcome message;
  - `addMessage`;
  - the word-by-word streaming of a reply;
  - `handleUserInput`;
  - `resetChat`.

Modules, one per file:

- `Wrappers` (`wrappers.dfy`): the `Option` type.
- `Text` (`text.dfy`): ASCII lower-casing, `includes` (`Contains`), splitting on a character and joining with a separator.
- `Portfolio` (`portfolio.dfy`): the portfolio record and `projects.find`.
- `Intents` (`intents.dfy`): the intent table and the scoring loop. It has two forms:
  - a specification, `Visit`/`Run`: a fold over the flattened table;
  - the loops of the source, as methods proved equal to that fold.
- `Conversation` (`conversation.dfy`): the context record, its per-question update, and its replay over a history of questions.
- `Composer` (`composer.dfy`): the replies.
- `Chat` (`chat.dfy`): the session, a class whose methods update the transcript and the context in place.
- `Scenarios` (`scenarios.dfy`): the recogniser and the session evaluated on concrete questions: "go back", the "Go back to the beginning" button of the chat page, and the "Tell me about your frontend skills" quick reply.

The scores in the source are `|p| / |q| * 2` for a top-level pattern and
`|p| / |q| * 2.5` for a subtopic pattern. For one query `|q|` is fixed, so
multiplying by `2|q|` keeps every comparison. The model therefore scores
`4|p|` and `5|p|` in integers.

Quirks of the code the model keeps:

- **Stale subtopic.** A top-level pattern that takes over does not clear a subtopic recorded earlier. `Scenarios.GoBackKeepsBackendSubtopic` shows "go back" reported as reset with subtopic backend, and `Scenarios.NewChatKeepsBackendSubtopic` shows the same for the chat page's "Go back to the beginning" button (the backend subtopic's keyword "back" matches the "back" of "go back" first).
- **Only one project has a card.** Only the `portfolio` subtopic gets a project card. The dashboard and task-app subtopics get the summary (`Composer.IgnoredSubtopics`).
- **Reset text.** The reset reply is not the welcome text. It repeats the welcome's menu and quick replies (`Composer.ResetRepeatsWelcome`).
- **Unknown fallback.** The unknown-intent fallback reads a context whose last topic has just been set to "unknown". So after the first question it always says the conversation was about "unknown", and the menu fallback is unreachable (`Composer.FallbackAfterAdvance`).
- **Frontend keywords can lose.** A question holding only frontend keywords is not always classified as the frontend subtopic: a longer top-level pattern such as "tell me about" (score 52) beats "react" (score 25). The skills reply's own "Frontend Details" quick reply, "Tell me about your frontend skills", is classified as personal with subtopic frontend (`Scenarios.FrontendDetailsIsPersonal`), so it gets the introduction, not the frontend reply.

## Model

| member | source | states |
|---|---|---|
| Text.LowerChar | src/components/chat-provider.tsx:226 | upper-case ASCII letters map to their lower-case letter, every other character is unchanged |
| Text.Lower | src/components/chat-provider.tsx:226 | same length; each character is the lower-cased input character |
| Text.LowerIsLower | src/components/chat-provider.tsx:226 | the lower-cased query has no upper-case letter, and lower-casing is idempotent |
| Text.Contains | src/components/chat-provider.tsx:267 | a pattern longer than the query is never included; the empty pattern always is |
| Text.MissingChar | src/components/chat-provider.tsx:267 | a pattern holding a character that the query lacks is not included |
| Text.ContainsIff | src/components/chat-provider.tsx:267 | `includes` holds exactly when the pattern occurs at some position of the query |
| Text.OccursAtIff | src/components/chat-provider.tsx:267 | the character-by-character match at a position equals slice equality |
| Text.OccursFromIff | src/components/chat-provider.tsx:267 | the scan from position `i` succeeds exactly when the pattern occurs at some position at or after `i` |
| Text.ContainsBounds | src/components/chat-provider.tsx:267 | an included pattern is no longer than the query; the empty query includes only the empty pattern |
| Text.OccursMiddle | src/components/chat-provider.tsx:267 | a string includes every infix of itself |
| Text.OccursHalves | src/components/chat-provider.tsx:306 | a concatenation includes both of its parts, which is how each reply template quotes its fields |
| Text.OccursTrans | src/components/chat-provider.tsx:306 | occurrence is transitive |
| Text.Split | src/components/chat-provider.tsx:186 | `split(' ')` yields at least one piece, and no piece contains the separator |
| Text.Join | src/components/chat-provider.tsx:306 | the joined string is as long as the pieces together plus one separator between each two neighbours |
| Text.JoinOccursPiece | src/components/chat-provider.tsx:306 | every item occurs in its `join` |
| Text.JoinSnoc | src/components/chat-provider.tsx:200 | joining one more piece appends the separator and the piece |
| Text.JoinPrefixStep | src/components/chat-provider.tsx:200 | the streamed text after word `i` is the text before it, a space unless `i` is 0, then the word |
| Text.JoinSplit | src/components/chat-provider.tsx:186 | re-joining the words of `content` with single spaces gives back `content` |
| Text.SplitJoin | src/components/chat-provider.tsx:186 | splitting a join of separator-free pieces gives back the pieces |
| Text.SplitPiece | src/components/chat-provider.tsx:186 | splitting a separator-free word followed by a rest extends the rest's first piece |
| Portfolio.FindProject | src/components/chat-provider.tsx:335 | `find` returns None exactly when no project has the name; otherwise the first project with that name |
| Portfolio.PortfolioWebsiteFound | src/components/chat-provider.tsx:95-103 | the record's first project is the "Portfolio Website" one, so the non-null assertion of the lookup holds |
| Intents.IntentName | src/components/chat-provider.tsx:231-256 | every intent key is a non-empty word |
| Intents.StepTakeover | src/components/chat-provider.tsx:267-285 | one candidate changes the state exactly when its score beats the best so far; it then records its score and its intent; a top-level candidate never touches the subtopic |
| Intents.Detect | src/components/chat-provider.tsx:231-290 | an unknown verdict has no subtopic; any other verdict is the intent of a table entry whose pattern the query includes |
| Intents.VisitAppend | src/components/chat-provider.tsx:264-290 | scanning two candidate lists in turn is scanning their concatenation |
| Intents.MaxScore | src/components/chat-provider.tsx:264-290 | it bounds every candidate's score and is reached by one of them, or is 0 |
| Intents.RunBest | src/components/chat-provider.tsx:260-290 | the loop ends with the highest score; with no match the state is untouched (unknown, no subtopic); otherwise the intent is that of a candidate reaching the best score |
| Intents.FirstMaximumWins | src/components/chat-provider.tsx:269-284 | strict `>` makes the first candidate with the highest score decide the intent |
| Intents.SubtopicOfLastSubtopicTakeover | src/components/chat-provider.tsx:276-289 | the reported subtopic is that of the last subtopic candidate that took over, even if a top-level candidate took over after it |
| Intents.NoSubtopicTakeover | src/components/chat-provider.tsx:261 | if no subtopic candidate ever took over, the subtopic stays empty |
| Intents.UnknownIffNoMatch | src/components/chat-provider.tsx:260-290 | the loop reports `unknown` exactly when no pattern occurs, and then the subtopic is empty |
| Intents.DetectUnknownIffNoMatch | src/components/chat-provider.tsx:231-290 | the recogniser answers (unknown, no subtopic) exactly when no pattern of the table occurs; the empty question is one such |
| Intents.Outscored | src/components/chat-provider.tsx:269 | candidates that do not beat the best score leave the state alone |
| Intents.OutscoredPatterns | src/components/chat-provider.tsx:266-273 | a pattern list whose matches do not beat the best score leaves the state alone |
| Intents.VisitRule | src/components/chat-provider.tsx:264-290 | one intent is scanned as its own patterns, then each subtopic in order |
| Intents.DetectByRules | src/components/chat-provider.tsx:231-290 | the recogniser scans skills, projects, contact, personal, reset in that order |
| Intents.Classify | src/components/chat-provider.tsx:259-290 | the source's loops over the intent table compute exactly the recogniser's verdict |
| Intents.ClassifyWith | src/components/chat-provider.tsx:264-290 | the outer loop over any table computes the fold over its flattened candidates |
| Intents.FlattenSnoc | src/components/chat-provider.tsx:264-290 | a table's candidates grow by one intent's own patterns, then its subtopics' patterns |
| Intents.VisitSubtopics | src/components/chat-provider.tsx:276-289 | the loop over one intent's subtopics computes the fold over their candidates |
| Intents.VisitPatterns | src/components/chat-provider.tsx:265-273 | the loop over one pattern list computes the fold over its candidates; a subtopic pattern also records its subtopic |
| Conversation.Advance | src/components/chat-provider.tsx:227-295 | the copied context counts one more question and records the intent as last topic; the personal and contact flags are raised by their intents and never lowered; the lists are unchanged |
| Conversation.NextContext | src/components/chat-provider.tsx:392-399 | the context after a question is the initial one exactly when the intent is reset; reachability is preserved |
| Conversation.ReplaySnoc | src/components/chat-provider.tsx:297 | each question applies its update to the context left by the previous ones |
| Conversation.ResetPoint | src/components/chat-provider.tsx:392-399 | the questions after the returned position contain no reset, and the question just before it is a reset |
| Conversation.ReplayFromInitial | src/components/chat-provider.tsx:227-297 | after a history of questions: the count is the number since the last reset; the last topic is the latest of them (absent if none); each flag is set exactly when its intent is among them; the lists stay empty |
| Conversation.ReplayReachable | src/components/chat-provider.tsx:64-77 | every reachable context has a last topic exactly when its count is positive, and empty lists |
| Composer.WelcomeText | src/components/chat-provider.tsx:139-145 | the greeting contains the owner's name and ends with the menu |
| Composer.ListQuotesItems | src/components/chat-provider.tsx:306 | every item occurs in its comma-separated list |
| Composer.FrontendReply | src/components/chat-provider.tsx:305-310 | the reply quotes the frontend list |
| Composer.BackendReply | src/components/chat-provider.tsx:311-316 | the reply quotes the backend list |
| Composer.StackReply | src/components/chat-provider.tsx:317-330 | the reply quotes all three skill lists |
| Composer.ProjectDetail | src/components/chat-provider.tsx:336-347 | the card quotes every field it interpolates: the name as a heading, the description, the tech-stack list, the key achievement, the live URL and the code URL |
| Composer.ProjectBlock | src/components/chat-provider.tsx:351-355 | each summary block quotes its project's name as a heading, its description and its tech-stack list |
| Composer.ProjectOptions | src/components/chat-provider.tsx:356-360 | one quick reply per project, in order, labelled with the name and asking "Tell me more about" the name |
| Composer.ProjectsSummary | src/components/chat-provider.tsx:349-361 | the summary names every project, with the per-project quick replies |
| Composer.ContactReply | src/components/chat-provider.tsx:365-376 | the contact card quotes the email address, the LinkedIn, GitHub and website links |
| Composer.PersonalReply | src/components/chat-provider.tsx:380-389 | the introduction quotes the name, the role, the location, the biography and the list of interests |
| Composer.FallbackFor | src/components/chat-provider.tsx:416-422 | orientation exactly on the first question; otherwise the last topic when there is one; otherwise the menu |
| Composer.DiscussingText | src/components/chat-provider.tsx:419 | the fallback names the last topic |
| Composer.FallbackText | src/components/chat-provider.tsx:416-422 | the orientation text names the owner's role; the topic fallback names the topic |
| Composer.UnknownReply | src/components/chat-provider.tsx:415-428 | the fallback's quick replies are fixed; on the first question the text names the owner's role; later, when there is a last topic, it names that topic |
| Composer.SkillsReply | src/components/chat-provider.tsx:304-331 | the skills reply always offers quick replies |
| Composer.ProjectsReply | src/components/chat-provider.tsx:333-362 | the projects reply always offers quick replies, given that the portfolio project exists |
| Composer.Compose | src/components/chat-provider.tsx:302-429 | every reply offers at least one quick reply |
| Composer.IgnoredSubtopics | src/components/chat-provider.tsx:305-361 | the devops, dashboard and task-app subtopics, and any subtopic of the other intents, give the same reply as no subtopic |
| Composer.ContextOnlyForFallback | src/components/chat-provider.tsx:302-429 | only the unknown-intent reply depends on the context |
| Composer.FallbackAfterAdvance | src/components/chat-provider.tsx:416-422 | after the context update the menu fallback is never chosen; orientation iff it is the first question; otherwise the text names "unknown" |
| Composer.ResetRepeatsWelcome | src/components/chat-provider.tsx:401-412 | the reset reply repeats the welcome's menu and quick replies |
| Composer.SummaryCoversEveryProject | src/components/chat-provider.tsx:349-360 | without the portfolio subtopic, the projects reply names every project and has exactly one quick reply per project |
| Composer.PortfolioCardNamesProject | src/components/chat-provider.tsx:334-336 | the portfolio subtopic shows the card of the project found under "Portfolio Website" |
| Composer.SkillsRepliesQuoteSkills | src/components/chat-provider.tsx:305-324 | each skills reply quotes the skill lists it is about |
| Chat.WelcomeMessage | src/components/chat-provider.tsx:136-164 | the opening message has the id "welcome", the assistant role and the three welcome quick replies; its text contains the owner's name and ends with the menu |
| Chat.StreamFrame | src/components/chat-provider.tsx:203-210 | each streamed frame keeps the message's id and the assistant role, and carries the quick replies only on the last step |
| Chat.ShowStep | src/components/chat-provider.tsx:203-213 | the length and every message but the last are kept; when the last message is the streamed one, it keeps its id and role, shows the text so far with a cursor unless last, and gets the quick replies only on the last step; otherwise the transcript is unchanged |
| Chat.ShowStepFrame | src/components/chat-provider.tsx:199-213 | each streaming step turns the shown message into that step's frame |
| Chat.LastFrame | src/components/chat-provider.tsx:186-209 | the last frame shows exactly `content` with the quick replies and no cursor |
| Chat.Respond | src/components/chat-provider.tsx:226-429 | the context after a question is its update by the recognised intent of the lower-cased input; the reply offers quick replies |
| Chat.AppendFresh | src/components/chat-provider.tsx:169-177 | appending under a new id keeps ids unique |
| Chat.ChatSession.constructor | src/components/chat-provider.tsx:61-77 | an empty transcript and the initial context |
| Chat.ChatSession.InstallWelcome | src/components/chat-provider.tsx:134-167 | the welcome message is installed exactly when the transcript is empty |
| Chat.ChatSession.AddMessage | src/components/chat-provider.tsx:169-177 | the message is appended under a fresh id; earlier messages and the context are unchanged |
| Chat.ChatSession.StreamResponse | src/components/chat-provider.tsx:180-221 | exactly one assistant message is appended under a fresh id, and when streaming ends it holds exactly `content` and the quick replies; the context is unchanged |
| Chat.ChatSession.ShowFrame | src/components/chat-provider.tsx:200-213 | after step `k` the transcript is the earlier messages followed by the frame of step `k`: words 0..k joined by spaces, a cursor unless `k` is the last step, and the quick replies only on the last step |
| Chat.ChatSession.ShowWords | src/components/chat-provider.tsx:199-216 | after the loop the earlier messages are unchanged and the streamed message is the last step's frame |
| Chat.ChatSession.GenerateResponse | src/components/chat-provider.tsx:223-433 | the context becomes the update by the recognised intent; the streamed message is the composed reply with its quick replies; the session invariant (unique ids, context equal to the replay of the questions) holds |
| Chat.ChatSession.HandleUserInput | src/components/chat-provider.tsx:435-444 | the visitor's message and then the reply are appended; earlier messages are unchanged |
| Chat.ChatSession.ResetChat | src/components/chat-provider.tsx:453-459 | the context returns to the initial one; the transcript is kept |
| Scenarios.PatternsSplit | src/components/chat-provider.tsx:266 | a pattern list is scanned as a prefix, then the rest |
| Scenarios.SinglePattern | src/components/chat-provider.tsx:266-273 | a one-pattern list is one loop step |
| Scenarios.GoBackThroughSkills | src/components/chat-provider.tsx:232-239 | on "go back" the skills entry ends with score 20, skills, subtopic backend (from "back") |
| Scenarios.GoBackThroughProjects | src/components/chat-provider.tsx:240-247 | on "go back" the projects entry changes nothing |
| Scenarios.GoBackThroughReset | src/components/chat-provider.tsx:254-256 | on "go back" the reset pattern "go back" (28) takes over but the backend subtopic stays |
| Scenarios.GoBackKeepsBackendSubtopic | src/components/chat-provider.tsx:259-290 | "go back" is recognised as reset with the stale subtopic backend |
| Scenarios.NewChatButtonLowered | src/components/chat-layout.tsx:51 | the chat page's "Go back to the beginning" button sends a text that lower-cases to "go back to the beginning" |
| Scenarios.NewChatThroughSkills | src/components/chat-provider.tsx:232-239 | on a query over the button's letters that includes "back", the skills entry ends with score 20, skills, subtopic backend |
| Scenarios.NewChatThroughProjects | src/components/chat-provider.tsx:240-247 | on such a query the projects entry changes nothing |
| Scenarios.NewChatThroughReset | src/components/chat-provider.tsx:254-256 | on such a query that includes "beginning", the reset pattern "beginning" (36) takes over but the backend subtopic stays |
| Scenarios.NewChatKeepsBackendSubtopic | src/components/chat-provider.tsx:259-290 | the button's query is recognised as reset with the stale subtopic backend |
| Scenarios.NewChatRestarts | src/components/chat-provider.tsx:392-412 | pressing the button in any context restarts the conversation: the initial context and the reset reply with the welcome quick replies |
| Scenarios.DetailsThroughSkills | src/components/chat-provider.tsx:232-239 | on a query over the quick reply's letters that includes "skills", "front" and "frontend" but not "abilities", the skills entry ends with score 40, skills, subtopic frontend |
| Scenarios.DetailsPersonal | src/components/chat-provider.tsx:251-253 | on such a query that includes "tell me about", that pattern (52) takes over as personal and the frontend subtopic stays |
| Scenarios.FrontendDetailsIsPersonal | src/components/chat-provider.tsx:326 | the skills reply's "Tell me about your frontend skills" quick reply is recognised as personal with subtopic frontend, not as the frontend skills subtopic |

The other `Scenarios.GoBack…`, `Scenarios.NewChat…` and `Scenarios.Details…`
lemmas each fix the state after one pattern list of the table on their
query. They are steps of the lemmas above. `Scenarios.LettersRuleOut`,
`Scenarios.TakeoverAt` and `Scenarios.PairAbsent` are the rules these steps
use: a pattern holding a letter the query lacks cannot match, a single
pattern that beats the best takes over, and a pattern with a pair of
neighbouring letters the query never has cannot match.

## Left out

- The React machinery is not modelled:
  - `useState`;
  - the batching of `setMessages` updaters;
  - `useCallback` closures, including the possibility that a stale `conversationContext` is captured;
  - the `isTyping` and `streamingId` flags;
  - the re-render that triggers the welcome effect.
- The session's fields are updated in sequence, as the updaters would apply them.
- The random delays between streamed words and `async`/`await` are left out. The model streams all words in one method call.
- Timestamps and `console.log` are left out.
- Random message ids are not modelled: `Chat.MessageId` draws ids from a counter, so the model assumes ids never collide.
- Text.Lower: only ASCII letters are lower-cased, while JavaScript's `toLowerCase` handles all of Unicode. Strings are sequences of characters, not UTF-16 code units.
- Intents.Classify: the integer scores match the source's floating-point comparisons exactly over the reals. A tie between a top-level pattern `p` and a subtopic pattern `p'` (`4|p| == 5|p'|`) is broken by floating-point rounding in the source, and the model treats it as an exact tie, so the two can differ on real questions. On "reset the node" (14 characters) the backend pattern "node" scores `4/14*2.5 = 0.7142857142857142` and the later "reset" scores `5/14*2 = 0.7142857142857143`: the source takes reset and clears the context, while the model keeps skills with subtopic backend.
- The icons of the quick replies are not modelled, and neither is the markdown rendering of replies.
- Chat.ChatSession.ShowWords: its `ensures` states only the transcript after the loop. The transcript after each intermediate step is stated by `Chat.ChatSession.ShowFrame`, which the loop calls once per word; the ghost `frames` result of `ShowWords` and `StreamResponse` lists those frames but is not tied to the transcript by their own contracts.
- Chat.ShowStep: the source mutates the last message object in place, and that object is shared with the previous transcript array. The model replaces the message by a value, so it does not capture this aliasing.
- The two lists of the context (`mentionedProjects`, `mentionedSkills`) are modelled, but the source never adds to them.
- The replies take the portfolio record as a parameter. `Composer.Complete` states the one thing they need of it: a project named "Portfolio Website" exists. This is what the source's non-null assertion `!` assumes. `Portfolio.PortfolioWebsiteFound` shows that the record in the source satisfies it.
- The remote-completion API route is not part of this model. The chat page and the other UI components are not part of it either.
