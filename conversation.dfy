/**
 * The conversation context the assistant keeps between questions
 * (`conversationContext`) and how one recognised question updates it.
 */
module Conversation {
  import opened Wrappers
  import opened Intents

  /**
   * `lastTopic` is absent until the first question and after a reset. The two
   * lists are part of the record but nothing ever adds to them.
   */
  datatype Context = Context(
    lastTopic: Option<Intent>,
    mentionedProjects: seq<string>,
    mentionedSkills: seq<string>,
    personalInfoAsked: bool,
    contactRequested: bool,
    questionsAsked: nat)

  /** The context of a fresh conversation, and the one a reset restores. */
  const INITIAL_CONTEXT: Context := Context(None, [], [], false, false, 0)

  /**
   * The copy of the context a question works on (`updatedContext`): one more
   * question asked, the recognised intent as the last topic, and the personal
   * and contact flags raised by their intents, never lowered.
   */
  function Advance(ctx: Context, intent: Intent): (r: Context)
    ensures r.questionsAsked == ctx.questionsAsked + 1 && r.lastTopic == Some(intent)
    ensures r.personalInfoAsked <==> ctx.personalInfoAsked || intent == Personal
    ensures r.contactRequested <==> ctx.contactRequested || intent == Contact
    ensures r.mentionedProjects == ctx.mentionedProjects && r.mentionedSkills == ctx.mentionedSkills
  {
    var counted := ctx.(questionsAsked := ctx.questionsAsked + 1);
    var topical := counted.(lastTopic := Some(intent));
    var personal := if intent == Personal then topical.(personalInfoAsked := true) else topical;
    if intent == Contact then personal.(contactRequested := true) else personal
  }

  /** The context the conversation is left with after a question: a reset question replaces the advanced copy by the initial context. */
  function NextContext(ctx: Context, intent: Intent): (r: Context)
    ensures r == INITIAL_CONTEXT <==> intent == Reset
    ensures Reachable(ctx) ==> Reachable(r)
  {
    if intent == Reset then INITIAL_CONTEXT else Advance(ctx, intent)
  }

  /** The context after questions recognised as `intents`, in order. */
  function Replay(ctx: Context, intents: seq<Intent>): Context
    decreases |intents|
  {
    if intents == [] then ctx else NextContext(Replay(ctx, intents[..|intents| - 1]), intents[|intents| - 1])
  }

  /** Replaying one more question applies that question's update to the replayed context. */
  lemma ReplaySnoc(ctx: Context, intents: seq<Intent>, intent: Intent)
    ensures Replay(ctx, intents + [intent]) == NextContext(Replay(ctx, intents), intent)
  {
    assert (intents + [intent])[..|intents|] == intents;
  }

  /** Where the questions since the last reset question begin: just after that reset, or at 0 when there was none. */
  function ResetPoint(intents: seq<Intent>): (n: nat)
    ensures n <= |intents| && Reset !in intents[n..]
    ensures n > 0 ==> intents[n - 1] == Reset
    decreases |intents|
  {
    if intents == [] then 0
    else if intents[|intents| - 1] == Reset then |intents|
    else
      var earlier := intents[..|intents| - 1];
      var n := ResetPoint(earlier);
      assert intents[n..] == earlier[n..] + [intents[|intents| - 1]];
      n
  }

  /** The questions since the last reset question (all of them when there was none). */
  function SinceReset(intents: seq<Intent>): seq<Intent> {
    intents[ResetPoint(intents)..]
  }

  /**
   * What the context records, in terms of the questions asked: the count and
   * the flags only cover the questions since the last reset, the last topic is
   * the latest of those, and the two lists stay empty.
   */
  lemma {:induction false} ReplayFromInitial(intents: seq<Intent>)
    ensures
      var ctx := Replay(INITIAL_CONTEXT, intents);
      var recent := SinceReset(intents);
      && ctx.questionsAsked == |recent|
      && ctx.lastTopic == (if recent == [] then None else Some(recent[|recent| - 1]))
      && (ctx.personalInfoAsked <==> Personal in recent)
      && (ctx.contactRequested <==> Contact in recent)
      && ctx.mentionedProjects == [] && ctx.mentionedSkills == []
    decreases |intents|
  {
    if intents != [] {
      var init := intents[..|intents| - 1];
      ReplayFromInitial(init);
      if intents[|intents| - 1] != Reset {
        var recent := SinceReset(init);
        assert SinceReset(intents) == recent + [intents[|intents| - 1]];
      }
    }
  }

  /** A context reached from the initial one has a last topic exactly when a question has been counted. */
  predicate Reachable(ctx: Context) {
    && (ctx.lastTopic.None? <==> ctx.questionsAsked == 0)
    && ctx.mentionedProjects == [] && ctx.mentionedSkills == []
  }

  lemma ReplayReachable(intents: seq<Intent>)
    ensures Reachable(Replay(INITIAL_CONTEXT, intents))
  {
    ReplayFromInitial(intents);
  }
}
