/** The voice assistant's conversation (class VoiceAssistant): an append-only list of
    turns, the prompt built from its last six turns, and the condensed answer used for
    speech. The remote model is not modelled: the outcome of each of its calls is an
    input (a Completion), and json.dumps of the grounding record is a parameter. */
module Conversation {
  import opened Common
  import opened Strings
  import opened Extraction

  datatype Role = User | Assistant | System

  /** One `{"role": ..., "content": ...}` entry. */
  datatype Turn = Turn(role: Role, content: string)

  /** The `{"full": ..., "concise": ...}` pair process_query returns. */
  datatype QueryResponse = QueryResponse(full: string, concise: string)

  const BrevityInstruction: string :=
    "Please provide brief and concise responses suitable for voice output. Limit to 2-3 short sentences when possible."
  const BrevityReminder: string :=
    "Remember to keep your response brief and concise for voice output. Focus only on the most important information."
  const Apology: string := "Sorry, I encountered an error while processing your query."

  /** How many of the latest turns are sent upstream. */
  const WindowSize: nat := 6
  /** The word ceiling of a spoken summary. */
  const MaxSummaryWords: nat := 30

  /** The grounding message built from json.dumps(context, indent=2). */
  function ContextInstruction(rendered: string, query: string): string {
    "Based on the analysis results: " + rendered + ", please provide a concise response to: " + query
  }

  /** `if context:` — a record is present and not empty. */
  predicate HasContext(context: Option<Json>) {
    context.Some? && Truthy(context.value)
  }

  // ---------------------------------------------------------------------------
  // The prompt

  /** `history[-6:] if len(history) > 6 else history`: the last min(6, |history|)
      turns, in their original order. */
  function RecentWindow(history: seq<Turn>): (w: seq<Turn>)
    ensures |w| == Min(WindowSize, |history|)
    ensures w == history[|history| - |w|..]
  {
    if |history| > WindowSize then history[|history| - WindowSize..] else history
  }

  /** The window after one more turn depends only on the window before it, so older
      turns can never reach the prompt again. */
  lemma WindowSlides(history: seq<Turn>, t: Turn)
    ensures RecentWindow(history + [t]) == RecentWindow(RecentWindow(history) + [t])
  {
    var w := RecentWindow(history);
    var h' := history + [t];
    if |history| >= WindowSize {
      assert h'[|h'| - WindowSize..] == (w + [t])[|w| + 1 - WindowSize..];
    }
  }

  /** The message list sent with a query, history already holding the query. */
  function Prompt(history: seq<Turn>, query: string, context: Option<Json>, dumps: Json -> string): seq<Turn> {
    var grounding := if HasContext(context) then [Turn(System, ContextInstruction(dumps(context.value), query))] else [];
    [Turn(System, BrevityInstruction)] + RecentWindow(history) + grounding + [Turn(System, BrevityReminder)]
  }

  /** The order of the messages: one brevity instruction, the window, the grounding
      message exactly when there is a context, and the closing reminder. */
  lemma PromptShape(history: seq<Turn>, query: string, context: Option<Json>, dumps: Json -> string)
    ensures var m, w := Prompt(history, query, context, dumps), RecentWindow(history);
      && |m| == |w| + (if HasContext(context) then 3 else 2)
      && m[0] == Turn(System, BrevityInstruction)
      && m[1..|w| + 1] == w
      && (HasContext(context) ==> m[|w| + 1] == Turn(System, ContextInstruction(dumps(context.value), query)))
      && m[|m| - 1] == Turn(System, BrevityReminder)
  {
  }

  /** Because the query is appended before the prompt is built, it is always the last
      turn of the window. */
  lemma QueryClosesWindow(history: seq<Turn>, query: string, context: Option<Json>, dumps: Json -> string)
    ensures var w := RecentWindow(history + [Turn(User, query)]);
      |w| >= 1 && w[|w| - 1] == Turn(User, query)
      && Prompt(history + [Turn(User, query)], query, context, dumps)[|w|] == Turn(User, query)
  {
  }

  /** The loop of process_query that copies the window into the message list. */
  method BuildMessages(history: seq<Turn>, query: string, context: Option<Json>, dumps: Json -> string)
    returns (messages: seq<Turn>)
    ensures messages == Prompt(history, query, context, dumps)
  {
    messages := [Turn(System, BrevityInstruction)];
    var recent := if |history| > WindowSize then history[|history| - WindowSize..] else history;
    for i := 0 to |recent|
      invariant messages == [Turn(System, BrevityInstruction)] + recent[..i]
    {
      messages := messages + [Turn(recent[i].role, recent[i].content)];
    }
    assert recent[..|recent|] == recent;
    if HasContext(context) {
      messages := messages + [Turn(System, ContextInstruction(dumps(context.value), query))];
    }
    messages := messages + [Turn(System, BrevityReminder)];
  }

  // ---------------------------------------------------------------------------
  // The condensed answer (generate_concise_response)

  /** A summary of more than 30 words is cut to its first 30, joined by single spaces,
      with "..." appended; a shorter one is returned unchanged. */
  function TruncateSummary(summary: string): string {
    var words := Words(summary);
    if |words| > MaxSummaryWords then JoinWith(" ", words[..MaxSummaryWords]) + "..." else summary
  }

  /** A truncated summary has exactly 30 words, the last carrying the ellipsis; no
      result has more than 30. */
  lemma TruncateSummaryWords(summary: string)
    ensures |Words(TruncateSummary(summary))| <= MaxSummaryWords
    ensures |Words(summary)| <= MaxSummaryWords ==> TruncateSummary(summary) == summary
    ensures var ws := Words(summary);
      |ws| > MaxSummaryWords ==>
        Words(TruncateSummary(summary)) == ws[..MaxSummaryWords - 1] + [ws[MaxSummaryWords - 1] + "..."]
  {
    var ws := Words(summary);
    if |ws| > MaxSummaryWords {
      var kept := ws[..MaxSummaryWords];
      var marked := kept[..MaxSummaryWords - 1] + [kept[MaxSummaryWords - 1] + "..."];
      JoinAppendToLast(" ", kept, "...");
      assert IsWord(kept[MaxSummaryWords - 1] + "...") by {
        var w := kept[MaxSummaryWords - 1] + "...";
        assert forall k :: |kept[MaxSummaryWords - 1]| <= k < |w| ==> w[k] == '.';
      }
      assert forall i :: 0 <= i < |marked| ==> IsWord(marked[i]);
      WordsOfJoin(marked);
      assert marked == ws[..MaxSummaryWords - 1] + [ws[MaxSummaryWords - 1] + "..."];
    }
  }

  /** The fallback when the summary call fails: the first (at most) two pieces of
      `full.split('.')`, joined by ". ", with a final ".". */
  function FallbackSummary(full: string): string {
    var sentences := SplitOn(full, ".");
    JoinWith(". ", sentences[..Min(2, |sentences|)]) + "."
  }

  /** An answer without a period comes back whole, with a period added. */
  lemma FallbackWithoutPeriod(full: string)
    requires '.' !in full
    ensures FallbackSummary(full) == full + "."
  {
    FindWithoutFirstChar(full, ".");
  }

  /** With i the first period and j the second one (or the end of the text), the
      fallback is the text before i, ". ", the text between i and j, and ".". */
  lemma FallbackFirstTwoSentences(full: string, i: nat, j: nat)
    requires i < j <= |full|
    requires full[i] == '.' && '.' !in full[..i]
    requires '.' !in full[i + 1..j]
    requires j == |full| || full[j] == '.'
    ensures FallbackSummary(full) == full[..i] + ". " + full[i + 1..j] + "."
  {
    var rest := full[i + 1..];
    assert full == full[..i] + "." + rest;
    SplitOnAfterPrefix(full[..i], ".", rest);
    var second := full[i + 1..j];
    if j == |full| {
      assert rest == second;
      FindWithoutFirstChar(rest, ".");
    } else {
      var k := j - i - 1;
      assert rest == rest[..k] + "." + rest[k + 1..];
      assert rest[..k] == second;
      SplitOnAfterPrefix(rest[..k], ".", rest[k + 1..]);
    }
    var sentences := SplitOn(full, ".");
    assert SplitOn(rest, ".")[0] == second;
    assert sentences == [full[..i]] + SplitOn(rest, ".");
    assert sentences[..Min(2, |sentences|)] == [full[..i], second];
    assert [full[..i], second][1..] == [second];
    assert JoinWith(". ", [full[..i], second]) == full[..i] + ". " + second;
  }

  /** generate_concise_response: the truncated summary when the summary call
      succeeds, the two-sentence fallback when it fails. The query and context it
      also receives play no part in the result. */
  function ConciseResponse(full: string, summary: Completion): (r: string)
    ensures summary.Replied? ==> |Words(r)| <= MaxSummaryWords
    ensures summary.Replied? && |Words(summary.text)| <= MaxSummaryWords ==> r == summary.text
    ensures summary.Failed? && '.' !in full ==> r == full + "."
    ensures summary.Replied? ==> r == TruncateSummary(summary.text)
    ensures summary.Failed? ==> r == FallbackSummary(full)
  {
    match summary
    case Replied(text) =>
      TruncateSummaryWords(text);
      TruncateSummary(text)
    case Failed =>
      if '.' !in full then FallbackWithoutPeriod(full); FallbackSummary(full)
      else FallbackSummary(full)
  }

  // ---------------------------------------------------------------------------
  // The session

  class VoiceAssistant {
    /** conversation_history, in append order. */
    var history: seq<Turn>

    constructor()
      ensures history == []
    {
      history := [];
    }

    /** process_query: the query is stored as a user turn before the model is called;
        the prompt is built from the history that already holds it. On a reply the
        full text is stored as one assistant turn and condensed; on a failure the
        apology is both answers and no assistant turn is stored. */
    method ProcessQuery(query: string, context: Option<Json>, dumps: Json -> string, reply: Completion, summary: Completion)
      returns (response: QueryResponse, messages: seq<Turn>)
      modifies this
      ensures messages == Prompt(old(history) + [Turn(User, query)], query, context, dumps)
      ensures reply.Replied? ==> history == old(history) + [Turn(User, query), Turn(Assistant, reply.text)]
      ensures reply.Replied? ==> response == QueryResponse(reply.text, ConciseResponse(reply.text, summary))
      ensures reply.Failed? ==> history == old(history) + [Turn(User, query)]
      ensures reply.Failed? ==> response.full == Apology && response.concise == Apology
    {
      history := history + [Turn(User, query)];
      messages := BuildMessages(history, query, context, dumps);
      match reply
      case Failed =>
        response := QueryResponse(Apology, Apology);
      case Replied(text) =>
        history := history + [Turn(Assistant, text)];
        response := QueryResponse(text, ConciseResponse(text, summary));
    }

    /** save_conversation: nothing to save for an empty history; otherwise the whole
        history is the snapshot handed to the writer. */
    method SaveConversation() returns (snapshot: Option<seq<Turn>>)
      ensures snapshot.None? <==> history == []
      ensures snapshot.Some? ==> snapshot.value == history
    {
      if history == [] {
        return None;
      }
      snapshot := Some(history);
    }

    /** The reset button: the history is replaced by an empty list. */
    method Reset()
      modifies this
      ensures history == []
    {
      history := [];
    }
  }
}
