/**
  The one-tool chatbot: the encyclopedia search is triggered by the word
  "wikipedia" in the model's answer rather than in the user's query. The
  branch passes a string where `str.split` wants its maximum split count, so
  taking it always ends in the error answer.
*/
module SingleAgent {
  import opened PyStrings
  import opened Conversation
  import opened Wrappers
  import Encyclopedia

  const SystemPrompt := "You are a helpful assistant that can use tools to answer user queries.\n"
    + "        you have access to the following tools:\n"
    + "        1. search_wikipedia: useful for when you need to look up information on wikipedia\n"
    + "        when user asks to use these tools, you can call them. Keep responses concise and friendly."

  // ================================================================ encyclopedia tool

  /** This bot's `search_wikipedia` is `Encyclopedia.SearchWikipedia` with this lower-case prefix. */
  const WikiErrorPrefix := "Error searching wikipedia: "

  // ================================================================ one turn

  const ErrorPrefix := "Error processing query: "
  /** What CPython says when `str.split` is given a string as its maximum split count. */
  const SplitTypeError := "'str' object cannot be interpreted as an integer"

  /** The answer to one query given the history before it, the model being `llm`. */
  function Answer(h: seq<Turn>, query: string, llm: string -> Completion): string {
    var c := llm(Prompt(SystemPrompt, h, query));
    if c.Failure? then ErrorPrefix + c.message
    else
      var base := BaseAnswer(c);
      if Contains(Lower(base), "wikipedia") then ErrorPrefix + SplitTypeError else base
  }

  /** `process_query`. */
  method ProcessQuery(h: seq<Turn>, query: string, llm: string -> Completion) returns (answer: string)
    ensures answer == Answer(h, query, llm)
  {
    var fullPrompt := BuildPrompt(SystemPrompt, h, query);
    var response := llm(fullPrompt);
    if response.Failure? {
      return ErrorPrefix + response.message;
    }
    answer := if response.Text? && response.text != "" then response.text else Fallback;
    if Contains(Lower(answer), "wikipedia") {
      // query.split("wikipedia", "") raises before the search runs
      return ErrorPrefix + SplitTypeError;
    }
  }

  /** A failing completion call becomes the error text. */
  lemma AnswerOnFailure(h: seq<Turn>, query: string, llm: string -> Completion)
    requires llm(Prompt(SystemPrompt, h, query)).Failure?
    ensures Answer(h, query, llm) == ErrorPrefix + llm(Prompt(SystemPrompt, h, query)).message
  {
  }

  /**
    The trigger is the model's text: when it mentions "wikipedia" in any case
    the turn ends in the split error, otherwise the text is returned unchanged.
  */
  lemma AnswerRoutesOnModelText(h: seq<Turn>, query: string, llm: string -> Completion, text: string)
    requires llm(Prompt(SystemPrompt, h, query)) == Text(text) && text != ""
    ensures Contains(Lower(text), "wikipedia") ==> Answer(h, query, llm) == ErrorPrefix + SplitTypeError
    ensures !Contains(Lower(text), "wikipedia") ==> Answer(h, query, llm) == text
  {
  }

  /** No completion text, or an empty one, gives the fallback text, which never triggers the search. */
  lemma EmptyCompletionGivesFallback(h: seq<Turn>, query: string, llm: string -> Completion)
    requires llm(Prompt(SystemPrompt, h, query)) == Empty || llm(Prompt(SystemPrompt, h, query)) == Text("")
    ensures Answer(h, query, llm) == Fallback
  {
    if Contains(Lower(Fallback), "wikipedia") {
      ContainsHasFirst(Lower(Fallback), "wikipedia");
      assert false;
    }
  }

  /**
    The query reaches the answer only through the prompt: two queries whose
    prompts draw the same completion get the same answer, whether or not
    either of them says "wikipedia".
  */
  lemma QueryIsNotTheTrigger(h: seq<Turn>, q1: string, q2: string, llm: string -> Completion)
    requires llm(Prompt(SystemPrompt, h, q1)) == llm(Prompt(SystemPrompt, h, q2))
    ensures Answer(h, q1, llm) == Answer(h, q2, llm)
  {
  }

  // ================================================================ the bot object

  /** `ConversationalBot` of this variant: the stored history and the rows shown so far. */
  class Bot {
    var history: seq<Turn>
    /** The displayed rows, one per message, as (speaker, text). */
    var panels: seq<Turn>
    /** Every entry ever stored, oldest first. */
    ghost var log: seq<Turn>

    ghost predicate Valid()
      reads this
    {
      history == Window(log)
    }

    constructor ()
      ensures Valid()
      ensures history == [] && panels == [] && log == []
    {
      history := [];
      panels := [];
      log := [];
    }

    /**
      `interact`: nothing for an empty query; otherwise answer it (an error
      answer included), store the user and assistant entries, keep the newest
      ten, and show the rows.
    */
    method Interact(query: string, llm: string -> Completion) returns (view: Option<seq<Turn>>)
      requires Valid()
      modifies this
      ensures Valid()
      ensures |history| <= MaxHistory
      ensures query == "" ==> view == None && history == old(history) && panels == old(panels) && log == old(log)
      ensures query != "" ==>
        var turns := Exchange(query, Answer(old(history), query, llm));
        && log == old(log) + turns
        && history == Window(old(history) + turns)
        && panels == old(panels) + turns
        && view == Some(panels)
    {
      if query == "" {
        return None;
      }
      var answer := ProcessQuery(history, query, llm);
      Store(query, answer);
      view := Some(panels);
    }

    /** The storing half of `interact`: append both entries, keep the newest ten, add the two rows. */
    method Store(query: string, answer: string)
      requires Valid()
      modifies this
      ensures Valid()
      ensures log == old(log) + Exchange(query, answer)
      ensures history == Window(old(history) + Exchange(query, answer))
      ensures panels == old(panels) + Exchange(query, answer)
    {
      var before := history;
      history := history + [Turn(User, query)];
      history := history + [Turn(Assistant, answer)];
      assert history == before + Exchange(query, answer);
      if |history| > MaxHistory {
        history := history[|history| - MaxHistory..];
      }
      log := log + Exchange(query, answer);
      WindowOfWindow(old(log), Exchange(query, answer));
      panels := panels + Exchange(query, answer);
    }
  }
}
