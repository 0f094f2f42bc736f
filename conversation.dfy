/**
  What both chatbot variants share: the role-tagged history, its ten-entry
  sliding window, the rendering of the prompt sent to the language model,
  and the outcome of one completion call.
*/
module Conversation {
  import opened PyStrings

  datatype Role = User | Assistant

  /** One `{"role": ..., "content": ...}` entry of `conversation_history`. */
  datatype Turn = Turn(role: Role, content: string)

  function RoleName(r: Role): string {
    match r
    case User => "user"
    case Assistant => "assistant"
  }

  // ---------------------------------------------------------------- history window

  /** How many entries `interact` keeps. */
  const MaxHistory := 10

  /** `h[-10:]` when `h` is longer than ten entries, `h` otherwise. */
  function Window(h: seq<Turn>): (w: seq<Turn>)
    ensures |w| == if |h| <= MaxHistory then |h| else MaxHistory
    ensures w == h[|h| - |w|..]
  {
    if |h| > MaxHistory then h[|h| - MaxHistory..] else h
  }

  /** The two entries one completed turn adds. */
  function Exchange(query: string, answer: string): seq<Turn> {
    [Turn(User, query), Turn(Assistant, answer)]
  }

  /**
    Windowing after every turn keeps the same entries as windowing once over
    the whole log: the stored history is always the newest ten entries of
    everything ever said.
  */
  lemma {:induction false} WindowOfWindow(a: seq<Turn>, b: seq<Turn>)
    ensures Window(Window(a) + b) == Window(a + b)
  {
    var wa := Window(a);
    var n := |Window(a + b)|;
    assert |Window(wa + b)| == n;
    forall k | 0 <= k < n
      ensures Window(wa + b)[k] == Window(a + b)[k]
    {
      var i := |a + b| - n + k;
      if i >= |a| {
        assert (a + b)[i] == b[i - |a|];
        assert (wa + b)[|wa + b| - n + k] == b[i - |a|];
      } else {
        assert (a + b)[i] == a[i];
        assert wa[|wa| - |a| + i] == a[i];
      }
    }
  }

  /**
    One turn's effect on the history: it ends with the user entry and then the
    assistant entry, and what precedes them are the newest entries of the old
    history, the oldest ones dropped first.
  */
  lemma ExchangeKeepsNewest(h: seq<Turn>, query: string, answer: string)
    ensures var w := Window(h + Exchange(query, answer));
      && |w| == (if |h| + 2 <= MaxHistory then |h| + 2 else MaxHistory)
      && w[|w| - 2] == Turn(User, query)
      && w[|w| - 1] == Turn(Assistant, answer)
      && w[..|w| - 2] == h[|h| - (|w| - 2)..]
  {
  }

  // ---------------------------------------------------------------- the prompt

  const Header := "\n\nConversation:\n"

  /** `f"{msg['role']}: {msg['content']}"`. */
  function Line(t: Turn): string {
    RoleName(t.role) + ": " + t.content
  }

  /** One rendered line per history entry, in order. */
  function Lines(h: seq<Turn>): (ls: seq<string>)
    ensures |ls| == |h|
    ensures forall i :: 0 <= i < |h| ==> ls[i] == Line(h[i])
  {
    seq(|h|, i requires 0 <= i < |h| => Line(h[i]))
  }

  /** The text sent to the model: system prompt, header, history lines, then the new user line. */
  function Prompt(system: string, h: seq<Turn>, query: string): string {
    system + Header + Join("\n", Lines(h) + ["user: " + query])
  }

  /** The `messages` loop of `process_query`, followed by the join and the f-string. */
  method BuildPrompt(system: string, h: seq<Turn>, query: string) returns (prompt: string)
    ensures prompt == Prompt(system, h, query)
  {
    var messages: seq<string> := [];
    var i := 0;
    while i < |h|
      invariant 0 <= i <= |h|
      invariant |messages| == i
      invariant forall k :: 0 <= k < i ==> messages[k] == Line(h[k])
    {
      messages := messages + [RoleName(h[i].role) + ": " + h[i].content];
      i := i + 1;
    }
    assert messages == Lines(h);
    messages := messages + ["user: " + query];
    var conversationText := Join("\n", messages);
    prompt := system + Header + conversationText;
  }

  /** The query is rendered exactly as it will be stored once the turn completes. */
  lemma PromptRendersQueryAsUserTurn(system: string, h: seq<Turn>, query: string)
    ensures Prompt(system, h, query) == system + Header + Join("\n", Lines(h + [Turn(User, query)]))
  {
    assert Line(Turn(User, query)) == "user: " + query by {
      assert RoleName(User) + ": " == "user: ";
    }
    assert Lines(h) + ["user: " + query] == Lines(h + [Turn(User, query)]);
  }

  /**
    When no content holds a line break, the part after the header splits
    back, line by line, into the history entries followed by the query line.
  */
  lemma PromptLinesRecoverable(system: string, h: seq<Turn>, query: string)
    requires forall i :: 0 <= i < |h| ==> '\n' !in h[i].content
    requires '\n' !in query
    ensures var p := Prompt(system, h, query);
      && system + Header <= p
      && SplitOn(p[|system + Header|..], '\n') == Lines(h) + ["user: " + query]
  {
    var xs := Lines(h) + ["user: " + query];
    forall i | 0 <= i < |xs| ensures '\n' !in xs[i] {
      if i < |h| {
        assert xs[i] == RoleName(h[i].role) + ": " + h[i].content;
      } else {
        assert xs[i] == "user: " + query;
      }
    }
    SplitJoin(xs, '\n');
    var p := Prompt(system, h, query);
    assert p == (system + Header) + Join("\n", xs);
    assert p[|system + Header|..] == Join("\n", xs);
  }

  /**
    Line breaks are not escaped, so two different histories can give the same
    prompt: a user entry `x + "\nassistant: " + y` reads like a user entry `x`
    followed by an assistant entry `y`.
  */
  lemma PromptIsAmbiguous(system: string, x: string, y: string, query: string)
    ensures Prompt(system, [Turn(User, x + "\nassistant: " + y)], query)
         == Prompt(system, [Turn(User, x), Turn(Assistant, y)], query)
  {
    var last := "user: " + query;
    var first := "user: " + x;
    var second := "assistant: " + y;
    assert "\nassistant: " == "\n" + "assistant: ";
    var merged := first + "\n" + second;
    assert Lines([Turn(User, x + "\nassistant: " + y)]) + [last] == [merged, last] by {
      assert RoleName(User) + ": " == "user: ";
      calc {
        Line(Turn(User, x + "\nassistant: " + y));
        "user: " + (x + "\nassistant: " + y);
        "user: " + (x + ("\n" + "assistant: ") + y);
        merged;
      }
    }
    assert Lines([Turn(User, x), Turn(Assistant, y)]) + [last] == [first, second, last] by {
      assert RoleName(User) + ": " == "user: ";
      assert RoleName(Assistant) + ": " == "assistant: ";
    }
    JoinCons("\n", merged, [last]);
    JoinCons("\n", second, [last]);
    JoinCons("\n", first, [second, last]);
  }

  lemma JoinCons(sep: string, x: string, xs: seq<string>)
    requires xs != []
    ensures Join(sep, [x] + xs) == x + sep + Join(sep, xs)
  {
  }

  // ---------------------------------------------------------------- the completion call

  /** What `generate_content` gives back: some text, no text, or an exception. */
  datatype Completion = Text(text: string) | Empty | Failure(message: string)

  const Fallback := "I couldn't generate a response."

  /** `response.text if response.text else "I couldn't generate a response."`. */
  function BaseAnswer(c: Completion): (a: string)
    requires !c.Failure?
    ensures a != ""
    ensures c.Text? && c.text != "" ==> a == c.text
    ensures c.Empty? || c.text == "" ==> a == Fallback
  {
    if c.Text? && c.text != "" then c.text else Fallback
  }
}
