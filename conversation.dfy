/** `get_model_response` and the two pieces of state it keeps between turns: the conversation
    history and the single-slot, sticky cache of the last context. */
module Conversation {
  import opened Wrappers
  import opened Text
  import opened Retrieval
  import opened Prompt

  /** The similarity search: query text and number of hits to ranked hits. */
  type Search = (string, nat) -> seq<ScoredDoc>
  /** The language model: a prompt to the text of its first choice, or None when the call raises. */
  type Model = string -> Option<string>

  /** Why a turn did not complete. */
  datatype TurnError = GenerationFailed

  /** The context a turn uses: the cached one if any, otherwise a fresh query for the question. */
  function TurnContext(cached: Option<string>, question: string, search: Search): (r: string)
    ensures cached.Some? ==> r == cached.value
    ensures cached.None? ==> r == QueryVectorStore(search(question, TopK))
  {
    match cached
    case Some(c) => c
    case None => QueryVectorStore(search(question, TopK))
  }

  /** The prompt a turn sends to the model. */
  function TurnPrompt(history: seq<Turn>, cached: Option<string>, question: string, search: Search): string {
    FormatPrompt(history, question, TurnContext(cached, question, search), DefaultMaxHistory)
  }

  /** Once a context is cached, no question and no search result can change the context a turn uses:
      even the "nothing relevant" text, once cached, is used for every later turn. */
  lemma CachedContextIsSticky(c: string, q1: string, q2: string, s1: Search, s2: Search)
    ensures TurnContext(Some(c), q1, s1) == TurnContext(Some(c), q2, s2) == c
  {
  }

  /** One conversation: the module-level history and last context of the source. */
  class Session {
    var history: seq<Turn>
    var lastContext: Option<string>
    /** How many times the vector store has been queried in this session. */
    ghost var retrievals: nat

    /** A context is cached exactly when at least one turn has completed. */
    ghost predicate Valid()
      reads this
    {
      lastContext.Some? <==> history != []
    }

    /** A fresh session: no history, nothing cached, nothing queried. */
    constructor ()
      ensures Valid()
      ensures history == [] && lastContext == None && retrievals == 0
    {
      history := [];
      lastContext := None;
      retrievals := 0;
    }

    /** One turn: resolve the context (query only when nothing is cached), assemble the prompt from the
        history so far, ask the model, and, only if it answered, record the stripped answer and cache
        the context. */
    method GetModelResponse(userInput: string, search: Search, llm: Model) returns (response: Result<string, TurnError>)
      requires Valid()
      modifies this
      ensures Valid()
      // the vector store is queried exactly when nothing was cached
      ensures retrievals == old(retrievals) + (if old(lastContext).None? then 1 else 0)
      // a cached context is never refreshed
      ensures old(lastContext).Some? ==> lastContext == old(lastContext)
      ensures var answer := llm(TurnPrompt(old(history), old(lastContext), userInput, search));
              && (answer.None? ==> response == Failure(GenerationFailed))
              && (answer.Some? ==> response == Success(Strip(answer.value)))
      // a failed generation leaves the session as it was
      ensures response.Failure? ==> history == old(history) && lastContext == old(lastContext)
      // a completed turn appends exactly one turn and caches the context it used
      ensures response.Success? ==>
                && history == old(history) + [Turn(userInput, response.value)]
                && lastContext == Some(TurnContext(old(lastContext), userInput, search))
    {
      ghost var oldHistory, oldContext := history, lastContext;
      var contextText: string;
      if lastContext.None? {
        contextText := QueryVectorStore(search(userInput, TopK));
        retrievals := retrievals + 1;
      } else {
        contextText := lastContext.value;
      }
      assert contextText == TurnContext(oldContext, userInput, search);
      var prompt := FormatPrompt(history, userInput, contextText);
      assert prompt == TurnPrompt(oldHistory, oldContext, userInput, search);
      var answer := llm(prompt);
      if answer.None? {
        return Failure(GenerationFailed);
      }
      var text := Strip(answer.value);
      history := history + [Turn(userInput, text)];
      lastContext := Some(contextText);
      response := Success(text);
    }
  }
}
