# Ghumti backend core, modelled in Dafny

Ghumti is a bus-route assistant for Kathmandu Valley. This project models the two pieces of its
backend that hold logic of their own.

- **The retrieval-augmented conversation controller** (`backend/inference.py`). One turn runs
  `get_model_response`. It takes the cached context, or queries the vector store when nothing is
  cached. `query_vector_store` applies the 0.3 confidence floor to the top hit and joins the chunks.
  `format_prompt` renders the last three turns into the fixed template together with the question
  and the context. The model is then called, and only if it answers is the stripped answer appended
  to the history and the context cached. The module-level `conversation_history` and `last_context`
  become the fields of a `Session` class. The similarity search and the language model are function
  parameters (oracles).
- **The directions response shaper** (`backend/map.py`). `get_directions` turns a decoded directions
  payload into route records. Each record holds the route's summary and its first leg's steps, the
  summed distance in km, and the fare at 15 per km rounded to hundredths. `geocode` returns the
  location of the first result. Both start from an already-decoded payload, given as datatypes.

Files: `wrappers.dfy` (Option, Result), `text.dfy` (Python's `str.join` and `str.strip`),
`retrieval.dfy`, `prompt.dfy`, `conversation.dfy` (the session), `directions.dfy`.

What the code does, and the model with it:
- The retrieval result is plain text.
- The cache is never invalidated. Once set it is never refreshed, even when it holds the
  "No relevant information found." text.
- The history stores the stripped model text.

## Model

| member | source | states |
|---|---|---|
| Text.JoinLength | backend/inference.py:32 | `Join`, Python's `sep.join`: a join of n parts is as long as the parts plus n - 1 separators |
| Text.JoinPieceAt | backend/inference.py:32 | part i sits verbatim at its offset in the join |
| Text.JoinSeparatorAt | backend/inference.py:32 | exactly one separator follows every part but the last, and the next part begins right after it |
| Text.JoinSnoc | backend/inference.py:65 | joining one more part appends one separator and that part |
| Text.StripKeepsInfix | backend/inference.py:85 | `Strip`, Python's `str.strip()`: the stripped text is a stretch of the model text with only whitespace (Python's whitespace set) before and after it |
| Text.StripTrimsEdges | backend/inference.py:85 | the stripped text neither begins nor ends with whitespace |
| Text.StripIdempotent | backend/inference.py:85 | stripping the stored answer again changes nothing |
| Retrieval.PageContents | backend/inference.py:32 | one chunk text per hit, in rank order |
| Retrieval.QueryVectorStore | backend/inference.py:26-33 | no hits, or a top score below 0.3, gives exactly "No relevant information found."; otherwise all chunk texts joined by the separator line |
| Retrieval.RetrievedChunkAt | backend/inference.py:29-32 | with a confident top hit every hit is kept whatever its own score: hit i verbatim at its rank's offset, one separator after each hit but the last, length leaving room for exactly len - 1 separators |
| Retrieval.SingleHitVerbatim | backend/inference.py:32 | a single confident hit is passed on unchanged |
| Retrieval.OnlyTopScoreMatters | backend/inference.py:29 | only the top hit's score is consulted: lower-ranked scores never change the context |
| Prompt.PythonTail | backend/inference.py:64 | the history slice as written, any integer window: a suffix of the history |
| Prompt.PythonTailZeroKeepsEverything | backend/inference.py:64 | as written, a window of 0 keeps the whole history |
| Prompt.PythonTailZeroCounterexample | backend/inference.py:64 | four turns and window 0: four shown as written, none intended |
| Prompt.RecentTurns | backend/inference.py:64 | the last min(n, len) turns, in their original order, as a suffix of the history; empty history gives empty window |
| Prompt.PythonTailAgreesWhenPositive | backend/inference.py:64 | for every window of at least 1 (the default is 3) the slice as written equals the intended window |
| Prompt.RecentTurnsAfterAppend | backend/inference.py:64 | after an append the window ends with the new turn, preceded by the window one smaller |
| Prompt.RecentTurnsIgnoresOlder | backend/inference.py:64 | turns older than the window do not affect it |
| Prompt.RenderTurns | backend/inference.py:65 | one rendered entry per turn, in order |
| Prompt.HistoryBlockEntryAt | backend/inference.py:65 | entry i reads "User: u\nAssistant: a" at its offset and a single newline separates it from the next |
| Prompt.HistoryBlockAfterAppend | backend/inference.py:64-65 | after an append the block is the smaller window's block, a newline, and the new turn rendered last |
| Prompt.FormatPrompt | backend/inference.py:35-71 | the template filled with the recent history block, the question and the context; its layout is stated by PromptLayout and the lemmas after it, and its window is the corrected one (see Left out) |
| Prompt.PromptLayout | backend/inference.py:35-71 | the prompt is the fixed headings with the history block, the question and the context each placed verbatim at a known position, nothing else inserted |
| Prompt.PromptDeterminesQuestion | backend/inference.py:67-71 | substitution is not re-interpreted: same history and context, different question, different prompt |
| Prompt.PromptDeterminesContext | backend/inference.py:67-71 | same history and question, different context, different prompt |
| Prompt.EmptyHistoryEmptyBlock | backend/inference.py:64-71 | an empty history gives an empty history block, not an error: the question heading directly follows the history heading |
| Prompt.PromptIgnoresOlderTurns | backend/inference.py:64-71 | turns before the last n never reach the prompt |
| Conversation.TurnContext | backend/inference.py:79 | a cached context is used as is; only when nothing is cached is the store queried with k = 5 |
| Conversation.CachedContextIsSticky | backend/inference.py:79-89 | once cached, no question and no search result changes the context a turn uses, the "nothing relevant" text included |
| Conversation.Session.constructor | backend/inference.py:10-11 | a session starts with empty history, nothing cached, nothing queried |
| Conversation.Session.GetModelResponse | backend/inference.py:74-91 | the store is queried exactly when nothing was cached; a cached context never changes; the answer is the stripped model text; the model is asked `TurnPrompt`, the prompt of the old history (window 3), the question and that context (line 82); a failed model call leaves history and cache untouched; a completed turn appends exactly one turn (input, answer) to the unchanged old history and caches the context used; cache set exactly when history is non-empty |
| Directions.ShapeStepsCopies | backend/map.py:69-77 | `ShapeSteps`: one step record per step, same order, copying instruction, distance text and duration text |
| Directions.TotalMetresBounds | backend/map.py:66-71 | the summed step distance (`TotalMetres`, in km `TotalKm`): with non-negative step distances the total is non-negative and at least every step's distance |
| Directions.RoundHalfEven | backend/map.py:81 | the integer chosen lies within one half of the value, strictly nearer unless the value is a tie, and even at a tie |
| Directions.RoundHalfEvenMonotone | backend/map.py:81 | rounding never reverses an order |
| Directions.RoundCents | backend/map.py:81 | the rounded value is a whole number of hundredths within half a hundredth of the value |
| Directions.RoundCentsTies | backend/map.py:81 | exact ties go to the even hundredth: 0.125 gives 0.12, 0.375 gives 0.38 |
| Directions.EstimatedFare | backend/map.py:80-81 | the fare is a whole number of hundredths within half a hundredth of 15 per km |
| Directions.FareMonotone | backend/map.py:80-81 | a longer distance never has a smaller fare |
| Directions.FareExamples | backend/map.py:80-81 | zero km costs 0; ten km cost 150 |
| Directions.FareNonNegative | backend/map.py:80-81 | a non-negative distance has a non-negative fare |
| Directions.ShapeRoutesInOrder | backend/map.py:64-88 | one record per route, in the same order, each the record of that route |
| Directions.ShapeDirections | backend/map.py:61-90 | status not "OK" gives the 400 error and no routes; a route without legs gives a server error; otherwise a successful answer |
| Directions.DirectionsRecord | backend/map.py:64-88 | a successful answer has one record per route; record i (`ShapeRoute` of route i) has route i's summary, one step record per step of its first leg, their total in km and the fare for that total |
| Directions.OnlyFirstLegUsed | backend/map.py:69 | legs after the first change nothing in a route's record |
| Directions.RecordsNonNegative | backend/map.py:66-81 | a record's distance and fare are non-negative when its step distances are |
| Directions.ShapeLeg | backend/map.py:66-77 | the step loop builds exactly the leg's step records and the total distance in km |
| Directions.GetDirections | backend/map.py:61-90 | the nested loops produce exactly the answer ShapeDirections describes |
| Directions.Geocode | backend/map.py:39-43 | status not "OK" gives the 400 error; otherwise the latitude and longitude of the first result's location, or a server error when there is no result |
| Directions.GeocodeUsesFirstResult | backend/map.py:42 | results after the first never affect the answer |

## Left out

- The embedding model and the Chroma vector store (`backend/inference.py:13-20`): they are library calls. The similarity search is a function parameter from (query, k) to ranked (content, score) pairs.
- The Llama model (`backend/inference.py:22-24`): it is a library call. The model is a function parameter from prompt to `Option<string>`, where `None` stands for a call that raises or returns no `choices[0].text`.
- The REPL loop `main` (`backend/inference.py:93-98`): it is console I/O.
- `backend/server.py` and `backend/main.py`: they are HTTP and REPL hosts. They call `get_model_response` with two arguments, while `backend/inference.py` defines it with one. The one-argument version is modelled and the mismatch is not reconciled.
- `backend/create_db.py`: ingestion is file-system traversal, a library splitter and database persistence.
- The HTTP calls, FastAPI, CORS and environment setup of `backend/map.py`: the model starts from the decoded JSON. Fields are always present in the datatypes, so a missing key (a `KeyError`) is not modelled.
- An exception raised by the handler (a route without legs, a geocoding answer without results) is modelled as the framework's HTTP 500 answer.
- Floating point: scores, km and fares are exact `real`s and metres are integers. The IEEE accumulation error of the running distance total is not reproduced. `round(x, 2)` is modelled as round-half-even on the exact value, so a tie that the binary float places just below or above the half rounds differently here. NaN scores are not modelled.
- Prompt.PromptLayout: the persona, rules and example scenarios that open the template are abbreviated to one short constant (`Prompt.Persona`). The headings around the three placeholders are exact.
- Prompt.FormatPrompt: it uses the corrected window `Prompt.RecentTurns`, so a `max_history` of 0 shows no turns, where the code as written shows all of them; for every `max_history` of at least 1 the two agree (`Prompt.PythonTailAgreesWhenPositive`), and only the default 3 is ever passed.
- Prompt.RecentTurns: the window is a `nat`, so the negative windows Python would accept are covered only by `Prompt.PythonTail`.
- The frontend, which is React UI.

## Findings

| source | as written | input that shows it | evidently intended | confidence | as-written member | corrected member |
|---|---|---|---|---|---|---|
| backend/inference.py:64 | the window slices the history from position minus max_history, and Python reads minus zero as zero | max_history = 0 with four turns on record: all four turns reach the prompt | a window of 0 shows no turns; in general min(max_history, len) turns | low (only the default 3 is ever passed), not executed | Prompt.PythonTail | Prompt.RecentTurns |
