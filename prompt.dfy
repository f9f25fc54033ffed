/** `format_prompt`: the recent-history window, its rendering, and the substitution of history,
    question and context into the fixed instruction template. */
module Prompt {
  import opened Text

  /** One completed exchange: what the user said and what the assistant answered. */
  datatype Turn = Turn(user: string, assistant: string)

  /** How many recent turns the controller shows the model. */
  const DefaultMaxHistory: nat := 3

  // The fixed template, split at its three placeholders. The persona and rules that open the template
  // are kept as one constant and abbreviated here; the headings around the placeholders are exact.
  const Persona: string := "\n    You are Ghumti (persona and rules).\n\n"
  const HistoryHeading: string := Persona + "    **Conversation History:**\n    "
  const QuestionHeading: string := "\n\n    **Current User Question:** \n    "
  const ContextHeading: string := "\n\n    **Retrieved Context (Bus Stops & Routes):**\n    "
  const Closing: string := "\n    "

  function Min(a: int, b: int): int { if a <= b then a else b }

  // ---------------------------------------------------------------------------
  // The history window
  // ---------------------------------------------------------------------------

  /** `history[-n:]` as Python evaluates it for any integer `n`. Python reads `-0` as `0`, so `n == 0`
      keeps the whole history, and a negative `n` drops the first `-n` turns. */
  function PythonTail(history: seq<Turn>, n: int): (r: seq<Turn>)
    ensures |r| <= |history| && r == history[|history| - |r|..]
  {
    if n > 0 then history[(if n < |history| then |history| - n else 0)..]
    else history[(if -n < |history| then -n else |history|)..]
  }

  /** As written, a window of size 0 does not hide the history: it shows all of it. */
  lemma PythonTailZeroKeepsEverything(history: seq<Turn>)
    ensures PythonTail(history, 0) == history
  {
  }

  /** A concrete instance: with four turns on record and a window of 0, four turns are shown. */
  lemma PythonTailZeroCounterexample()
    ensures var h := [Turn("a", "b"), Turn("c", "d"), Turn("e", "f"), Turn("g", "h")];
            |PythonTail(h, 0)| == 4 && |RecentTurns(h, 0)| == 0
  {
  }

  /** The last `min(n, |history|)` turns, oldest first: the evidently intended window. */
  function RecentTurns(history: seq<Turn>, n: nat): (r: seq<Turn>)
    ensures |r| == Min(n, |history|)
    ensures history == history[..|history| - |r|] + r
  {
    history[|history| - Min(n, |history|)..]
  }

  /** For every window of at least one turn (the controller always uses 3), the code as written and
      the intended window agree. */
  lemma PythonTailAgreesWhenPositive(history: seq<Turn>, n: nat)
    requires n >= 1
    ensures PythonTail(history, n) == RecentTurns(history, n)
  {
  }

  /** Once a turn is appended, the window ends with it, preceded by the window one turn smaller. */
  lemma RecentTurnsAfterAppend(history: seq<Turn>, t: Turn, n: nat)
    requires n >= 1
    ensures RecentTurns(history + [t], n) == RecentTurns(history, n - 1) + [t]
  {
    var h := history + [t];
    var k := Min(n, |h|);
    assert h[|h| - k..] == history[|history| - (k - 1)..] + [t];
  }

  /** Turns older than the window have no influence on it. */
  lemma RecentTurnsIgnoresOlder(older: seq<Turn>, history: seq<Turn>, n: nat)
    requires |history| >= n
    ensures RecentTurns(older + history, n) == RecentTurns(history, n)
  {
    assert (older + history)[|older + history| - n..] == history[|history| - n..];
  }

  // ---------------------------------------------------------------------------
  // Rendering
  // ---------------------------------------------------------------------------

  /** One turn as two lines of the history block. */
  function RenderTurn(t: Turn): string {
    "User: " + t.user + "\nAssistant: " + t.assistant
  }

  /** Every turn rendered, in order. */
  function RenderTurns(turns: seq<Turn>): (r: seq<string>)
    ensures |r| == |turns|
    ensures forall i :: 0 <= i < |turns| ==> r[i] == RenderTurn(turns[i])
    decreases |turns|
  {
    if |turns| == 0 then [] else [RenderTurn(turns[0])] + RenderTurns(turns[1..])
  }

  /** The text substituted for the history placeholder: rendered turns, one newline between each. */
  function HistoryBlock(turns: seq<Turn>): string {
    Join(RenderTurns(turns), "\n")
  }

  /** Turn `i` of the block reads `User: <u>\nAssistant: <a>` at its offset, and a single newline
      parts it from the next turn. */
  lemma HistoryBlockEntryAt(turns: seq<Turn>, i: nat)
    requires i < |turns|
    ensures var parts := RenderTurns(turns);
            var block := HistoryBlock(turns);
            var start := PieceStart(parts, "\n", i);
            var entry := "User: " + turns[i].user + "\nAssistant: " + turns[i].assistant;
            && start + |entry| <= |block|
            && block[start..start + |entry|] == entry
            && (i + 1 < |turns| ==>
                  && PieceStart(parts, "\n", i + 1) == start + |entry| + 1 <= |block|
                  && block[start + |entry|] == '\n')
  {
    JoinPieceAt(RenderTurns(turns), "\n", i);
    if i + 1 < |turns| {
      JoinSeparatorAt(RenderTurns(turns), "\n", i);
    }
  }

  /** The history block after a new turn: the newest turn is rendered last, after one newline. */
  lemma HistoryBlockAfterAppend(history: seq<Turn>, t: Turn, n: nat)
    requires n >= 2 && |history| >= 1
    ensures HistoryBlock(RecentTurns(history + [t], n))
         == HistoryBlock(RecentTurns(history, n - 1)) + "\n" + RenderTurn(t)
  {
    RecentTurnsAfterAppend(history, t, n);
    var w := RecentTurns(history, n - 1);
    assert RenderTurns(w + [t]) == RenderTurns(w) + [RenderTurn(t)];
    JoinSnoc(RenderTurns(w), RenderTurn(t), "\n");
  }

  // ---------------------------------------------------------------------------
  // The prompt
  // ---------------------------------------------------------------------------

  /** Offset of the question inside the prompt whose history block is `block`. */
  function QuestionStart(block: string): nat {
    |HistoryHeading| + |block| + |QuestionHeading|
  }

  /** Offset of the context inside the prompt whose history block is `block` and question `question`. */
  function ContextStart(block: string, question: string): nat {
    QuestionStart(block) + |question| + |ContextHeading|
  }

  /** The full instruction for the model: the fixed template with the history block, the question and
      the context substituted for its three placeholders. A function of its four inputs only. */
  function FormatPrompt(history: seq<Turn>, question: string, context: string,
                        maxHistory: nat := DefaultMaxHistory): string
  {
    var block := HistoryBlock(RecentTurns(history, maxHistory));
    HistoryHeading + block + QuestionHeading + question + ContextHeading + context + Closing
  }

  /** Each substituted value lands verbatim between the fixed headings, at an offset fixed by the
      values before it, and nothing else is inserted. */
  lemma PromptLayout(history: seq<Turn>, question: string, context: string, n: nat)
    ensures var r := FormatPrompt(history, question, context, n);
            var block := HistoryBlock(RecentTurns(history, n));
            var q := QuestionStart(block);
            var c := ContextStart(block, question);
            && |r| == c + |context| + |Closing|
            && r[..|HistoryHeading|] == HistoryHeading
            && r[|HistoryHeading|..|HistoryHeading| + |block|] == block
            && r[q - |QuestionHeading|..q] == QuestionHeading
            && r[q..q + |question|] == question
            && r[c - |ContextHeading|..c] == ContextHeading
            && r[c..c + |context|] == context
            && r[c + |context|..] == Closing
  {
    var block := HistoryBlock(RecentTurns(history, n));
    var r := FormatPrompt(history, question, context, n);
    assert r == HistoryHeading + block + QuestionHeading + question + ContextHeading + context + Closing;
    assert QuestionStart(block) == |HistoryHeading| + |block| + |QuestionHeading|;
    assert ContextStart(block, question) == QuestionStart(block) + |question| + |ContextHeading|;
    SevenPieces(HistoryHeading, block, QuestionHeading, question, ContextHeading, context, Closing);
  }

  /** The pieces of a seven-part concatenation, read back at their offsets. */
  lemma SevenPieces(p1: string, p2: string, p3: string, p4: string, p5: string, p6: string, p7: string)
    ensures var r := p1 + p2 + p3 + p4 + p5 + p6 + p7;
            var o2 := |p1|;
            var o3 := o2 + |p2|;
            var o4 := o3 + |p3|;
            var o5 := o4 + |p4|;
            var o6 := o5 + |p5|;
            var o7 := o6 + |p6|;
            && |r| == o7 + |p7|
            && r[..o2] == p1 && r[o2..o3] == p2 && r[o3..o4] == p3 && r[o4..o5] == p4
            && r[o5..o6] == p5 && r[o6..o7] == p6 && r[o7..] == p7
  {
    var s1 := p1 + p2;
    var s2 := s1 + p3;
    var s3 := s2 + p4;
    var s4 := s3 + p5;
    var s5 := s4 + p6;
    var r := s5 + p7;
    AppendHalves(s5, p7);
    AppendHalves(s4, p6);
    AppendHalves(s3, p5);
    AppendHalves(s2, p4);
    AppendHalves(s1, p3);
    AppendHalves(p1, p2);
    PrefixOfPrefix(r, s5, s4);
    PrefixOfPrefix(r, s4, s3);
    PrefixOfPrefix(r, s3, s2);
    PrefixOfPrefix(r, s2, s1);
    PrefixOfPrefix(r, s1, p1);
    SliceInPrefix(r, s1, |p1|, |s1|);
    SliceInPrefix(r, s2, |s1|, |s2|);
    SliceInPrefix(r, s3, |s2|, |s3|);
    SliceInPrefix(r, s4, |s3|, |s4|);
    SliceInPrefix(r, s5, |s4|, |s5|);
  }

  /** Substitution is not re-interpreted: with the same history and context, different questions give
      different prompts. */
  lemma PromptDeterminesQuestion(history: seq<Turn>, q1: string, q2: string, context: string, n: nat)
    requires FormatPrompt(history, q1, context, n) == FormatPrompt(history, q2, context, n)
    ensures q1 == q2
  {
    PromptLayout(history, q1, context, n);
    PromptLayout(history, q2, context, n);
    var block := HistoryBlock(RecentTurns(history, n));
    var p := FormatPrompt(history, q1, context, n);
    assert |q1| == |q2|;
    assert q1 == p[QuestionStart(block)..QuestionStart(block) + |q1|] == q2;
  }

  /** Likewise, with the same history and question, different contexts give different prompts. */
  lemma PromptDeterminesContext(history: seq<Turn>, question: string, c1: string, c2: string, n: nat)
    requires FormatPrompt(history, question, c1, n) == FormatPrompt(history, question, c2, n)
    ensures c1 == c2
  {
    PromptLayout(history, question, c1, n);
    PromptLayout(history, question, c2, n);
    var block := HistoryBlock(RecentTurns(history, n));
    var p := FormatPrompt(history, question, c1, n);
    var c := ContextStart(block, question);
    assert |c1| == |c2|;
    assert c1 == p[c..c + |c1|] == c2;
  }

  /** An empty history is not an error: the history placeholder becomes empty text, so the question
      heading directly follows the history heading. */
  lemma EmptyHistoryEmptyBlock(question: string, context: string, n: nat)
    ensures HistoryBlock(RecentTurns([], n)) == ""
    ensures var r := FormatPrompt([], question, context, n);
            var k := |HistoryHeading|;
            && k + |QuestionHeading| <= |r|
            && r[..k] == HistoryHeading
            && r[k..k + |QuestionHeading|] == QuestionHeading
  {
    var w := RecentTurns([], n);
    assert w == [];
    assert RenderTurns(w) == [];
    assert HistoryBlock(w) == "";
    assert QuestionStart("") == |HistoryHeading| + |QuestionHeading|;
    PromptLayout([], question, context, n);
  }

  /** Only the window matters: turns older than the last `n` never reach the prompt. */
  lemma PromptIgnoresOlderTurns(older: seq<Turn>, history: seq<Turn>, question: string, context: string, n: nat)
    requires |history| >= n
    ensures FormatPrompt(older + history, question, context, n) == FormatPrompt(history, question, context, n)
  {
    RecentTurnsIgnoresOlder(older, history, n);
  }
}
