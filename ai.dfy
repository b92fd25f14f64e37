/** The text processing of the backend's AI module (backend/core/ai.py):
    chunking a document for the local model, parsing flashcards out of the
    Gemini CLI's output and out of the local model's output, and the
    Gemini-first, local-model-second composition for summaries and
    flashcards. The Gemini subprocess and the Hugging Face pipelines are
    inputs: a finished run of the CLI, and functions from prompt to text. */
module Ai {
  import opened Wrappers
  import opened PyStr
  import GeminiCli

  /** `chunk_text`'s default `max_chunk_size`, used by both fallbacks. */
  const DefaultChunkSize := 512

  const QuestionMarker := "Q: "
  const AnswerMarker := "A: "
  const LocalAnswerMarker := "answer:"
  const LocalQuestionMarker := "question:"
  const LocalPrompt := "Generate a question and answer based on this text: "
  const NoFallbackMessage := "Gemini CLI failed and local model is not available."

  datatype Card = Card(question: string, answer: string)

  datatype Result<+T> = Ok(value: T) | Err(message: string)

  /** Python's `out = []` followed by `out.extend(f(x))` for every `x` of
      `xs`, in order. */
  function FlatMap<T, U>(xs: seq<T>, f: T -> seq<U>): seq<U>
  {
    if xs == [] then [] else FlatMap(xs[..|xs| - 1], f) + f(xs[|xs| - 1])
  }

  lemma FlatMapSingle<T, U>(x: T, f: T -> seq<U>)
    ensures FlatMap([x], f) == f(x)
  {
    assert [x][..0] == [];
  }

  /** Extending by the items of `a + b` is extending by those of `a`, then by
      those of `b`. */
  lemma {:induction false} FlatMapAppend<T, U>(a: seq<T>, b: seq<T>, f: T -> seq<U>)
    ensures FlatMap(a + b, f) == FlatMap(a, f) + FlatMap(b, f)
    decreases |b|
  {
    if b == [] {
      assert a + b == a;
    } else {
      var init := b[..|b| - 1];
      assert (a + b)[..|a + b| - 1] == a + init;
      assert (a + b)[|a + b| - 1] == b[|b| - 1];
      FlatMapAppend(a, init, f);
    }
  }

  /** When every item yields at most one element, there are no more elements
      than items. */
  lemma {:induction false} FlatMapBound<T, U>(xs: seq<T>, f: T -> seq<U>)
    requires forall x :: |f(x)| <= 1
    ensures |FlatMap(xs, f)| <= |xs|
  {
    if xs != [] {
      FlatMapBound(xs[..|xs| - 1], f);
    }
  }

  // ---------------------------------------------------------------------
  // chunk_text

  /** The text after a space is put behind every `.`, `?` and `!`. */
  function Spaced(text: string): string
  {
    ReplaceChar(ReplaceChar(ReplaceChar(text, '.', ". "), '?', "? "), '!', "! ")
  }

  /** The tokens `chunk_text` distributes over chunks (its `sentences`). */
  function Sentences(text: string): seq<string>
  {
    Words(Spaced(text))
  }

  /** `chunk_text`'s loop, from a point where `current` has been accumulated
      and `tokens` are still to come. */
  function Chunker(tokens: seq<string>, current: string, max: int): seq<string>
    decreases |tokens|
  {
    if tokens == [] then
      (if current != "" then [Strip(current)] else [])
    else if |current| + |tokens[0]| < max then
      Chunker(tokens[1..], current + tokens[0] + " ", max)
    else
      [Strip(current)] + Chunker(tokens[1..], tokens[0] + " ", max)
  }

  /** What `chunk_text(text, max)` returns. */
  function Chunks(text: string, max: int): seq<string>
  {
    Chunker(Sentences(text), "", max)
  }

  /** The whitespace tokens of several strings, concatenated in order. */
  function AllWords(cs: seq<string>): seq<string>
  {
    FlatMap(cs, Words)
  }

  /** A chunk of two or more tokens is strictly shorter than `max`. */
  predicate Bounded(cs: seq<string>, max: int)
  {
    forall i :: 0 <= i < |cs| && |Words(cs[i])| >= 2 ==> |cs[i]| < max
  }

  /** The string `current_chunk` holds after the tokens `cur` were added to
      it: each token followed by one space. */
  function Layout(cur: seq<string>): string
  {
    if cur == [] then "" else Join(cur, " ") + " "
  }

  method ChunkText(text: string, maxChunkSize: int) returns (chunks: seq<string>)
    ensures chunks == Chunks(text, maxChunkSize)
    ensures AllWords(chunks) == Sentences(text)
    ensures chunks == [] <==> Blank(text)
    ensures Bounded(chunks, maxChunkSize)
  {
    var sentences := Words(Spaced(text));
    chunks := [];
    var current := "";
    for k := 0 to |sentences|
      invariant chunks + Chunker(sentences[k..], current, maxChunkSize) == Chunks(text, maxChunkSize)
    {
      var sentence := sentences[k];
      assert sentences[k..][1..] == sentences[k + 1..];
      ChunkerStep(sentences[k..], current, maxChunkSize);
      if |current| + |sentence| < maxChunkSize {
        current := current + sentence + " ";
      } else {
        assert chunks + [Strip(current)] + Chunker(sentences[k + 1..], sentence + " ", maxChunkSize)
          == chunks + ([Strip(current)] + Chunker(sentences[k + 1..], sentence + " ", maxChunkSize));
        chunks := chunks + [Strip(current)];
        current := sentence + " ";
      }
    }
    if current != "" {
      chunks := chunks + [Strip(current)];
    }
    ChunksCoverSentences(text, maxChunkSize);
    ChunksEmptyIffBlank(text, maxChunkSize);
    ChunksBounded(text, maxChunkSize);
  }

  /** One turn of `chunk_text`'s loop. */
  lemma ChunkerStep(ts: seq<string>, current: string, max: int)
    requires ts != []
    ensures |current| + |ts[0]| < max ==> Chunker(ts, current, max) == Chunker(ts[1..], current + ts[0] + " ", max)
    ensures |current| + |ts[0]| >= max ==> Chunker(ts, current, max) == [Strip(current)] + Chunker(ts[1..], ts[0] + " ", max)
  {
  }

  lemma AllWordsCons(c: string, rest: seq<string>)
    ensures AllWords([c] + rest) == Words(c) + AllWords(rest)
  {
    FlatMapAppend([c], rest, Words);
    FlatMapSingle(c, Words);
  }

  lemma LayoutSnoc(cur: seq<string>, t: string)
    ensures Layout(cur) + t + " " == Layout(cur + [t])
  {
    if cur != [] {
      JoinSnoc(cur, t, " ");
    }
  }

  /** The chunk emitted for an accumulated `cur` is its tokens joined by
      single spaces; its words are `cur`; it is one shorter than `current`. */
  lemma EmittedChunk(cur: seq<string>)
    requires AllTokens(cur)
    ensures Strip(Layout(cur)) == Join(cur, " ")
    ensures Words(Strip(Layout(cur))) == cur
    ensures cur != [] ==> |Strip(Layout(cur))| == |Layout(cur)| - 1
  {
    if cur != [] {
      StripJoinSpace(cur);
      WordsOfJoin(cur);
    }
  }

  /** Chunking loses, adds and reorders no token. */
  lemma {:induction false} ChunkerCovers(ts: seq<string>, cur: seq<string>, max: int)
    requires AllTokens(ts) && AllTokens(cur)
    ensures AllWords(Chunker(ts, Layout(cur), max)) == cur + ts
    decreases |ts|
  {
    if ts == [] {
      if cur != [] {
        EmittedChunk(cur);
        AllWordsCons(Strip(Layout(cur)), []);
      }
    } else if |Layout(cur)| + |ts[0]| < max {
      ChunkerCovers(ts[1..], cur + [ts[0]], max);
      AccumulateStep(ts, cur, max);
      ConsRest(cur, ts);
    } else {
      ChunkerCovers(ts[1..], [ts[0]], max);
      EmitCovers(ts, cur, max);
    }
  }

  /** The emitting step of `ChunkerCovers`. */
  lemma EmitCovers(ts: seq<string>, cur: seq<string>, max: int)
    requires AllTokens(cur) && ts != [] && |Layout(cur)| + |ts[0]| >= max
    requires AllWords(Chunker(ts[1..], Layout([ts[0]]), max)) == [ts[0]] + ts[1..]
    ensures AllWords(Chunker(ts, Layout(cur), max)) == cur + ts
  {
    EmitStep(ts, cur, max);
    EmittedChunk(cur);
    AllWordsCons(Strip(Layout(cur)), Chunker(ts[1..], Layout([ts[0]]), max));
    ConsRest(cur, ts);
  }

  lemma AccumulateStep(ts: seq<string>, cur: seq<string>, max: int)
    requires ts != [] && |Layout(cur)| + |ts[0]| < max
    ensures Chunker(ts, Layout(cur), max) == Chunker(ts[1..], Layout(cur + [ts[0]]), max)
  {
    LayoutSnoc(cur, ts[0]);
  }

  lemma ConsRest<T>(xs: seq<T>, ys: seq<T>)
    requires ys != []
    ensures xs + [ys[0]] + ys[1..] == xs + ys
  {
    assert [ys[0]] + ys[1..] == ys;
  }

  lemma EmitStep(ts: seq<string>, cur: seq<string>, max: int)
    requires ts != [] && |Layout(cur)| + |ts[0]| >= max
    ensures Chunker(ts, Layout(cur), max) == [Strip(Layout(cur))] + Chunker(ts[1..], Layout([ts[0]]), max)
  {
    assert Layout([ts[0]]) == ts[0] + " ";
  }

  /** Every chunk of two or more tokens stays under the limit, provided the
      accumulated tokens already do. */
  lemma {:induction false} ChunkerBounded(ts: seq<string>, cur: seq<string>, max: int)
    requires AllTokens(ts) && AllTokens(cur)
    requires |cur| >= 2 ==> |Layout(cur)| <= max
    ensures Bounded(Chunker(ts, Layout(cur), max), max)
    decreases |ts|
  {
    EmittedChunk(cur);
    if ts == [] {
    } else if |Layout(cur)| + |ts[0]| < max {
      AccumulateStep(ts, cur, max);
      LayoutSnoc(cur, ts[0]);
      ChunkerBounded(ts[1..], cur + [ts[0]], max);
    } else {
      EmitStep(ts, cur, max);
      ChunkerBounded(ts[1..], [ts[0]], max);
      BoundedCons(Strip(Layout(cur)), Chunker(ts[1..], Layout([ts[0]]), max), max);
    }
  }

  lemma BoundedCons(c: string, rest: seq<string>, max: int)
    requires Bounded(rest, max) && (|Words(c)| >= 2 ==> |c| < max)
    ensures Bounded([c] + rest, max)
  {
    var all := [c] + rest;
    forall i | 0 <= i < |all| && |Words(all[i])| >= 2
      ensures |all[i]| < max
    {
      if i > 0 {
        assert all[i] == rest[i - 1];
      }
    }
  }

  /** No chunk of `cs` is the empty string. */
  predicate NoneEmpty(cs: seq<string>)
  {
    forall i :: 0 <= i < |cs| ==> cs[i] != ""
  }

  /** Once a token has been accumulated, no chunk is empty. */
  lemma {:induction false} ChunkerNonEmpty(ts: seq<string>, cur: seq<string>, max: int)
    requires AllTokens(ts) && AllTokens(cur) && cur != []
    ensures Chunker(ts, Layout(cur), max) != [] && NoneEmpty(Chunker(ts, Layout(cur), max))
    decreases |ts|
  {
    if ts == [] {
      EmittedChunk(cur);
      JoinEdges(cur);
    } else if |Layout(cur)| + |ts[0]| < max {
      AccumulateStep(ts, cur, max);
      ChunkerNonEmpty(ts[1..], cur + [ts[0]], max);
    } else {
      EmitStep(ts, cur, max);
      ChunkerNonEmpty(ts[1..], [ts[0]], max);
      EmittedChunk(cur);
      JoinEdges(cur);
      NoneEmptyCons(Strip(Layout(cur)), Chunker(ts[1..], Layout([ts[0]]), max));
    }
  }

  lemma NoneEmptyCons(c: string, rest: seq<string>)
    requires c != "" && NoneEmpty(rest)
    ensures NoneEmpty([c] + rest)
  {
    var all := [c] + rest;
    forall i | 0 <= i < |all|
      ensures all[i] != ""
    {
      if i > 0 {
        assert all[i] == rest[i - 1];
      }
    }
  }

  /** The whitespace tokens of the chunks, in order, are those of the text
      with a space put behind every `.`, `?` and `!`. */
  lemma ChunksCoverSentences(text: string, max: int)
    ensures AllWords(Chunks(text, max)) == Sentences(text)
  {
    assert Layout([]) == "";
    ChunkerCovers(Sentences(text), [], max);
  }

  /** A chunk of two or more tokens is strictly shorter than `max`; a chunk
      of a single token may be longer. */
  lemma ChunksBounded(text: string, max: int)
    ensures Bounded(Chunks(text, max), max)
  {
    assert Layout([]) == "";
    ChunkerBounded(Sentences(text), [], max);
  }

  /** The shape of the chunk list: empty exactly when there is no token; the
      first chunk is the empty string exactly when the first token is not
      shorter than `max`; no later chunk is empty. */
  lemma ChunksShape(text: string, max: int)
    ensures var ts := Sentences(text); var cs := Chunks(text, max);
      && (cs == [] <==> ts == [])
      && (|cs| > 0 && cs[0] == "" <==> ts != [] && |ts[0]| >= max)
      && (forall i :: 0 < i < |cs| ==> cs[i] != "")
  {
    var ts := Sentences(text);
    if ts != [] {
      var t := ts[0];
      assert Layout([t]) == t + " ";
      ChunkerNonEmpty(ts[1..], [t], max);
      if |t| < max {
        assert "" + t + " " == Layout([t]);
      } else {
        assert Strip("") == "";
        var rest := Chunker(ts[1..], Layout([t]), max);
        assert forall i :: 0 < i < |rest| + 1 ==> ([""] + rest)[i] == rest[i - 1];
      }
    }
  }

  /** Only empty or whitespace-only text yields no chunk. */
  lemma ChunksEmptyIffBlank(text: string, max: int)
    ensures Chunks(text, max) == [] <==> Blank(text)
  {
    ChunksShape(text, max);
    var s1 := ReplaceChar(text, '.', ". ");
    var s2 := ReplaceChar(s1, '?', "? ");
    BlankReplaceChar(text, '.', ". ");
    BlankReplaceChar(s1, '?', "? ");
    BlankReplaceChar(s2, '!', "! ");
    WordsEmptyIffBlank(Spaced(text));
  }

  // ---------------------------------------------------------------------
  // The Gemini CLI and its output

  /** A finished run of the `gemini` subprocess, or a failure to start it. */
  datatype GeminiRun =
    | Exited(returnCode: int, stdout: string, stderr: string)
    | SpawnFailed(reason: string)

  predicate Succeeded(run: GeminiRun)
  {
    run.Exited? && run.returnCode == 0
  }

  /** `summarize_text_with_gemini`: the stripped output of a successful
      run, or the CLI error of a failed one. */
  function SummaryWithGemini(run: GeminiRun): (r: Result<string>)
    ensures r.Ok? <==> Succeeded(run)
    ensures r.Ok? ==> r.value == Strip(run.stdout)
  {
    match run
    case SpawnFailed(reason) => Err(reason)
    case Exited(code, out, err) =>
      if code != 0 then Err("Gemini CLI error: " + err) else Ok(Strip(out))
  }

  /** The card one `"Q: "`-piece of Gemini's output yields, if any (see
      CardOfSplitsAtFirstAnswer). */
  function CardOf(piece: string): Option<Card>
  {
    match SplitFirst(piece, AnswerMarker)
    case None => None
    case Some((q, a)) => Some(Card(Strip(q), Strip(a)))
  }

  /** A piece yields a card exactly when it contains `"A: "`. The card's
      question is the stripped text before the first `"A: "`, and its answer
      the stripped rest, which may hold further `"A: "`s. */
  lemma CardOfSplitsAtFirstAnswer(piece: string)
    ensures CardOf(piece).Some? <==> Contains(piece, AnswerMarker)
    ensures CardOf(piece).Some? ==> exists q, a ::
      && piece == q + AnswerMarker + a
      && !Contains(q, AnswerMarker)
      && CardOf(piece).value == Card(Strip(q), Strip(a))
  {
    if Contains(piece, AnswerMarker) {
      var (q, a) := SplitFirst(piece, AnswerMarker).value;
      assert piece == q + AnswerMarker + a && !Contains(q, AnswerMarker);
      assert CardOf(piece).value == Card(Strip(q), Strip(a));
    }
  }

  /** The card of one piece as a list of at most one card. */
  function CardList(piece: string): (r: seq<Card>)
    ensures |r| <= 1
  {
    match CardOf(piece)
    case None => []
    case Some(c) => [c]
  }

  /** The cards of a sequence of pieces, in piece order. */
  function CardsOf(pieces: seq<string>): seq<Card>
  {
    FlatMap(pieces, CardList)
  }

  /** The parsing loop of `generate_flashcards_with_gemini`. */
  method ParseGeminiCards(stdout: string) returns (cards: seq<Card>)
    ensures cards == CardsOf(SplitOn(Strip(stdout), QuestionMarker))
    ensures |cards| <= |SplitOn(Strip(stdout), QuestionMarker)|
  {
    var raw := Strip(stdout);
    var pairs := SplitOn(raw, QuestionMarker);
    cards := [];
    for k := 0 to |pairs|
      invariant cards == CardsOf(pairs[..k])
    {
      var pair := pairs[k];
      assert pairs[..k + 1][..k] == pairs[..k];
      if Contains(pair, AnswerMarker) {
        var (question, answer) := SplitFirst(pair, AnswerMarker).value;
        cards := cards + [Card(Strip(question), Strip(answer))];
      }
      assert cards == CardsOf(pairs[..k]) + CardList(pair);
    }
    assert pairs[..|pairs|] == pairs;
    CardsOfLength(pairs);
  }

  /** Every piece contains `"A: "` (see AllAnsweredMeans). */
  predicate AllAnswered(pieces: seq<string>)
  {
    pieces == []
    || (AllAnswered(pieces[..|pieces| - 1]) && Contains(pieces[|pieces| - 1], AnswerMarker))
  }

  lemma {:induction false} AllAnsweredMeans(pieces: seq<string>)
    ensures AllAnswered(pieces) <==> forall i :: 0 <= i < |pieces| ==> Contains(pieces[i], AnswerMarker)
  {
    if pieces != [] {
      var init := pieces[..|pieces| - 1];
      AllAnsweredMeans(init);
      assert forall i :: 0 <= i < |init| ==> init[i] == pieces[i];
    }
  }

  /** No more cards than pieces, and as many exactly when every piece
      contains `"A: "`. */
  lemma {:induction false} CardsOfLength(pieces: seq<string>)
    ensures |CardsOf(pieces)| <= |pieces|
    ensures |CardsOf(pieces)| == |pieces| <==> AllAnswered(pieces)
  {
    if pieces != [] {
      var init := pieces[..|pieces| - 1];
      var last := pieces[|pieces| - 1];
      CardsOfLength(init);
      CardOfSplitsAtFirstAnswer(last);
      assert |CardsOf(pieces)| == |CardsOf(init)| + |CardList(last)|;
    }
  }

  /** `generate_flashcards_with_gemini`: the command line it runs, and the
      parsed cards of a successful run of it, or the CLI error of a failed
      one. The command hands `gemini` the prompt intact only for a document
      without characters special inside double quotes (see GeminiCli). */
  method FlashcardsWithGemini(text: string, run: GeminiRun) returns (command: string, r: Result<seq<Card>>)
    ensures command == GeminiCli.FlashcardCommandAsWritten(text)
    ensures '"' in text ==> GeminiCli.Argument(command) != Some(GeminiCli.FlashcardPrompt(text))
    ensures GeminiCli.Plain(text) ==> GeminiCli.Argument(command) == Some(GeminiCli.FlashcardPrompt(text))
    ensures r.Ok? <==> Succeeded(run)
    ensures r.Ok? ==> r.value == CardsOf(SplitOn(Strip(run.stdout), QuestionMarker))
  {
    command := GeminiCli.FlashcardCommandAsWritten(text);
    if '"' in text {
      GeminiCli.AsWrittenLosesQuotedText(text);
    }
    if GeminiCli.Plain(text) {
      GeminiCli.AsWrittenCarriesPlainText(text);
    }
    match run
    case SpawnFailed(reason) =>
      r := Err(reason);
    case Exited(code, out, err) =>
      if code != 0 {
        r := Err("Gemini CLI error: " + err);
      } else {
        var cards := ParseGeminiCards(out);
        r := Ok(cards);
      }
  }

  // ---------------------------------------------------------------------
  // The local model's output

  /** The parse step of `generate_flashcards_with_local_model` (see
      LocalCardSplitsAtFirstAnswer). */
  function ParseLocalCard(qaText: string): (cards: seq<Card>)
    ensures |cards| <= 1
  {
    match SplitFirst(qaText, LocalAnswerMarker)
    case None => []
    case Some((question, answer)) =>
      [Card(Strip(RemoveAll(question, LocalQuestionMarker)), Strip(answer))]
  }

  /** No card when `"answer:"` is absent (the ValueError path); otherwise one
      card whose question is the text before the first `"answer:"`, with
      `"question:"` deleted in one pass and then stripped, and whose answer
      is the stripped rest. */
  lemma LocalCardSplitsAtFirstAnswer(qaText: string)
    ensures ParseLocalCard(qaText) == [] <==> !Contains(qaText, LocalAnswerMarker)
    ensures ParseLocalCard(qaText) != [] ==> exists q, a ::
      && qaText == q + LocalAnswerMarker + a
      && !Contains(q, LocalAnswerMarker)
      && ParseLocalCard(qaText) == [Card(Strip(RemoveAll(q, LocalQuestionMarker)), Strip(a))]
  {
    if Contains(qaText, LocalAnswerMarker) {
      var (q, a) := SplitFirst(qaText, LocalAnswerMarker).value;
      assert qaText == q + LocalAnswerMarker + a && !Contains(q, LocalAnswerMarker);
      assert ParseLocalCard(qaText) == [Card(Strip(RemoveAll(q, LocalQuestionMarker)), Strip(a))];
    }
  }

  /** `generate_flashcards_with_local_model` with the model available:
      `generate` stands for the text2text pipeline. */
  function LocalCards(text: string, generate: string -> string): (cards: seq<Card>)
    ensures |cards| <= 1
    ensures cards == [] <==> !Contains(generate(LocalPrompt + text), LocalAnswerMarker)
  {
    LocalCardSplitsAtFirstAnswer(generate(LocalPrompt + text));
    ParseLocalCard(generate(LocalPrompt + text))
  }

  /** The fallback flashcards: the per-chunk lists concatenated in chunk
      order (see FlatMapAppend), at most one card per chunk. */
  function FallbackCards(chunks: seq<string>, generate: string -> string): (cards: seq<Card>)
    ensures |cards| <= |chunks|
  {
    FlatMapBound(chunks, chunk => LocalCards(chunk, generate));
    FlatMap(chunks, chunk => LocalCards(chunk, generate))
  }

  /** The per-chunk summaries, one per chunk, in chunk order. */
  function Summaries(chunks: seq<string>, summarize: string -> string): (r: seq<string>)
    ensures |r| == |chunks|
    ensures forall i :: 0 <= i < |chunks| ==> r[i] == summarize(chunks[i])
  {
    seq(|chunks|, i requires 0 <= i < |chunks| => summarize(chunks[i]))
  }

  // ---------------------------------------------------------------------
  // Gemini first, the local model second

  /** `process_document_for_summary`. `summarizer` is `None` when the local
      pipeline failed to load. */
  method ProcessDocumentForSummary(content: string, run: GeminiRun, summarizer: Option<string -> string>)
    returns (r: Result<string>)
    ensures Succeeded(run) ==> r == Ok(Strip(run.stdout))
    ensures !Succeeded(run) && summarizer.None? ==> r == Err(NoFallbackMessage)
    ensures !Succeeded(run) && summarizer.Some? ==>
      r == Ok(Join(Summaries(Chunks(content, DefaultChunkSize), summarizer.value), " "))
    ensures !Succeeded(run) && summarizer.Some? && Blank(content) ==> r == Ok("")
  {
    var gemini := SummaryWithGemini(run);
    if gemini.Ok? {
      return gemini;
    }
    if summarizer.None? {
      return Err(NoFallbackMessage);
    }
    var chunks := ChunkText(content, DefaultChunkSize);
    var summaries := Summaries(chunks, summarizer.value);
    r := Ok(Join(summaries, " "));
  }

  /** `process_document_for_flashcards`. `generator` is `None` when the
      local pipeline failed to load. */
  method ProcessDocumentForFlashcards(content: string, run: GeminiRun, generator: Option<string -> string>)
    returns (command: string, r: Result<seq<Card>>)
    ensures command == GeminiCli.FlashcardCommandAsWritten(content)
    ensures '"' in content ==> GeminiCli.Argument(command) != Some(GeminiCli.FlashcardPrompt(content))
    ensures GeminiCli.Plain(content) ==> GeminiCli.Argument(command) == Some(GeminiCli.FlashcardPrompt(content))
    ensures Succeeded(run) ==> r == Ok(CardsOf(SplitOn(Strip(run.stdout), QuestionMarker)))
    ensures !Succeeded(run) && generator.None? ==> r == Err(NoFallbackMessage)
    ensures !Succeeded(run) && generator.Some? ==>
      r == Ok(FallbackCards(Chunks(content, DefaultChunkSize), generator.value))
    ensures !Succeeded(run) && generator.Some? ==> |r.value| <= |Chunks(content, DefaultChunkSize)|
  {
    var gemini;
    command, gemini := FlashcardsWithGemini(content, run);
    if gemini.Ok? {
      return command, gemini;
    }
    if generator.None? {
      return command, Err(NoFallbackMessage);
    }
    var chunks := ChunkText(content, DefaultChunkSize);
    var allFlashcards := CollectLocalCards(chunks, generator.value);
    r := Ok(allFlashcards);
  }

  /** The fallback loop of `process_document_for_flashcards`: extend the
      list by each chunk's cards, in chunk order. */
  method CollectLocalCards(chunks: seq<string>, generate: string -> string) returns (allFlashcards: seq<Card>)
    ensures allFlashcards == FallbackCards(chunks, generate)
    ensures |allFlashcards| <= |chunks|
  {
    allFlashcards := [];
    for k := 0 to |chunks|
      invariant allFlashcards == FallbackCards(chunks[..k], generate)
    {
      assert chunks[..k + 1][..k] == chunks[..k];
      allFlashcards := allFlashcards + LocalCards(chunks[k], generate);
    }
    assert chunks[..|chunks|] == chunks;
  }
}
