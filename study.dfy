/** The study page of the browser client (frontend/src/pages/StudyView.jsx):
    the document, summary and flashcard sub-states with their own loading
    and error slots, the circular flashcard cursor and the flip flag. Each
    handler runs as one step; the replies it awaits are inputs and the
    requests it sends are outputs. */
module StudyPage {
  import opened Wrappers
  import opened Js
  import opened Api

  const DocumentFallback := "Failed to fetch document details."
  const SummaryFallback := "Failed to generate summary."
  const FlashcardsFallback := "Failed to generate flashcards."

  /** `v.length` of the deck: arrays and strings have one; any other deck
      value has none, which the page's `length > 0` test treats as no cards. */
  function DeckLength(v: Value): (r: nat)
    ensures r > 0 <==> (v.Arr? && v.elems != []) || (v.Str? && v.s != [])
    ensures v.Arr? ==> r == |v.elems|
  {
    match v
    case Arr(elems) => |elems|
    case Str(s) => |s|
    case _ => 0
  }

  /** `v[i]` of the deck. */
  function CardAt(v: Value, i: int): (r: Value)
    ensures !(0 <= i < DeckLength(v)) ==> r == Undefined
    ensures 0 <= i < DeckLength(v) && v.Arr? ==> r == v.elems[i]
  {
    if 0 <= i < DeckLength(v) then
      match v
      case Arr(elems) => elems[i]
      case Str(s) => Str([s[i]])
      case _ => Undefined
    else Undefined
  }

  // ---------------------------------------------------------------------
  // The cursor step. Both operands of `%` are non-negative here, so
  // JavaScript's truncating remainder and Dafny's agree.

  /** `(prevIndex + 1) % flashcards.length` */
  function NextIndex(i: int, n: int): (r: int)
    requires 0 <= i && n >= 1
    ensures 0 <= r < n
    ensures i < n - 1 ==> r == i + 1
    ensures i == n - 1 ==> r == 0
  {
    (i + 1) % n
  }

  /** `(prevIndex - 1 + flashcards.length) % flashcards.length` */
  function PrevIndex(i: int, n: int): (r: int)
    requires 0 <= i && n >= 1
    ensures 0 <= r < n
    ensures 0 < i < n ==> r == i - 1
    ensures i == 0 ==> r == n - 1
  {
    (i - 1 + n) % n
  }

  /** Stepping back undoes stepping forward. */
  lemma PrevAfterNext(i: int, n: int)
    requires 0 <= i < n
    ensures PrevIndex(NextIndex(i, n), n) == i
  {
    if i < n - 1 {
      assert NextIndex(i, n) == i + 1;
    } else {
      assert NextIndex(i, n) == 0;
    }
  }

  /** Stepping forward undoes stepping back. */
  lemma NextAfterPrev(i: int, n: int)
    requires 0 <= i < n
    ensures NextIndex(PrevIndex(i, n), n) == i
  {
    if i > 0 {
      assert PrevIndex(i, n) == i - 1;
    } else {
      assert PrevIndex(i, n) == n - 1;
    }
  }

  /** The cursor after `k` presses of the next button. */
  function Advance(i: int, n: int, k: nat): (r: int)
    requires 0 <= i && n >= 1
    ensures 0 <= r
    ensures k > 0 ==> r < n
  {
    if k == 0 then i else NextIndex(Advance(i, n, k - 1), n)
  }

  /** `k` presses, at most one round, move the cursor `k` places round the
      deck: `(i + k) mod n` written out for `k <= n`. */
  lemma {:induction false} AdvanceMoves(i: int, n: int, k: nat)
    requires 0 <= i < n && k <= n
    ensures Advance(i, n, k) == if i + k < n then i + k else i + k - n
  {
    if k > 0 {
      AdvanceMoves(i, n, k - 1);
    }
  }

  /** `n` presses bring the cursor back where it started. */
  lemma FullCycle(i: int, n: int)
    requires 0 <= i < n
    ensures Advance(i, n, n) == i
  {
    AdvanceMoves(i, n, n);
  }

  // ---------------------------------------------------------------------
  // What the AI replies yield

  /** What `handleSummarize` stores or reports once the request has
      settled: `data.summary`, or a TypeError when `data` is nullish. */
  function SummaryFrom(settled: Outcome): (r: Outcome)
    ensures settled.Threw? ==> r == settled
    ensures settled.Returned? ==> (r.Threw? <==> Nullish(settled.value))
    ensures r.Returned? ==> settled.Returned? && r.value == Property(settled.value, "summary")
  {
    match settled
    case Threw(e) => Threw(e)
    case Returned(data) => Get(data, "summary")
  }

  /** What `handleGenerateFlashcards` stores or reports once the request
      has settled: `data.flashcards` when it is truthy, else `[]`, or a
      TypeError when `data` is nullish. */
  function DeckFrom(settled: Outcome): (r: Outcome)
    ensures settled.Threw? ==> r == settled
    ensures settled.Returned? ==> (r.Threw? <==> Nullish(settled.value))
    ensures r.Returned? ==> settled.Returned? && Truthy(r.value)
    ensures r.Returned? && Truthy(Property(settled.value, "flashcards")) ==> r.value == Property(settled.value, "flashcards")
    ensures r.Returned? && !Truthy(Property(settled.value, "flashcards")) ==> r.value == Arr([])
  {
    match settled
    case Threw(e) => Threw(e)
    case Returned(data) =>
      match Get(data, "flashcards")
      case Threw(e) => Threw(e)
      case Returned(deck) => Returned(if Truthy(deck) then deck else Arr([]))
  }

  /** The summary endpoint answers `{"summary_text": ...}`; the page reads
      `summary`, so it stores `undefined` and keeps showing its
      placeholder. */
  lemma SummaryTextIsNotRead(items: map<string, string>, documentId: Value, text: string)
    requires HasToken(items)
    ensures SummaryFrom(CallOutcome(items, SummarizeDocument(documentId), Response(true, Parsed(Obj(map["summary_text" := Str(text)]))))) == Returned(Undefined)
  {
  }

  /** The flashcard endpoint answers a bare list of cards; the page reads
      its `flashcards` property, so the deck becomes empty however many
      cards came back. */
  lemma BareCardListGivesEmptyDeck(items: map<string, string>, documentId: Value, cards: seq<Value>)
    requires HasToken(items)
    ensures DeckFrom(CallOutcome(items, GenerateFlashcards(documentId), Response(true, Parsed(Arr(cards))))) == Returned(Arr([]))
  {
  }

  class StudyView {
    const store: LocalStorage
    const baseUrl: string
    /** The `documentId` route parameter (`undefined` when absent). */
    var documentId: Value
    var document: Value
    var loadingDoc: bool
    var docError: Option<string>
    var summary: Value
    var loadingSummary: bool
    var summaryError: Option<string>
    var flashcards: Value
    var loadingFlashcards: bool
    var flashcardsError: Option<string>
    var index: int
    var isFlipped: bool

    /** The cursor is a position of the deck, or 0 for an empty deck. */
    predicate CursorInDeck()
      reads this`index, this`flashcards
    {
      0 <= index && (index == 0 || index < DeckLength(flashcards))
    }

    /** A set error slot holds a non-empty message, so the page, which
        tests the slot for truthiness, shows it. */
    predicate MessagesShown()
      reads this`docError, this`summaryError, this`flashcardsError
    {
      && (docError.Some? ==> docError.value != "")
      && (summaryError.Some? ==> summaryError.value != "")
      && (flashcardsError.Some? ==> flashcardsError.value != "")
    }

    predicate Valid()
      reads this
    {
      CursorInDeck() && MessagesShown()
    }

    /** The current card is on screen: the document loaded without error,
        no flashcard request is pending, the deck is non-empty and the card
        at the cursor is truthy. */
    predicate CardShown()
      reads this
      ensures CardShown() ==> 0 <= index < DeckLength(flashcards)
    {
      && !loadingDoc && docError.None? && Truthy(document)
      && !loadingFlashcards && DeckLength(flashcards) > 0 && Truthy(CardAt(flashcards, index))
    }

    /** The previous and next buttons are shown and enabled; either of them
        then moves the cursor to another card. */
    predicate NavEnabled()
      reads this
      ensures NavEnabled() ==>
        && 0 <= index < DeckLength(flashcards)
        && NextIndex(index, DeckLength(flashcards)) != index
        && PrevIndex(index, DeckLength(flashcards)) != index
    {
      CardShown() && DeckLength(flashcards) > 1
    }

    constructor (store: LocalStorage, baseUrl: string, documentId: Value)
      ensures this.store == store && this.baseUrl == baseUrl && this.documentId == documentId
      ensures document == Null && loadingDoc && docError.None?
      ensures summary == Null && !loadingSummary && summaryError.None?
      ensures flashcards == Arr([]) && !loadingFlashcards && flashcardsError.None?
      ensures index == 0 && !isFlipped
      ensures Valid()
    {
      this.store := store;
      this.baseUrl := baseUrl;
      this.documentId := documentId;
      document := Null;
      loadingDoc := true;
      docError := None;
      summary := Null;
      loadingSummary := false;
      summaryError := None;
      flashcards := Arr([]);
      loadingFlashcards := false;
      flashcardsError := None;
      index := 0;
      isFlipped := false;
    }

    /** `fetchDocument`: nothing without a document id; otherwise the
        document on success, `docError` on failure. Only the document
        sub-state is in its frame. */
    method FetchDocument(reply: Reply) returns (sent: Option<HttpRequest>)
      requires Valid()
      modifies this`document, this`loadingDoc, this`docError
      ensures !Truthy(documentId) ==>
        sent.None? && document == old(document) && loadingDoc == old(loadingDoc) && docError == old(docError)
      ensures Truthy(documentId) ==>
        var outcome := CallOutcome(store.items, GetDocument(documentId), reply);
        && !loadingDoc
        && (sent.Some? <==> HasToken(store.items))
        && (sent.Some? ==> sent.value.url == baseUrl + ("/documents/" + ToJsString(documentId)) && sent.value.verb == GET)
        && (outcome.Returned? ==> document == outcome.value && docError.None?)
        && (outcome.Threw? ==> document == old(document) && docError == Some(MessageOr(outcome.message, DocumentFallback)))
      ensures Valid()
    {
      if !Truthy(documentId) {
        return None;
      }
      loadingDoc := true;
      docError := None;
      var outcome;
      sent, outcome := Invoke(store, baseUrl, GetDocument(documentId), reply);
      assert Route(GetDocument(documentId)).0 == "/documents/" + ToJsString(documentId);
      if outcome.Returned? {
        document := outcome.value;
      } else {
        docError := Some(MessageOr(outcome.message, DocumentFallback));
      }
      loadingDoc := false;
    }

    /** A change of the route's document id refetches the document and
        keeps the summary and flashcard state of the previous document. */
    method ChangeDocument(newId: Value, reply: Reply) returns (sent: Option<HttpRequest>)
      requires Valid()
      modifies this`documentId, this`document, this`loadingDoc, this`docError
      ensures documentId == newId
      ensures newId == old(documentId) ==>
        sent.None? && document == old(document) && loadingDoc == old(loadingDoc) && docError == old(docError)
      ensures newId != old(documentId) && !Truthy(newId) ==>
        sent.None? && document == old(document) && loadingDoc == old(loadingDoc) && docError == old(docError)
      ensures newId != old(documentId) && Truthy(newId) ==>
        var outcome := CallOutcome(store.items, GetDocument(newId), reply);
        && !loadingDoc
        && (sent.Some? <==> HasToken(store.items))
        && (sent.Some? ==> sent.value.url == baseUrl + ("/documents/" + ToJsString(newId)) && sent.value.verb == GET)
        && (outcome.Returned? ==> document == outcome.value && docError.None?)
        && (outcome.Threw? ==> document == old(document) && docError == Some(MessageOr(outcome.message, DocumentFallback)))
      ensures summary == old(summary) && summaryError == old(summaryError)
      ensures flashcards == old(flashcards) && flashcardsError == old(flashcardsError)
      ensures index == old(index) && isFlipped == old(isFlipped)
      ensures Valid()
    {
      if newId == documentId {
        return None;
      }
      documentId := newId;
      sent := FetchDocument(reply);
    }

    /** `handleSummarize`: `summary := data.summary` on success, the
        previous summary and `summaryError` otherwise; the flashcard state
        is not touched. */
    method HandleSummarize(reply: Reply) returns (sent: Option<HttpRequest>)
      requires Valid()
      modifies this`summary, this`loadingSummary, this`summaryError
      ensures sent.Some? <==> HasToken(store.items)
      ensures sent.Some? ==> sent.value.url == baseUrl + ("/ai/summarize/" + ToJsString(documentId)) && sent.value.verb == POST
      ensures var outcome := SummaryFrom(CallOutcome(store.items, SummarizeDocument(documentId), reply));
        && (outcome.Returned? ==> summary == outcome.value && summaryError.None?)
        && (outcome.Threw? ==> summary == old(summary) && summaryError == Some(MessageOr(outcome.message, SummaryFallback)))
      ensures !loadingSummary
      ensures Valid()
    {
      loadingSummary := true;
      summaryError := None;
      var outcome;
      sent, outcome := Invoke(store, baseUrl, SummarizeDocument(documentId), reply);
      assert Route(SummarizeDocument(documentId)).0 == "/ai/summarize/" + ToJsString(documentId);
      var text := SummaryFrom(outcome);
      if text.Returned? {
        summary := text.value;
      } else {
        summaryError := Some(MessageOr(text.message, SummaryFallback));
      }
      loadingSummary := false;
    }

    /** `handleGenerateFlashcards`: on success the deck is replaced, the
        cursor goes to the first card and the card shows its question; on
        failure only `flashcardsError` changes. The summary state is not
        touched. */
    method HandleGenerateFlashcards(reply: Reply) returns (sent: Option<HttpRequest>)
      requires Valid()
      modifies this`flashcards, this`loadingFlashcards, this`flashcardsError, this`index, this`isFlipped
      ensures sent.Some? <==> HasToken(store.items)
      ensures sent.Some? ==> sent.value.url == baseUrl + ("/ai/generate-flashcards/" + ToJsString(documentId)) && sent.value.verb == POST
      ensures var outcome := DeckFrom(CallOutcome(store.items, GenerateFlashcards(documentId), reply));
        && (outcome.Returned? ==> flashcards == outcome.value && index == 0 && !isFlipped && flashcardsError.None?)
        && (outcome.Threw? ==>
              && flashcards == old(flashcards) && index == old(index) && isFlipped == old(isFlipped)
              && flashcardsError == Some(MessageOr(outcome.message, FlashcardsFallback)))
      ensures !loadingFlashcards
      ensures Valid()
    {
      loadingFlashcards := true;
      flashcardsError := None;
      var outcome;
      sent, outcome := Invoke(store, baseUrl, GenerateFlashcards(documentId), reply);
      assert Route(GenerateFlashcards(documentId)).0 == "/ai/generate-flashcards/" + ToJsString(documentId);
      var deck := DeckFrom(outcome);
      if deck.Returned? {
        flashcards := deck.value;
        index := 0;
        isFlipped := false;
      } else {
        flashcardsError := Some(MessageOr(deck.message, FlashcardsFallback));
      }
      loadingFlashcards := false;
    }

    /** `handleNextFlashcard`, with the delayed index update applied at
        once. */
    method NextFlashcard()
      requires Valid() && NavEnabled()
      modifies this`index, this`isFlipped
      ensures index == NextIndex(old(index), DeckLength(flashcards)) && !isFlipped
      ensures Valid()
    {
      isFlipped := false;
      index := NextIndex(index, DeckLength(flashcards));
    }

    /** `handlePrevFlashcard`, with the delayed index update applied at
        once. */
    method PrevFlashcard()
      requires Valid() && NavEnabled()
      modifies this`index, this`isFlipped
      ensures index == PrevIndex(old(index), DeckLength(flashcards)) && !isFlipped
      ensures Valid()
    {
      isFlipped := false;
      index := PrevIndex(index, DeckLength(flashcards));
    }

    /** A click on the shown card turns it over. */
    method Flip()
      requires CardShown()
      modifies this`isFlipped
      ensures isFlipped == !old(isFlipped)
    {
      isFlipped := !isFlipped;
    }
  }
}
