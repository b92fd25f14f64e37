/** The shell command line `generate_flashcards_with_gemini`
    (backend/core/ai.py) builds around its prompt, and whether the `gemini`
    program receives that prompt as its `-p` argument. The command runs
    through `/bin/sh`, whose double quotes follow section 2.2.3 of the POSIX
    Shell Command Language: inside them a backslash escapes only `$`, `` ` ``,
    `"`, `\` and newline, and `$` and `` ` `` start expansions. */
module GeminiCli {
  import opened Wrappers
  import opened PyStr

  const CommandHead := "gemini -p \""
  /** The instruction of the flashcard prompt, written in short pieces. */
  const FlashcardInstruction :=
    "Generate flashcards " + "(question and answer" + " pairs) from the fol" + "lowing text. Format "
    + "each flashcard as 'Q" + ": [Question]\nA: [Ans" + "wer]'.\n\n"

  /** The prompt: the instruction followed by the document text. */
  function FlashcardPrompt(text: string): string
  {
    FlashcardInstruction + text
  }

  /** The characters that keep a special meaning inside double quotes. */
  predicate Special(c: char)
  {
    c == '"' || c == '\\' || c == '$' || c == '`'
  }

  /** No character of `s` is special inside double quotes. */
  predicate Plain(s: string)
  {
    forall i :: 0 <= i < |s| ==> !Special(s[i])
  }

  lemma PlainAppend(a: string, b: string)
    requires Plain(a) && Plain(b)
    ensures Plain(a + b)
  {
    forall i | 0 <= i < |a + b|
      ensures !Special((a + b)[i])
    {
      if i < |a| {
        assert (a + b)[i] == a[i];
      } else {
        assert (a + b)[i] == b[i - |a|];
      }
    }
  }

  /** Each piece of the instruction is plain. */
  lemma InstructionPiecesPlain()
    ensures Plain("Generate flashcards ")
    ensures Plain("(question and answer")
    ensures Plain(" pairs) from the fol")
    ensures Plain("lowing text. Format ")
    ensures Plain("each flashcard as 'Q")
    ensures Plain(": [Question]\nA: [Ans")
    ensures Plain("wer]'.\n\n")
  {
  }

  /** The instruction itself holds no `"`, `\`, `$` or `` ` ``. */
  lemma InstructionPlain()
    ensures Plain(FlashcardInstruction)
  {
    var p1 := "Generate flashcards ";
    var p2 := "(question and answer";
    var p3 := " pairs) from the fol";
    var p4 := "lowing text. Format ";
    var p5 := "each flashcard as 'Q";
    var p6 := ": [Question]\nA: [Ans";
    var p7 := "wer]'.\n\n";
    InstructionPiecesPlain();
    PlainAppend(p1, p2);
    PlainAppend(p1 + p2, p3);
    PlainAppend(p1 + p2 + p3, p4);
    PlainAppend(p1 + p2 + p3 + p4, p5);
    PlainAppend(p1 + p2 + p3 + p4 + p5, p6);
    PlainAppend(p1 + p2 + p3 + p4 + p5 + p6, p7);
  }

  /** The number of `"` in `s`. */
  function Quotes(s: string): nat
  {
    if s == [] then 0 else (if s[0] == '"' then 1 else 0) + Quotes(s[1..])
  }

  /** A character put in front of a word read so far. */
  function Prepend(c: char, r: Option<(string, string)>): Option<(string, string)>
  {
    match r
    case None => None
    case Some((w, rest)) => Some(([c] + w, rest))
  }

  /** The shell reading a double-quoted word from just after its opening
      quote: the word's value and what follows its closing quote. `None`
      when the quote is never closed, or when an unescaped `$` or `` ` ``
      would start an expansion (every such `$` is counted, including the few
      the shell would keep literally). */
  function Unquote(s: string): Option<(string, string)>
    decreases |s|
  {
    if s == [] then None
    else if s[0] == '"' then Some(("", s[1..]))
    else if s[0] == '$' || s[0] == '`' then None
    else if s[0] == '\\' && |s| >= 2 && s[1] == '\n' then Unquote(s[2..])
    else if s[0] == '\\' && |s| >= 2 && Special(s[1]) then Prepend(s[1], Unquote(s[2..]))
    else Prepend(s[0], Unquote(s[1..]))
  }

  /** An ordinary character stands for itself. */
  lemma UnquoteLiteral(c: char, s: string)
    requires !Special(c)
    ensures Unquote([c] + s) == Prepend(c, Unquote(s))
  {
    assert ([c] + s)[1..] == s;
  }

  /** A backslash and a special character stand for that character. */
  lemma UnquoteEscaped(c: char, s: string)
    requires Special(c)
    ensures Unquote(['\\', c] + s) == Prepend(c, Unquote(s))
  {
    assert (['\\', c] + s)[2..] == s;
  }

  /** The `-p` argument `gemini` receives from a command line of the form
      `gemini -p "..."`: `None` when the quoted word cannot be read
      literally, or when anything follows its closing quote. The shell
      would join such a following piece to the word; this model does not
      read it. */
  function Argument(command: string): Option<string>
  {
    if |command| >= |CommandHead| && command[..|CommandHead|] == CommandHead then
      match Unquote(command[|CommandHead|..])
      case None => None
      case Some((arg, rest)) => if rest == [] then Some(arg) else None
    else None
  }

  // ---------------------------------------------------------------------
  // As written

  /** The command as written: `.replace('"', '\"')` replaces every `"` with
      the Python literal `'\"'`, which is the one-character string `"`. */
  function FlashcardCommandAsWritten(text: string): (r: string)
    ensures r == CommandHead + FlashcardPrompt(text) + "\""
  {
    ReplaceCharBySelf(FlashcardPrompt(text), '"');
    CommandHead + ReplaceChar(FlashcardPrompt(text), '"', "\"") + "\""
  }

  /** Replacing a character by itself changes nothing. */
  lemma {:induction false} ReplaceCharBySelf(s: string, c: char)
    ensures ReplaceChar(s, c, [c]) == s
  {
    if s != [] {
      ReplaceCharBySelf(s[1..], c);
      assert s == [s[0]] + s[1..];
    }
  }

  lemma QuotesCons(c: char, s: string)
    ensures Quotes([c] + s) == (if c == '"' then 1 else 0) + Quotes(s)
  {
    assert ([c] + s)[1..] == s;
  }

  lemma {:induction false} QuotesAppend(a: string, b: string)
    ensures Quotes(a + b) == Quotes(a) + Quotes(b)
  {
    if a == [] {
      assert a + b == b;
    } else {
      QuotesAppend(a[1..], b);
      assert (a + b)[1..] == a[1..] + b;
    }
  }

  lemma {:induction false} QuotesIn(s: string)
    requires '"' in s
    ensures Quotes(s) > 0
  {
    if s[0] != '"' {
      assert '"' in s[1..];
      QuotesIn(s[1..]);
    }
  }

  /** Reading a double-quoted word consumes the closing quote, and every
      `"` in the word costs a backslash: the word, its quotes and the rest
      together are shorter than the input. */
  lemma {:induction false} UnquoteShrinks(s: string)
    ensures Unquote(s).Some? ==>
      |Unquote(s).value.0| + Quotes(Unquote(s).value.0) + |Unquote(s).value.1| < |s|
    decreases |s|
  {
    if s == [] || s[0] == '"' || s[0] == '$' || s[0] == '`' {
    } else if s[0] == '\\' && |s| >= 2 && s[1] == '\n' {
      UnquoteShrinks(s[2..]);
    } else if s[0] == '\\' && |s| >= 2 && Special(s[1]) {
      UnquoteShrinks(s[2..]);
      if Unquote(s[2..]).Some? {
        QuotesCons(s[1], Unquote(s[2..]).value.0);
      }
    } else {
      UnquoteShrinks(s[1..]);
      if Unquote(s[1..]).Some? {
        QuotesCons(s[0], Unquote(s[1..]).value.0);
      }
    }
  }

  /** The command as written never hands `gemini` the prompt of a document
      that contains a `"`: the first unescaped `"` closes the quoted word,
      and a `"` the shell keeps needs a backslash the prompt does not
      have. */
  lemma AsWrittenLosesQuotedText(text: string)
    requires '"' in text
    ensures Argument(FlashcardCommandAsWritten(text)) != Some(FlashcardPrompt(text))
  {
    var p := FlashcardPrompt(text);
    ReplaceCharBySelf(p, '"');
    var command := FlashcardCommandAsWritten(text);
    assert command[|CommandHead|..] == p + "\"";
    QuotesIn(text);
    QuotesAppend(FlashcardInstruction, text);
    UnquoteShrinks(p + "\"");
  }

  /** For instance, a document reading `say "hi"`. */
  lemma QuotedWordBreaksCommand()
    ensures Argument(FlashcardCommandAsWritten("say \"hi\"")) != Some(FlashcardPrompt("say \"hi\""))
  {
    assert "say \"hi\""[4] == '"';
    AsWrittenLosesQuotedText("say \"hi\"");
  }

  /** A document without `"`, `\`, `$` or `` ` `` does reach `gemini`
      intact through the command as written. */
  lemma AsWrittenCarriesPlainText(text: string)
    requires Plain(text)
    ensures Argument(FlashcardCommandAsWritten(text)) == Some(FlashcardPrompt(text))
  {
    InstructionPlain();
    PlainAppend(FlashcardInstruction, text);
    EscapePlain(FlashcardPrompt(text));
    FlashcardCommandCarriesPrompt(text);
  }

  // ---------------------------------------------------------------------
  // Corrected

  /** A backslash before every character that is special inside double
      quotes. */
  function Escape(p: string): string
  {
    if p == [] then [] else (if Special(p[0]) then ['\\', p[0]] else [p[0]]) + Escape(p[1..])
  }

  /** Escaping leaves a plain text unchanged. */
  lemma {:induction false} EscapePlain(p: string)
    requires Plain(p)
    ensures Escape(p) == p
  {
    if p != [] {
      assert Plain(p[1..]) by {
        forall i | 0 <= i < |p[1..]|
          ensures !Special(p[1..][i])
        {
          assert p[1..][i] == p[i + 1];
        }
      }
      EscapePlain(p[1..]);
      assert !Special(p[0]);
      assert [p[0]] + p[1..] == p;
    }
  }

  /** The command with the prompt escaped for double quotes. */
  function FlashcardCommand(text: string): string
  {
    CommandHead + Escape(FlashcardPrompt(text)) + "\""
  }

  /** The shell reads an escaped word back exactly. */
  lemma {:induction false} UnquoteEscape(p: string, rest: string)
    ensures Unquote(Escape(p) + "\"" + rest) == Some((p, rest))
  {
    if p == [] {
      assert Escape(p) + "\"" + rest == "\"" + rest;
    } else {
      var tail := Escape(p[1..]) + "\"" + rest;
      UnquoteEscape(p[1..], rest);
      if Special(p[0]) {
        assert Escape(p) + "\"" + rest == ['\\', p[0]] + tail;
        UnquoteEscaped(p[0], tail);
      } else {
        assert Escape(p) + "\"" + rest == [p[0]] + tail;
        UnquoteLiteral(p[0], tail);
      }
      assert [p[0]] + p[1..] == p;
    }
  }

  /** `gemini` receives the whole prompt, whatever the document holds. */
  lemma FlashcardCommandCarriesPrompt(text: string)
    ensures Argument(FlashcardCommand(text)) == Some(FlashcardPrompt(text))
  {
    var p := FlashcardPrompt(text);
    UnquoteEscape(p, "");
    assert FlashcardCommand(text)[|CommandHead|..] == Escape(p) + "\"" + "";
  }
}
