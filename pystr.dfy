/** The Python `str` operations the backend's text processing uses:
    `isspace`, `split()`, `strip()`, `split(sep)`, `split(sep, 1)`, `in`,
    `replace` and `join`. A `char` is a Unicode scalar value, so `len` is
    the length of the sequence. */
module PyStr {
  import opened Wrappers

  /** `c.isspace()`: the characters Python's `split()` and `strip()` treat
      as whitespace. */
  predicate IsSpace(c: char)
  {
    c == ' ' || '\t' <= c <= '\r' || '\U{1c}' <= c <= '\U{1f}'
    || c == '\U{85}' || c == '\U{a0}' || c == '\U{1680}'
    || '\U{2000}' <= c <= '\U{200a}' || c == '\U{2028}' || c == '\U{2029}'
    || c == '\U{202f}' || c == '\U{205f}' || c == '\U{3000}'
  }

  /** Empty or whitespace only. */
  predicate Blank(s: string)
  {
    forall i :: 0 <= i < |s| ==> IsSpace(s[i])
  }

  /** A non-empty run of non-whitespace characters: what `split()` yields. */
  predicate IsToken(w: string)
  {
    |w| > 0 && forall i :: 0 <= i < |w| ==> !IsSpace(w[i])
  }

  predicate AllTokens(ws: seq<string>)
  {
    forall i :: 0 <= i < |ws| ==> IsToken(ws[i])
  }

  /** Length of the leading run of non-whitespace characters. */
  function TokenLength(s: string): (k: nat)
    ensures k <= |s|
    ensures forall i :: 0 <= i < k ==> !IsSpace(s[i])
    ensures k < |s| ==> IsSpace(s[k])
  {
    if s == [] || IsSpace(s[0]) then 0 else 1 + TokenLength(s[1..])
  }

  /** `s.split()`: the maximal runs of non-whitespace characters, in order. */
  function Words(s: string): (ws: seq<string>)
    ensures AllTokens(ws)
    decreases |s|
  {
    if s == [] then []
    else if IsSpace(s[0]) then Words(s[1..])
    else
      var k := TokenLength(s);
      [s[..k]] + Words(s[k..])
  }

  /** `sep.join(parts)`. */
  function Join(parts: seq<string>, sep: string): string
  {
    if |parts| == 0 then ""
    else if |parts| == 1 then parts[0]
    else parts[0] + sep + Join(parts[1..], sep)
  }

  /** `s.lstrip()` (see LStripSpec). */
  function LStrip(s: string): string
  {
    if s != [] && IsSpace(s[0]) then LStrip(s[1..]) else s
  }

  /** `s.rstrip()` (see RStripSpec). */
  function RStrip(s: string): string
  {
    if s != [] && IsSpace(s[|s| - 1]) then RStrip(s[..|s| - 1]) else s
  }

  /** `s.strip()` (see StripSpec). */
  function Strip(s: string): string
  {
    RStrip(LStrip(s))
  }

  predicate StartsWith(s: string, p: string)
  {
    |p| <= |s| && s[..|p|] == p
  }

  /** `s.find(p)`, with `None` for -1: the first index at which `p` occurs
      (see FindIsFirst). */
  function Find(s: string, p: string): (r: Option<nat>)
    ensures r.Some? ==> r.value + |p| <= |s| && s[r.value..r.value + |p|] == p
    decreases |s|
  {
    if StartsWith(s, p) then Some(0)
    else if s == [] then None
    else
      match Find(s[1..], p)
      case None => None
      case Some(i) => Some(i + 1)
  }

  /** `Find` reports the first occurrence, and `None` only when there is
      none. */
  lemma {:induction false} FindIsFirst(s: string, p: string)
    ensures Find(s, p).Some? ==> forall j :: 0 <= j < Find(s, p).value ==> !StartsWith(s[j..], p)
    ensures Find(s, p).None? ==> forall j :: 0 <= j <= |s| ==> !StartsWith(s[j..], p)
    decreases |s|
  {
    if !StartsWith(s, p) && s != [] {
      FindIsFirst(s[1..], p);
      assert forall j :: 1 <= j <= |s| ==> s[j..] == s[1..][j - 1..];
    }
  }

  /** `p in s`. */
  predicate Contains(s: string, p: string)
  {
    Find(s, p).Some?
  }

  /** An occurrence of `p` in a prefix of `s` is an occurrence in `s`. */
  lemma {:induction false} ContainsPrefix(s: string, i: nat, p: string)
    requires i <= |s| && Contains(s[..i], p)
    ensures exists j :: 0 <= j <= i - |p| && StartsWith(s[j..], p)
  {
    var j := Find(s[..i], p).value;
    assert s[..i][j..j + |p|] == s[j..j + |p|];
    assert s[j..][..|p|] == s[j..j + |p|];
  }

  /** `s.split(sep, 1)` unpacked into two parts, or `None` where Python's
      unpacking would raise ValueError because `sep` does not occur. The
      split is at the first occurrence (see FindIsFirst). The last ensures
      alone would pin that occurrence only for a separator that cannot
      overlap itself, such as `"A: "`, `"Q: "` or `"answer:"`; for `"aa"`
      in `"aaa"` it also admits `("a", "")`. */
  function SplitFirst(s: string, sep: string): (r: Option<(string, string)>)
    requires |sep| > 0
    ensures r.None? <==> !Contains(s, sep)
    ensures r.Some? ==> s == r.value.0 + sep + r.value.1
    ensures r.Some? ==> !Contains(r.value.0, sep)
    ensures r.Some? ==> Find(s, sep) == Some(|r.value.0|)
  {
    match Find(s, sep)
    case None => None
    case Some(i) =>
      FindIsFirst(s, sep);
      assert s == s[..i] + sep + s[i + |sep|..];
      assert !Contains(s[..i], sep) by {
        if Contains(s[..i], sep) {
          ContainsPrefix(s, i, sep);
        }
      }
      Some((s[..i], s[i + |sep|..]))
  }

  /** `s.split(sep)`: the pieces between the occurrences of `sep`, found left
      to right, each cut at the first occurrence left. Joining them with
      `sep` gives `s` back, and no piece contains `sep`; for a separator that
      cannot overlap itself, as all those used here, these two facts fix the
      pieces. */
  function SplitOn(s: string, sep: string): (parts: seq<string>)
    requires |sep| > 0
    ensures |parts| >= 1
    ensures forall i :: 0 <= i < |parts| ==> !Contains(parts[i], sep)
    ensures Join(parts, sep) == s
    decreases |s|
  {
    match SplitFirst(s, sep)
    case None => [s]
    case Some((a, b)) =>
      var rest := SplitOn(b, sep);
      assert ([a] + rest)[1..] == rest;
      [a] + rest
  }

  /** `s.replace(pat, "")`: copy the text up to the next occurrence of
      `pat`, skip that occurrence and carry on after it, so occurrences are
      found left to right and never overlap. */
  function RemoveAll(s: string, pat: string): (r: string)
    requires |pat| > 0
    ensures |r| <= |s|
    ensures !Contains(s, pat) ==> r == s
    decreases |s|
  {
    match Find(s, pat)
    case None => s
    case Some(i) => s[..i] + RemoveAll(s[i + |pat|..], pat)
  }

  /** `s.replace(pat, "")` deletes exactly the occurrences that `s.split(pat)`
      cuts at and keeps everything between them in order: it is
      `"".join(s.split(pat))`. */
  lemma {:induction false} RemoveAllJoinsSplit(s: string, pat: string)
    requires |pat| > 0
    ensures RemoveAll(s, pat) == Join(SplitOn(s, pat), "")
    decreases |s|
  {
    match SplitFirst(s, pat)
    case None =>
    case Some((a, b)) =>
      RemoveAllJoinsSplit(b, pat);
      var rest := SplitOn(b, pat);
      calc {
        Join(SplitOn(s, pat), "");
        { assert SplitOn(s, pat) == [a] + rest; assert ([a] + rest)[1..] == rest; }
        a + "" + Join(rest, "");
        { assert a + "" == a; }
        a + RemoveAll(b, pat);
        { assert s[..|a|] == a && s[|a| + |pat|..] == b; }
        RemoveAll(s, pat);
      }
  }

  /** `s.replace(c, r)` for a single character `c`. */
  function ReplaceChar(s: string, c: char, r: string): string
  {
    if s == [] then [] else (if s[0] == c then r else [s[0]]) + ReplaceChar(s[1..], c, r)
  }

  // ---------------------------------------------------------------------
  // Lemmas

  /** `split()` finds no token exactly in a blank string. */
  lemma {:induction false} WordsEmptyIffBlank(s: string)
    ensures Words(s) == [] <==> Blank(s)
    decreases |s|
  {
    if s != [] && IsSpace(s[0]) {
      WordsEmptyIffBlank(s[1..]);
      assert Blank(s) <==> Blank(s[1..]) by {
        assert forall i :: 1 <= i < |s| ==> s[i] == s[1..][i - 1];
      }
    }
  }

  lemma TokenLengthOfToken(w: string, t: string)
    requires IsToken(w) && (t == [] || IsSpace(t[0]))
    ensures TokenLength(w + t) == |w|
    decreases |w|
  {
    if |w| > 1 {
      assert (w + t)[1..] == w[1..] + t;
      TokenLengthOfToken(w[1..], t);
    }
  }

  /** A token followed by whitespace (or nothing) is the first word. */
  lemma WordsOfTokenThen(w: string, t: string)
    requires IsToken(w) && (t == [] || IsSpace(t[0]))
    ensures Words(w + t) == [w] + Words(t)
  {
    TokenLengthOfToken(w, t);
    assert (w + t)[..|w|] == w;
    assert (w + t)[|w|..] == t;
  }

  /** `split()` undoes `" ".join` on tokens. */
  lemma {:induction false} WordsOfJoin(ws: seq<string>)
    requires AllTokens(ws)
    ensures Words(Join(ws, " ")) == ws
  {
    if |ws| == 1 {
      WordsOfTokenThen(ws[0], "");
      assert ws[0] + "" == ws[0];
    } else if |ws| > 1 {
      var rest := Join(ws[1..], " ");
      assert Join(ws, " ") == ws[0] + (" " + rest);
      WordsOfTokenThen(ws[0], " " + rest);
      assert (" " + rest)[1..] == rest;
      WordsOfJoin(ws[1..]);
      assert ws == [ws[0]] + ws[1..];
    }
  }

  /** Appending a part to a non-empty join. */
  lemma {:induction false} JoinSnoc(ws: seq<string>, t: string, sep: string)
    requires |ws| > 0
    ensures Join(ws + [t], sep) == Join(ws, sep) + sep + t
  {
    assert (ws + [t])[1..] == ws[1..] + [t];
    if |ws| > 1 {
      JoinSnoc(ws[1..], t, sep);
    }
  }

  /** A join of tokens starts and ends with a non-whitespace character. */
  lemma {:induction false} JoinEdges(ws: seq<string>)
    requires AllTokens(ws) && |ws| > 0
    ensures var j := Join(ws, " "); |j| > 0 && !IsSpace(j[0]) && !IsSpace(j[|j| - 1])
    ensures |Join(ws, " ")| >= |ws[0]|
  {
    if |ws| > 1 {
      JoinEdges(ws[1..]);
    }
  }

  /** `strip()` removes exactly one trailing blank from a join of tokens
      followed by a space. */
  lemma StripJoinSpace(ws: seq<string>)
    requires AllTokens(ws) && |ws| > 0
    ensures Strip(Join(ws, " ") + " ") == Join(ws, " ")
  {
    var j := Join(ws, " ");
    JoinEdges(ws);
    var s := j + " ";
    assert LStrip(s) == s;
    assert s[..|s| - 1] == j;
    assert RStrip(j) == j;
  }

  /** Replacing a non-blank character by a string that starts with a
      non-blank character neither creates nor destroys all-blankness. */
  lemma {:induction false} BlankReplaceChar(s: string, c: char, r: string)
    requires !IsSpace(c) && |r| > 0 && !IsSpace(r[0])
    ensures Blank(ReplaceChar(s, c, r)) <==> Blank(s)
  {
    if s != [] {
      BlankReplaceChar(s[1..], c, r);
      var head := if s[0] == c then r else [s[0]];
      var t := ReplaceChar(s[1..], c, r);
      assert ReplaceChar(s, c, r) == head + t;
      assert Blank(head + t) <==> Blank(head) && Blank(t) by {
        assert forall i :: 0 <= i < |head| ==> (head + t)[i] == head[i];
        assert forall i :: 0 <= i < |t| ==> (head + t)[|head| + i] == t[i];
      }
      assert Blank(s) <==> IsSpace(s[0]) && Blank(s[1..]) by {
        assert forall i :: 1 <= i < |s| ==> s[i] == s[1..][i - 1];
      }
    }
  }

  /** `lstrip()` removes the leading whitespace and nothing else: what is
      left is a suffix of `s` that is empty exactly when `s` is blank, and
      otherwise starts with a non-whitespace character. */
  lemma {:induction false} LStripSpec(s: string)
    ensures |LStrip(s)| <= |s| && LStrip(s) == s[|s| - |LStrip(s)|..]
    ensures Blank(s[..|s| - |LStrip(s)|])
    ensures LStrip(s) == [] <==> Blank(s)
    ensures LStrip(s) != [] ==> !IsSpace(LStrip(s)[0])
  {
    LStripSuffix(s);
    LStripBlank(s);
  }

  lemma {:induction false} LStripSuffix(s: string)
    ensures |LStrip(s)| <= |s| && LStrip(s) == s[|s| - |LStrip(s)|..]
    ensures Blank(s[..|s| - |LStrip(s)|])
  {
    if s != [] && IsSpace(s[0]) {
      LStripSuffix(s[1..]);
      var k := |s| - |LStrip(s)|;
      assert s[1..][..k - 1] == s[1..k];
    }
  }

  lemma {:induction false} LStripBlank(s: string)
    ensures LStrip(s) == [] <==> Blank(s)
    ensures LStrip(s) != [] ==> !IsSpace(LStrip(s)[0])
  {
    if s != [] && IsSpace(s[0]) {
      LStripBlank(s[1..]);
      assert Blank(s) <==> Blank(s[1..]) by {
        assert forall i :: 1 <= i < |s| ==> s[i] == s[1..][i - 1];
      }
    }
  }

  /** `rstrip()` removes the trailing whitespace and nothing else. */
  lemma {:induction false} RStripSpec(s: string)
    ensures |RStrip(s)| <= |s| && RStrip(s) == s[..|RStrip(s)|]
    ensures Blank(s[|RStrip(s)|..])
    ensures RStrip(s) == [] <==> Blank(s)
    ensures RStrip(s) != [] ==> !IsSpace(RStrip(s)[|RStrip(s)| - 1])
  {
    RStripPrefix(s);
    RStripBlank(s);
  }

  lemma {:induction false} RStripPrefix(s: string)
    ensures |RStrip(s)| <= |s| && RStrip(s) == s[..|RStrip(s)|]
    ensures Blank(s[|RStrip(s)|..])
  {
    if s != [] && IsSpace(s[|s| - 1]) {
      var t := s[..|s| - 1];
      RStripPrefix(t);
      var k := |RStrip(s)|;
      assert t[k..] + [s[|s| - 1]] == s[k..];
    }
  }

  lemma {:induction false} RStripBlank(s: string)
    ensures RStrip(s) == [] <==> Blank(s)
    ensures RStrip(s) != [] ==> !IsSpace(RStrip(s)[|RStrip(s)| - 1])
  {
    if s != [] && IsSpace(s[|s| - 1]) {
      var t := s[..|s| - 1];
      RStripBlank(t);
      assert Blank(s) <==> Blank(t) by {
        assert forall i :: 0 <= i < |t| ==> s[i] == t[i];
      }
    }
  }

  /** `strip()` leaves a contiguous piece of `s`, with only whitespace cut
      off at either end; the piece is empty exactly when `s` is blank, and
      otherwise neither starts nor ends with whitespace. */
  lemma StripSpec(s: string)
    ensures |Strip(s)| <= |LStrip(s)| <= |s|
    ensures var a := |s| - |LStrip(s)|;
      && a + |Strip(s)| <= |s| && Strip(s) == s[a..a + |Strip(s)|]
      && Blank(s[..a]) && Blank(s[a + |Strip(s)|..])
    ensures Strip(s) == [] <==> Blank(s)
    ensures Strip(s) != [] ==> !IsSpace(Strip(s)[0]) && !IsSpace(Strip(s)[|Strip(s)| - 1])
  {
    LStripSpec(s);
    StripPiece(s);
    StripEmpty(s);
    StripEdges(s);
  }

  lemma StripPiece(s: string)
    ensures |Strip(s)| <= |LStrip(s)| <= |s|
    ensures var a := |s| - |LStrip(s)|;
      && a + |Strip(s)| <= |s| && Strip(s) == s[a..a + |Strip(s)|] && Blank(s[a + |Strip(s)|..])
  {
    StripSlice(s);
    StripTail(s);
  }

  /** The stripped text sits in `s` right after the leading whitespace. */
  lemma StripSlice(s: string)
    ensures |Strip(s)| <= |LStrip(s)| <= |s|
    ensures Strip(s) == s[|s| - |LStrip(s)|..|s| - |LStrip(s)| + |Strip(s)|]
  {
    var l := LStrip(s);
    LStripSuffix(s);
    RStripPrefix(l);
    var a := |s| - |l|;
    assert RStrip(l) == l[..|RStrip(l)|];
    assert l[..|RStrip(l)|] == s[a..a + |RStrip(l)|];
  }

  /** Only whitespace follows the stripped text in `s`. */
  lemma StripTail(s: string)
    ensures |Strip(s)| <= |LStrip(s)| <= |s|
    ensures Blank(s[|s| - |LStrip(s)| + |Strip(s)|..])
  {
    var l := LStrip(s);
    LStripSuffix(s);
    RStripPrefix(l);
    var a := |s| - |l|;
    assert Blank(l[|RStrip(l)|..]);
    assert l[|RStrip(l)|..] == s[a + |RStrip(l)|..];
  }

  lemma StripEmpty(s: string)
    ensures Strip(s) == [] <==> Blank(s)
  {
    var l := LStrip(s);
    LStripSpec(s);
    RStripSpec(l);
    if l != [] {
      assert !IsSpace(l[0]);
    }
  }

  lemma StripEdges(s: string)
    ensures Strip(s) != [] ==> !IsSpace(Strip(s)[0]) && !IsSpace(Strip(s)[|Strip(s)| - 1])
  {
    var l := LStrip(s);
    LStripSpec(s);
    RStripSpec(l);
    if RStrip(l) != [] {
      assert RStrip(l)[0] == l[0];
    }
  }
}
