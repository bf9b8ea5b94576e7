/** The assistant-message renderer of components/message.tsx: the LaTeX
    delimiter rewrite, the test that picks the math-enabled renderer, the
    whitespace-keeping word split of `AnimatedText` and the code renderer.
    The regular expressions are written out as scanners. */
module MessageView {
  import opened Wrappers
  import opened Strings
  import opened Js

  const BlockOpen := "\\["
  const BlockClose := "\\]"
  const InlineOpen := "\\("
  const InlineClose := "\\)"
  const Cursor := "▍"
  const QuotedCursor := "`▍`"
  const LanguagePrefix := "language-"

  /** Some occurrence of `open` is followed, without overlap, by one of
      `close`: the lazy pattern `open([\s\S]*?)close` matches somewhere. */
  ghost predicate ContainsPair(s: string, open: string, close: string) {
    exists i, j :: OccursAt(s, open, i) && i + |open| <= j && OccursAt(s, close, j)
  }

  /** `i` is the first `open` and `j` the first `close` after it: the match a
      lazy, global regular expression finds first. */
  ghost predicate FirstPair(s: string, open: string, close: string, i: int, j: int) {
    && OccursAt(s, open, i)
    && (forall k :: 0 <= k < i ==> !OccursAt(s, open, k))
    && i + |open| <= j
    && OccursAt(s, close, j)
    && (forall k :: i + |open| <= k < j ==> !OccursAt(s, close, k))
  }

  /** Where the first match lies: a pair exists exactly when there is an
      `open` and a `close` after the first `open`, and then those two are
      the first pair. */
  lemma {:induction false} LocatePair(s: string, open: string, close: string)
    requires |open| > 0
    ensures var i := IndexOf(s, open, 0);
            var j := if i < 0 then -1 else IndexOf(s, close, i + |open|);
            && (ContainsPair(s, open, close) <==> j >= 0)
            && (j >= 0 ==> FirstPair(s, open, close, i, j))
  {
    var i := IndexOf(s, open, 0);
    if i < 0 {
      forall a, b ensures !(OccursAt(s, open, a) && a + |open| <= b && OccursAt(s, close, b)) {
        assert !OccursAt(s, open, a);
      }
    } else {
      var j := IndexOf(s, close, i + |open|);
      if j < 0 {
        forall a, b | OccursAt(s, open, a) && a + |open| <= b ensures !OccursAt(s, close, b) {
          assert i <= a;
        }
      } else {
        assert OccursAt(s, open, i) && i + |open| <= j && OccursAt(s, close, j);
      }
    }
  }

  /** `s.replace(/open([\s\S]*?)close/g, (_, e) => wrap + e + wrap)`: the
      leftmost, shortest pair is rewritten, and the scan goes on after its
      closing delimiter, so matches do not overlap. */
  function ReplacePairs(s: string, open: string, close: string, wrap: string): string
    requires |open| > 0
    decreases |s|
  {
    var i := IndexOf(s, open, 0);
    if i < 0 then s
    else
      var j := IndexOf(s, close, i + |open|);
      if j < 0 then s
      else s[..i] + wrap + s[i + |open|..j] + wrap + ReplacePairs(s[j + |close|..], open, close, wrap)
  }

  /** A text with a pair is rewritten at its first pair (the first `open`
      and the first `close` after it), and the scan resumes after that
      `close`. */
  lemma {:induction false} FirstPairRewritten(s: string, open: string, close: string, wrap: string)
    requires |open| > 0 && ContainsPair(s, open, close)
    ensures var i := IndexOf(s, open, 0);
            var j := IndexOf(s, close, i + |open|);
            FirstPair(s, open, close, i, j)
            && ReplacePairs(s, open, close, wrap)
               == s[..i] + wrap + s[i + |open|..j] + wrap + ReplacePairs(s[j + |close|..], open, close, wrap)
  {
    LocatePair(s, open, close);
  }

  /** Text without a delimiter pair is left as it is. */
  lemma {:induction false} NoPairUnchanged(s: string, open: string, close: string, wrap: string)
    requires |open| > 0 && !ContainsPair(s, open, close)
    ensures ReplacePairs(s, open, close, wrap) == s
  {
    LocatePair(s, open, close);
  }

  /** The rewrite changes the text exactly when a pair is present, provided
      the wrapper does not start like the opening delimiter. */
  lemma {:induction false} ReplacePairsChangesIff(s: string, open: string, close: string, wrap: string)
    requires |open| > 0 && |wrap| > 0 && wrap[0] != open[0]
    ensures ReplacePairs(s, open, close, wrap) == s <==> !ContainsPair(s, open, close)
  {
    LocatePair(s, open, close);
    if ContainsPair(s, open, close) {
      var r := ReplacePairs(s, open, close, wrap);
      var i := IndexOf(s, open, 0);
      assert r[i] == wrap[0];
      assert s[i] == s[i..i + |open|][0] == open[0];
    }
  }

  /** `preprocessLaTeX`: `\[E\]` becomes `$$E$$`, then `\(E\)` becomes `$E$`. */
  function PreprocessLaTeX(content: string): string {
    ReplacePairs(ReplacePairs(content, BlockOpen, BlockClose, "$$"), InlineOpen, InlineClose, "$")
  }

  /** The `containsLaTeX` test of `BotMessage`. */
  function ContainsLaTeX(s: string): (r: bool)
    ensures r <==> ContainsPair(s, BlockOpen, BlockClose) || ContainsPair(s, InlineOpen, InlineClose)
  {
    var b := IndexOf(s, BlockOpen, 0);
    var i := IndexOf(s, InlineOpen, 0);
    ReplacePairsChangesIff(s, BlockOpen, BlockClose, "$$");
    ReplacePairsChangesIff(s, InlineOpen, InlineClose, "$");
    (b >= 0 && IndexOf(s, BlockClose, b + 2) >= 0) || (i >= 0 && IndexOf(s, InlineClose, i + 2) >= 0)
  }

  /** Text without a complete delimiter pair passes through unchanged. */
  lemma NoLaTeXUnchanged(s: string)
    requires !ContainsLaTeX(s)
    ensures PreprocessLaTeX(s) == s
  {
  }

  /** Text with a display pair is rewritten. */
  lemma BlockLaTeXRewritten(s: string)
    requires ContainsPair(s, BlockOpen, BlockClose)
    ensures ReplacePairs(s, BlockOpen, BlockClose, "$$") != s
  {
    ReplacePairsChangesIff(s, BlockOpen, BlockClose, "$$");
  }

  /** What `BotMessage` hands to the markdown renderer: the preprocessed
      text with the math plugins when `containsLaTeX` holds, the raw message
      without them otherwise. `overrides` says whether paragraphs, code and
      links are rendered by `AnimatedText`, `RenderCode` and the citation
      component instead of the renderer's defaults. */
  datatype MarkdownInput = MarkdownInput(source: string, math: bool, overrides: bool)

  function BotMessage(message: string): (m: MarkdownInput)
    ensures m.math <==> ContainsLaTeX(message)
    ensures m.overrides <==> !m.math
    ensures m.source == PreprocessLaTeX(message)
  {
    if ContainsLaTeX(message) then MarkdownInput(PreprocessLaTeX(message), true, false)
    else
      NoLaTeXUnchanged(message);
      MarkdownInput(message, false, true)
  }

  function Concat(pieces: seq<string>): string {
    if |pieces| == 0 then "" else pieces[0] + Concat(pieces[1..])
  }

  lemma ConcatTwoAndRest(a: string, b: string, rest: seq<string>)
    ensures Concat([a, b] + rest) == a + b + Concat(rest)
  {
    assert ([a, b] + rest)[1..] == [b] + rest;
    assert ([b] + rest)[1..] == rest;
  }

  /** The end of the run of non-whitespace characters starting at `k`. */
  function WordEnd(s: string, k: nat): (e: nat)
    requires k <= |s|
    ensures k <= e <= |s|
    ensures forall x :: k <= x < e ==> !IsWhitespace(s[x])
    ensures e < |s| ==> IsWhitespace(s[e])
    decreases |s| - k
  {
    if k == |s| || IsWhitespace(s[k]) then k else WordEnd(s, k + 1)
  }

  /** The end of the run of whitespace characters starting at `k`. */
  function SpaceEnd(s: string, k: nat): (e: nat)
    requires k <= |s|
    ensures k <= e <= |s|
    ensures forall x :: k <= x < e ==> IsWhitespace(s[x])
    ensures e < |s| ==> !IsWhitespace(s[e])
    decreases |s| - k
  {
    if k == |s| || !IsWhitespace(s[k]) then k else SpaceEnd(s, k + 1)
  }

  predicate NoWhitespace(s: string) {
    forall x :: 0 <= x < |s| ==> !IsWhitespace(s[x])
  }

  /** Words and whitespace runs alternate, starting and ending with a
      possibly empty word; the runs are maximal, so inner words are not empty. */
  predicate Alternating(r: seq<string>) {
    && |r| % 2 == 1
    && (forall p :: 0 <= p < |r| && p % 2 == 0 ==> NoWhitespace(r[p]))
    && (forall p :: 0 <= p < |r| && p % 2 == 1 ==> r[p] != "" && AllWhitespace(r[p]))
    && (forall p :: 0 < p < |r| - 1 && p % 2 == 0 ==> r[p] != "")
  }

  lemma AlternatingCons(a: string, b: string, rest: seq<string>)
    requires NoWhitespace(a) && b != "" && AllWhitespace(b)
    requires Alternating(rest) && (|rest| > 1 ==> rest[0] != "")
    ensures Alternating([a, b] + rest)
  {
    var r := [a, b] + rest;
    forall p | 2 <= p < |r| ensures r[p] == rest[p - 2] && (p % 2 == (p - 2) % 2) {
    }
  }

  /** `s[k..].split(/(\s+)/)`. */
  function SplitFrom(s: string, k: nat): seq<string>
    requires k <= |s|
    decreases |s| - k
  {
    var e := WordEnd(s, k);
    if e == |s| then [s[k..]]
    else
      var f := SpaceEnd(s, e);
      [s[k..e], s[e..f]] + SplitFrom(s, f)
  }

  /** A text starting with a non-whitespace character starts with a
      non-empty word. */
  lemma {:induction false} SplitFromStartsWithWord(s: string, k: nat)
    requires k < |s| && !IsWhitespace(s[k])
    ensures SplitFrom(s, k)[0] != ""
  {
    assert WordEnd(s, k) > k;
  }

  lemma SliceInThree(s: string, k: nat, e: nat, f: nat)
    requires k <= e <= f <= |s|
    ensures s[k..] == s[k..e] + s[e..f] + s[f..]
  {
  }

  /** The pieces read back as the text. */
  lemma {:induction false} SplitFromConcat(s: string, k: nat)
    requires k <= |s|
    ensures Concat(SplitFrom(s, k)) == s[k..]
    decreases |s| - k
  {
    var e := WordEnd(s, k);
    if e < |s| {
      var f := SpaceEnd(s, e);
      var rest := SplitFrom(s, f);
      assert SplitFrom(s, k) == [s[k..e], s[e..f]] + rest;
      ConcatTwoAndRest(s[k..e], s[e..f], rest);
      SplitFromConcat(s, f);
      SliceInThree(s, k, e, f);
    }
  }

  /** Words and whitespace runs alternate, and the runs are maximal. */
  lemma {:induction false} SplitFromAlternating(s: string, k: nat)
    requires k <= |s|
    ensures Alternating(SplitFrom(s, k))
    decreases |s| - k
  {
    var e := WordEnd(s, k);
    if e < |s| {
      var f := SpaceEnd(s, e);
      var rest := SplitFrom(s, f);
      SplitFromAlternating(s, f);
      if f < |s| {
        SplitFromStartsWithWord(s, f);
      }
      AlternatingCons(s[k..e], s[e..f], rest);
    }
  }

  /** `children.split(/(\s+)/)`: joining the pieces gives the text back. */
  function SplitKeepingSpaces(s: string): (r: seq<string>)
    ensures Concat(r) == s
    ensures Alternating(r)
  {
    SplitFromConcat(s, 0);
    SplitFromAlternating(s, 0);
    SplitFrom(s, 0)
  }

  lemma SplitOfEmpty()
    ensures SplitKeepingSpaces("") == [""]
  {
  }

  /** The children of a paragraph: a plain string, or anything else. */
  datatype Children = TextChildren(text: string) | OtherChildren(nodes: seq<JsValue>)

  datatype AnimatedView = WordSpans(words: seq<string>) | Fragment(children: Children)

  /** `AnimatedText`: a string becomes one span per piece of the split, and
      the spans read back as the original text; anything else is passed
      through untouched. */
  function AnimatedText(c: Children): (v: AnimatedView)
    ensures c.TextChildren? ==> v.WordSpans? && Concat(v.words) == c.text
    ensures c.OtherChildren? ==> v == Fragment(c)
  {
    match c
    case TextChildren(text) => WordSpans(SplitKeepingSpaces(text))
    case OtherChildren(_) => Fragment(c)
  }

  predicate IsWordChar(c: char) {
    ('a' <= c <= 'z') || ('A' <= c <= 'Z') || ('0' <= c <= '9') || c == '_'
  }

  /** The end of the run of `\w` characters starting at `k`. */
  function WordCharsEnd(s: string, k: nat): (e: nat)
    requires k <= |s|
    ensures k <= e <= |s|
    ensures forall x :: k <= x < e ==> IsWordChar(s[x])
    ensures e < |s| ==> !IsWordChar(s[e])
    decreases |s| - k
  {
    if k == |s| || !IsWordChar(s[k]) then k else WordCharsEnd(s, k + 1)
  }

  /** `language-` occurs at `i` and is followed by a word character. */
  predicate LanguageAt(s: string, i: int) {
    OccursAt(s, LanguagePrefix, i) && i + 9 < |s| && IsWordChar(s[i + 9])
  }

  /** `/language-\w/` does not match at or after `from`. */
  ghost predicate NoLanguageFrom(s: string, from: nat) {
    forall i :: from <= i ==> !LanguageAt(s, i)
  }

  /** `i` is the leftmost match of `/language-\w/` at or after `from`. */
  predicate FirstLanguageAt(s: string, from: nat, i: int) {
    from <= i && LanguageAt(s, i) && forall k :: from <= k < i ==> !LanguageAt(s, k)
  }

  /** Where `/language-(\w+)/` matches in `s[from..]`, -1 when it does not. */
  function LanguageMatch(s: string, from: nat): (r: int)
    ensures r == -1 || (from <= r && r + 9 < |s|)
    decreases |s| - from
  {
    var i := IndexOf(s, LanguagePrefix, from);
    if i < 0 then -1
    else if i + 9 < |s| && IsWordChar(s[i + 9]) then i
    else LanguageMatch(s, i + 1)
  }

  /** Occurrences of `language-` before the first one found do not exist. */
  lemma NoLanguageBefore(s: string, from: nat, i: int)
    requires i == IndexOf(s, LanguagePrefix, from)
    ensures forall k :: from <= k && (i < 0 || k < i) ==> !LanguageAt(s, k)
  {
    forall k | from <= k && (i < 0 || k < i) ensures !LanguageAt(s, k) {
      assert !OccursAt(s, LanguagePrefix, k);
    }
  }

  /** The match is found exactly when there is one, and it is the leftmost. */
  lemma {:induction false} LanguageMatchMeaning(s: string, from: nat)
    ensures LanguageMatch(s, from) == -1 <==> NoLanguageFrom(s, from)
    ensures LanguageMatch(s, from) >= 0 ==> FirstLanguageAt(s, from, LanguageMatch(s, from))
    decreases |s| - from
  {
    var i := IndexOf(s, LanguagePrefix, from);
    NoLanguageBefore(s, from, i);
    if i >= 0 {
      if i + 9 < |s| && IsWordChar(s[i + 9]) {
        assert LanguageAt(s, i);
      } else {
        assert !LanguageAt(s, i);
        LanguageMatchMeaning(s, i + 1);
        var m := LanguageMatch(s, i + 1);
        if m < 0 {
          forall k | from <= k ensures !LanguageAt(s, k) {
            if i < k {
              assert NoLanguageFrom(s, i + 1);
            }
          }
        } else {
          assert FirstLanguageAt(s, i + 1, m);
        }
      }
    }
  }

  /** The capture of `/language-(\w+)/` in `s[from..]`, "" when it does not
      match: never empty when there is a match, and then the run of word
      characters after the leftmost one. */
  function LanguageFrom(s: string, from: nat): (r: string)
    ensures r == "" <==> NoLanguageFrom(s, from)
    ensures r != "" ==> FirstLanguageAt(s, from, LanguageMatch(s, from))
                        && r == s[LanguageMatch(s, from) + 9..WordCharsEnd(s, LanguageMatch(s, from) + 9)]
  {
    LanguageMatchMeaning(s, from);
    var m := LanguageMatch(s, from);
    if m < 0 then "" else s[m + 9..WordCharsEnd(s, m + 9)]
  }

  /** `(match && match[1]) || ''` for the class name, absent meaning ''. */
  function LanguageOf(className: Option<string>): (lang: string)
    ensures lang == "" <==> className.None? || NoLanguageFrom(className.value, 0)
  {
    match className
    case None => ""
    case Some(c) => LanguageFrom(c, 0)
  }

  lemma LanguageOfExample()
    ensures LanguageOf(Some("language-ts")) == "ts"
  {
    assert OccursAt("language-ts", LanguagePrefix, 0);
    assert WordCharsEnd("language-ts", 11) == 11;
    assert WordCharsEnd("language-ts", 10) == 11;
    assert WordCharsEnd("language-ts", 9) == 11;
  }

  /** `s.replace(/\n$/, '')`: one final newline is dropped, no more. */
  function StripFinalNewline(s: string): (r: string)
    ensures |s| > 0 && s[|s| - 1] == '\n' ==> s == r + "\n"
    ensures !(|s| > 0 && s[|s| - 1] == '\n') ==> r == s
  {
    if |s| > 0 && s[|s| - 1] == '\n' then s[..|s| - 1] else s
  }

  datatype CodeView =
    | CursorView
    | InlineCode(className: Option<string>, children: seq<string>)
    | CodeBlock(language: string, value: string)

  /** The `code` renderer. A first child equal to the cursor glyph renders
      as the cursor; otherwise the first quoted cursor in the first child is
      unquoted in place, and the children render inline or as a block whose
      value is their `String(...)` without its final newline. */
  method RenderCode(inline: bool, className: Option<string>, children: array<string>)
    returns (view: CodeView)
    modifies children
    ensures children.Length > 0 && old(children[0]) == Cursor ==>
      view == CursorView && children[..] == old(children[..])
    ensures !(children.Length > 0 && old(children[0]) == Cursor) ==>
      && (children.Length > 0 ==> children[..] == old(children[..])[0 := ReplaceFirst(old(children[0]), QuotedCursor, Cursor)])
      && (children.Length == 0 ==> children[..] == old(children[..]))
      && view == if inline then InlineCode(className, children[..])
                 else CodeBlock(LanguageOf(className), StripFinalNewline(Join(children[..], ",")))
  {
    if children.Length > 0 {
      if children[0] == Cursor {
        return CursorView;
      }
      children[0] := ReplaceFirst(children[0], QuotedCursor, Cursor);
    }
    var language := LanguageOf(className);
    if inline {
      view := InlineCode(className, children[..]);
    } else {
      view := CodeBlock(language, StripFinalNewline(Join(children[..], ",")));
    }
  }
}
