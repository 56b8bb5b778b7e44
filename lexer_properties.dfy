/** What the tokenizer promises: how words, spaces, control characters, comments, string
    literals and symbols come out of Lex, and how ParseToken classifies a word. */
module LexerProperties {
  import opened Wrappers
  import opened Numerics
  import opened Entities
  import opened Lexer

  /** A character that neither ends nor starts anything: it is added to the pending word,
      or dropped if it is a control character. */
  predicate IsWordChar(c: char) {
    c !in {'#', ' ', '"'} && SingleToken(c).None?
  }

  /** The characters of s that the word buffer keeps. */
  function Visible(s: string): (r: string)
    ensures |r| <= |s|
  {
    if |s| == 0 then ""
    else (if IsControl(s[0]) then "" else [s[0]]) + Visible(s[1..])
  }

  /** A run of word characters with no control character in it. */
  predicate IsPlainText(s: string) {
    forall k :: 0 <= k < |s| ==> IsWordChar(s[k]) && !IsControl(s[k])
  }

  /** A run of word characters only extends the pending word, minus its control characters:
      only a space, a symbol, a quote or a comment ends a word. */
  lemma {:induction false} ScanWordChars(parse: string -> Entity, src: string, i: nat, j: nat, word: string, acc: seq<Entity>)
    requires i <= j <= |src|
    requires forall k :: i <= k < j ==> IsWordChar(src[k])
    ensures Scan(parse, src, i, word, acc) == Scan(parse, src, j, word + Visible(src[i..j]), acc)
    decreases j - i
  {
    if i == j {
      assert word + Visible(src[i..j]) == word;
    } else {
      ScanChar(parse, src, i, word, acc);
      var next := if IsControl(src[i]) then word else word + [src[i]];
      ScanWordChars(parse, src, i + 1, j, next, acc);
      assert src[i..j][1..] == src[i + 1..j];
      assert next + Visible(src[i + 1..j]) == word + Visible(src[i..j]);
    }
  }

  lemma {:induction false} VisiblePlain(s: string)
    requires IsPlainText(s)
    ensures Visible(s) == s
  {
    if |s| > 0 {
      assert IsPlainText(s[1..]) by {
        forall k | 0 <= k < |s[1..]| ensures IsWordChar(s[1..][k]) && !IsControl(s[1..][k]) {
          assert s[1..][k] == s[k + 1];
        }
      }
      VisiblePlain(s[1..]);
      assert [s[0]] + s[1..] == s;
    }
  }

  /** A control character is none of the fifteen symbols. */
  lemma ControlIsNotSymbol(c: char)
    requires IsControl(c)
    ensures SingleToken(c).None? && c !in {'#', ' ', '"'}
  {
  }

  /** Plain text at the start of the source becomes the pending word. */
  lemma PlainPrefix(parse: string -> Entity, src: string, a: string, acc: seq<Entity>)
    requires |a| <= |src| && src[..|a|] == a && IsPlainText(a)
    ensures Scan(parse, src, 0, "", acc) == Scan(parse, src, |a|, a, acc)
  {
    forall k | 0 <= k < |a| ensures IsWordChar(src[k]) {
      assert src[k] == a[k];
    }
    ScanWordChars(parse, src, 0, |a|, "", acc);
    assert src[0..|a|] == a;
    VisiblePlain(a);
    assert "" + a == a;
  }

  /** A control character between word characters is dropped without ending the word:
      "a\tb" is the single word "ab". */
  lemma ControlCharacterDropped(fm: FloatModel, a: string, c: char, b: string)
    requires IsPlainText(a) && IsPlainText(b) && IsControl(c)
    ensures Lex(fm, a + [c] + b) == Ok(Emit(Classifier(fm), a + b))
  {
    ScanControlCharacter(Classifier(fm), a, c, b);
  }

  lemma ScanControlCharacter(parse: string -> Entity, a: string, c: char, b: string)
    requires IsPlainText(a) && IsPlainText(b) && IsControl(c)
    ensures Scan(parse, a + [c] + b, 0, "", []) == Ok(Emit(parse, a + b))
  {
    var src := a + [c] + b;
    assert src[..|a|] == a;
    PlainPrefix(parse, src, a, []);
    assert src[|a|] == c;
    ControlIsNotSymbol(c);
    ScanChar(parse, src, |a|, a, []);
    assert src[|a| + 1..] == b;
    ScanPlainTail(parse, src, |a| + 1, a, []);
    assert [] + Emit(parse, a + b) == Emit(parse, a + b);
  }

  lemma {:induction false} VisibleSplit(s: string, t: string)
    ensures Visible(s + t) == Visible(s) + Visible(t)
  {
    if |s| > 0 {
      assert (s + t)[1..] == s[1..] + t;
      VisibleSplit(s[1..], t);
    } else {
      assert s + t == t;
    }
  }

  /** The scanner from position i over a tail of plain text emits that text as one word. */
  lemma ScanPlainTail(parse: string -> Entity, src: string, i: nat, word: string, acc: seq<Entity>)
    requires i <= |src| && IsPlainText(src[i..])
    ensures Scan(parse, src, i, word, acc) == Ok(acc + Emit(parse, word + src[i..]))
  {
    forall k | i <= k < |src| ensures IsWordChar(src[k]) {
      assert src[k] == src[i..][k - i];
    }
    ScanWordChars(parse, src, i, |src|, word, acc);
    assert src[i..|src|] == src[i..];
    VisiblePlain(src[i..]);
    ScanEnd(parse, src, |src|, word + src[i..], acc);
  }

  // ------------------------------------------------------------------ words and spaces

  /** Words separated by single spaces. */
  function Unwords(ws: seq<string>): string {
    if |ws| == 0 then ""
    else if |ws| == 1 then ws[0]
    else ws[0] + " " + Unwords(ws[1..])
  }

  function ParseAll(parse: string -> Entity, ws: seq<string>): (r: seq<Entity>)
    ensures |r| == |ws|
    ensures forall k :: 0 <= k < |ws| ==> r[k] == parse(ws[k])
  {
    seq(|ws|, k requires 0 <= k < |ws| => parse(ws[k]))
  }

  predicate IsPlainWords(ws: seq<string>) {
    forall k :: 0 <= k < |ws| ==> |ws[k]| > 0 && IsPlainText(ws[k])
  }

  lemma {:induction false} ScanUnwords(parse: string -> Entity, src: string, i: nat, acc: seq<Entity>, ws: seq<string>)
    requires |ws| > 0 && IsPlainWords(ws)
    requires i <= |src| && src[i..] == Unwords(ws)
    ensures Scan(parse, src, i, "", acc) == Ok(acc + ParseAll(parse, ws))
    decreases |ws|
  {
    ParseAllFirst(parse, acc, ws);
    if |ws| == 1 {
      ScanPlainRest(parse, src, i, acc);
    } else {
      var n := |ws[0]|;
      UnwordsLayout(src, i, ws);
      WordThenSpace(parse, src, i, n, acc);
      ScanUnwords(parse, src, i + n + 1, acc + [parse(ws[0])], ws[1..]);
    }
  }

  /** The first word of a list and the rest. */
  lemma ParseAllFirst(parse: string -> Entity, acc: seq<Entity>, ws: seq<string>)
    requires |ws| > 0 && IsPlainWords(ws)
    ensures acc + ParseAll(parse, ws) == acc + [parse(ws[0])] + ParseAll(parse, ws[1..])
    ensures |ws| == 1 ==> acc + ParseAll(parse, ws) == acc + Emit(parse, ws[0])
  {
    assert ParseAll(parse, ws) == [parse(ws[0])] + ParseAll(parse, ws[1..]);
  }

  /** How the text of several words splits at the first space. */
  lemma UnwordsLayout(src: string, i: nat, ws: seq<string>)
    requires |ws| > 0 && IsPlainWords(ws)
    requires i <= |src| && src[i..] == Unwords(ws)
    ensures |ws| == 1 ==> src[i..] == ws[0]
    ensures |ws| > 1 ==> i + |ws[0]| < |src| && src[i..i + |ws[0]|] == ws[0] && src[i + |ws[0]|] == ' '
    ensures |ws| > 1 ==> src[i + |ws[0]| + 1..] == Unwords(ws[1..]) && IsPlainWords(ws[1..])
  {
    if |ws| > 1 {
      var w := ws[0];
      var n := |w|;
      assert src[i..] == w + " " + Unwords(ws[1..]);
      assert src[i..i + n] == src[i..][..n];
      assert src[i + n] == src[i..][n];
      assert src[i + n + 1..] == src[i..][n + 1..];
      assert IsPlainWords(ws[1..]) by {
        forall k | 0 <= k < |ws[1..]| ensures |ws[1..][k]| > 0 && IsPlainText(ws[1..][k]) {
          assert ws[1..][k] == ws[k + 1];
        }
      }
    }
  }

  /** A plain word followed by a space is emitted; the scan resumes after the space with
      nothing pending. */
  lemma WordThenSpace(parse: string -> Entity, src: string, i: nat, n: nat, acc: seq<Entity>)
    requires i + n < |src| && IsPlainText(src[i..i + n]) && src[i + n] == ' '
    ensures Scan(parse, src, i, "", acc) == Scan(parse, src, i + n + 1, "", acc + Emit(parse, src[i..i + n]))
  {
    ScanPlainWord(parse, src, i, n, acc);
    ScanSpace(parse, src, i + n, src[i..i + n], acc);
  }

  /** A plain slice with nothing pending becomes the pending word. */
  lemma ScanPlainWord(parse: string -> Entity, src: string, i: nat, n: nat, acc: seq<Entity>)
    requires i + n <= |src| && IsPlainText(src[i..i + n])
    ensures Scan(parse, src, i, "", acc) == Scan(parse, src, i + n, src[i..i + n], acc)
  {
    PlainSlice(src, i, n);
    ScanWordChars(parse, src, i, i + n, "", acc);
  }

  /** A plain slice is made of word characters, and the word buffer keeps all of it. */
  lemma PlainSlice(src: string, i: nat, n: nat)
    requires i + n <= |src| && IsPlainText(src[i..i + n])
    ensures forall k :: i <= k < i + n ==> IsWordChar(src[k])
    ensures "" + Visible(src[i..i + n]) == src[i..i + n]
  {
    var w := src[i..i + n];
    forall k | i <= k < i + n ensures IsWordChar(src[k]) {
      assert src[k] == w[k - i];
    }
    VisiblePlain(w);
    assert "" + Visible(w) == w;
  }

  /** Words separated by spaces come out one token per word, each classified by
      ParseToken. */
  lemma LexUnwords(fm: FloatModel, ws: seq<string>)
    requires IsPlainWords(ws)
    ensures Lex(fm, Unwords(ws)) == Ok(ParseAll(Classifier(fm), ws))
  {
    var src := Unwords(ws);
    if |ws| == 0 {
      assert src == "";
      ScanEnd(Classifier(fm), src, 0, "", []);
      assert [] + Emit(Classifier(fm), "") == [] == ParseAll(Classifier(fm), ws);
    } else {
      assert src[0..] == src;
      ScanUnwords(Classifier(fm), src, 0, [], ws);
      assert [] + ParseAll(Classifier(fm), ws) == ParseAll(Classifier(fm), ws);
    }
  }

  // ------------------------------------------------------------------ comments

  /** A '#' skips to the next line end and the word around it continues: "ab#c\nd" is the
      single word "abd". */
  lemma CommentKeepsWord(fm: FloatModel, a: string, c: string, b: string)
    requires IsPlainText(a) && IsPlainText(b)
    requires forall k :: 0 <= k < |c| ==> c[k] !in {'\n', '\r'}
    ensures Lex(fm, a + "#" + c + "\n" + b) == Ok(Emit(Classifier(fm), a + b))
  {
    ScanCommented(Classifier(fm), a, c, b);
  }

  lemma ScanCommented(parse: string -> Entity, a: string, c: string, b: string)
    requires IsPlainText(a) && IsPlainText(b)
    requires forall k :: 0 <= k < |c| ==> c[k] !in {'\n', '\r'}
    ensures Scan(parse, Commented(a, c, b), 0, "", []) == Ok(Emit(parse, a + b))
  {
    var src := Commented(a, c, b);
    CommentLayout(a, c, b);
    PlainPrefix(parse, src, a, []);
    CommentThenTail(parse, src, |a|, a, |a| + 1 + |c|);
  }

  function Commented(a: string, c: string, b: string): string {
    a + "#" + c + "\n" + b
  }

  /** Where the pieces of a + '#' + c + '\n' + b sit. */
  lemma CommentLayout(a: string, c: string, b: string)
    requires forall k :: 0 <= k < |c| ==> c[k] !in {'\n', '\r'}
    ensures Commented(a, c, b)[..|a|] == a
    ensures Commented(a, c, b)[|a|] == '#' && Commented(a, c, b)[|a| + 1 + |c|] == '\n'
    ensures forall k :: |a| + 1 <= k < |a| + 1 + |c| ==> Commented(a, c, b)[k] !in {'\n', '\r'}
    ensures Commented(a, c, b)[|a| + 2 + |c|..] == b
  {
    var src := Commented(a, c, b);
    var e := |a| + 1 + |c|;
    assert src[..|a|] == a;
    assert src[e + 1..] == b;
    forall k | |a| + 1 <= k < e ensures src[k] !in {'\n', '\r'} {
      assert src[k] == c[k - |a| - 1];
    }
  }

  /** From a '#' whose line ends at e, followed by plain text to the end: the pending word
      runs on into that text. */
  lemma CommentThenTail(parse: string -> Entity, src: string, i: nat, w: string, e: nat)
    requires i < e < |src| && IsPlainText(src[e + 1..])
    requires src[i] == '#' && src[e] in {'\n', '\r'} && forall k :: i < k < e ==> src[k] !in {'\n', '\r'}
    ensures Scan(parse, src, i, w, []) == Ok(Emit(parse, w + src[e + 1..]))
  {
    LineEndAt(src, i + 1, e);
    calc {
      Scan(parse, src, i, w, []);
      { ScanComment(parse, src, i, w, [], e); }
      Scan(parse, src, e + 1, w, []);
      { ScanPlainTail(parse, src, e + 1, w, []); }
      Ok([] + Emit(parse, w + src[e + 1..]));
      { assert [] + Emit(parse, w + src[e + 1..]) == Emit(parse, w + src[e + 1..]); }
      Ok(Emit(parse, w + src[e + 1..]));
    }
  }

  /** LineEnd finds the first line end. */
  lemma {:induction false} LineEndAt(src: string, j: nat, e: nat)
    requires j <= e < |src| && src[e] in {'\n', '\r'}
    requires forall k :: j <= k < e ==> src[k] !in {'\n', '\r'}
    ensures LineEnd(src, j) == Ok(e)
    decreases e - j
  {
    if j < e {
      LineEndAt(src, j + 1, e);
    }
  }

  /** QuoteEnd finds the first quote. */
  lemma {:induction false} QuoteEndAt(src: string, j: nat, e: nat)
    requires j <= e < |src| && src[e] == '"'
    requires forall k :: j <= k < e ==> src[k] != '"'
    ensures QuoteEnd(src, j) == Ok(e)
    decreases e - j
  {
    if j < e {
      QuoteEndAt(src, j + 1, e);
    }
  }

  /** A comment with no line end after it reads past the end of the text. */
  lemma CommentUnterminated(fm: FloatModel, a: string, c: string)
    requires IsPlainText(a)
    requires forall k :: 0 <= k < |c| ==> c[k] !in {'\n', '\r'}
    ensures Lex(fm, a + "#" + c) == Err(IndexOutOfRange)
  {
    ScanCommentUnterminatedText(Classifier(fm), a, c);
  }

  lemma ScanCommentUnterminatedText(parse: string -> Entity, a: string, c: string)
    requires IsPlainText(a)
    requires forall k :: 0 <= k < |c| ==> c[k] !in {'\n', '\r'}
    ensures Scan(parse, a + "#" + c, 0, "", []) == Err(IndexOutOfRange)
  {
    var src := a + "#" + c;
    assert src[..|a|] == a;
    assert src[|a|] == '#';
    forall k | |a| + 1 <= k < |src| ensures src[k] !in {'\n', '\r'} {
      assert src[k] == c[k - |a| - 1];
    }
    PlainPrefix(parse, src, a, []);
    ScanCommentUnterminated(parse, src, |a|, a, []);
  }

  // ------------------------------------------------------------------ string literals

  /** A quoted run becomes one String literal of its raw characters, with the pending word
      as its prefix. */
  lemma StringLiteralTakesWord(fm: FloatModel, a: string, c: string, b: string)
    requires IsPlainText(a) && IsPlainText(b)
    requires forall k :: 0 <= k < |c| ==> c[k] != '"'
    ensures Lex(fm, a + "\"" + c + "\"" + b) ==
              Ok([Literal(StringOrigin(Some(a + c)))] + Emit(Classifier(fm), b))
  {
    ScanQuoted(Classifier(fm), a, c, b);
  }

  lemma ScanQuoted(parse: string -> Entity, a: string, c: string, b: string)
    requires IsPlainText(a) && IsPlainText(b)
    requires forall k :: 0 <= k < |c| ==> c[k] != '"'
    ensures Scan(parse, Quoted(a, c, b), 0, "", []) == Ok([Literal(StringOrigin(Some(a + c)))] + Emit(parse, b))
  {
    var src := Quoted(a, c, b);
    QuotedLayout(a, c, b);
    PlainPrefix(parse, src, a, []);
    QuoteThenTail(parse, src, |a|, a, |a| + 1 + |c|);
  }

  function Quoted(a: string, c: string, b: string): string {
    a + "\"" + c + "\"" + b
  }

  /** Where the pieces of a + '"' + c + '"' + b sit. */
  lemma QuotedLayout(a: string, c: string, b: string)
    requires forall k :: 0 <= k < |c| ==> c[k] != '"'
    ensures Quoted(a, c, b)[..|a|] == a
    ensures Quoted(a, c, b)[|a|] == '"' && Quoted(a, c, b)[|a| + 1 + |c|] == '"'
    ensures forall k :: |a| + 1 <= k < |a| + 1 + |c| ==> Quoted(a, c, b)[k] != '"'
    ensures Quoted(a, c, b)[|a| + 1..|a| + 1 + |c|] == c
    ensures Quoted(a, c, b)[|a| + 2 + |c|..] == b
  {
    var src := Quoted(a, c, b);
    var e := |a| + 1 + |c|;
    assert src[..|a|] == a;
    assert src[|a| + 1..e] == c;
    assert src[e + 1..] == b;
    forall k | |a| + 1 <= k < e ensures src[k] != '"' {
      assert src[k] == c[k - |a| - 1];
    }
  }

  /** From a quote whose closing quote is at e, followed by plain text to the end. */
  lemma QuoteThenTail(parse: string -> Entity, src: string, i: nat, w: string, e: nat)
    requires i < e < |src| && IsPlainText(src[e + 1..])
    requires src[i] == '"' && src[e] == '"' && forall k :: i < k < e ==> src[k] != '"'
    ensures Scan(parse, src, i, w, []) ==
              Ok([Literal(StringOrigin(Some(w + src[i + 1..e])))] + Emit(parse, src[e + 1..]))
  {
    var lit := [Literal(StringOrigin(Some(w + src[i + 1..e])))];
    calc {
      Scan(parse, src, i, w, []);
      { ScanQuoteFirst(parse, src, i, w, e); }
      Scan(parse, src, e + 1, "", lit);
      { ScanPlainRest(parse, src, e + 1, lit); }
      Ok(lit + Emit(parse, src[e + 1..]));
    }
  }

  lemma ScanQuoteFirst(parse: string -> Entity, src: string, i: nat, w: string, e: nat)
    requires i < e < |src| && src[i] == '"' && src[e] == '"' && forall k :: i < k < e ==> src[k] != '"'
    ensures Scan(parse, src, i, w, []) == Scan(parse, src, e + 1, "", [Literal(StringOrigin(Some(w + src[i + 1..e])))])
  {
    var lit := [Literal(StringOrigin(Some(w + src[i + 1..e])))];
    QuoteEndAt(src, i + 1, e);
    ScanQuote(parse, src, i, w, [], e);
    assert [] + lit == lit;
  }

  /** Plain text from i to the end, with nothing pending, is one more word. */
  lemma ScanPlainRest(parse: string -> Entity, src: string, i: nat, acc: seq<Entity>)
    requires i <= |src| && IsPlainText(src[i..])
    ensures Scan(parse, src, i, "", acc) == Ok(acc + Emit(parse, src[i..]))
  {
    ScanPlainTail(parse, src, i, "", acc);
    assert "" + src[i..] == src[i..];
  }

  /** An unterminated string literal reads past the end of the text. */
  lemma StringLiteralUnterminated(fm: FloatModel, a: string, c: string)
    requires IsPlainText(a)
    requires forall k :: 0 <= k < |c| ==> c[k] != '"'
    ensures Lex(fm, a + "\"" + c) == Err(IndexOutOfRange)
  {
    ScanQuoteUnterminatedText(Classifier(fm), a, c);
  }

  lemma ScanQuoteUnterminatedText(parse: string -> Entity, a: string, c: string)
    requires IsPlainText(a)
    requires forall k :: 0 <= k < |c| ==> c[k] != '"'
    ensures Scan(parse, a + "\"" + c, 0, "", []) == Err(IndexOutOfRange)
  {
    var src := a + "\"" + c;
    assert src[..|a|] == a;
    assert src[|a|] == '"';
    forall k | |a| + 1 <= k < |src| ensures src[k] != '"' {
      assert src[k] == c[k - |a| - 1];
    }
    PlainPrefix(parse, src, a, []);
    ScanQuoteUnterminated(parse, src, |a|, a, []);
  }

  // ------------------------------------------------------------------ symbols

  /** A symbol is not one of the characters the loop tests before the symbol table. */
  lemma SymbolIsNotSpecial(c: char)
    requires SingleToken(c).Some?
    ensures c != '#' && c != ' ' && c != '"'
  {
  }

  /** A symbol ends the pending word and emits its own token. */
  lemma SymbolEndsWord(fm: FloatModel, a: string, c: char, b: string)
    requires IsPlainText(a) && IsPlainText(b) && SingleToken(c).Some?
    requires |b| > 0 ==> b[0] != '='
    ensures Lex(fm, a + [c] + b) == Ok(Emit(Classifier(fm), a) + [Token(SingleToken(c).value)] + Emit(Classifier(fm), b))
  {
    ScanSymbolText(Classifier(fm), a, c, b);
  }

  lemma ScanSymbolText(parse: string -> Entity, a: string, c: char, b: string)
    requires IsPlainText(a) && IsPlainText(b) && SingleToken(c).Some?
    requires |b| > 0 ==> b[0] != '='
    ensures Scan(parse, a + [c] + b, 0, "", []) == Ok(Emit(parse, a) + [Token(SingleToken(c).value)] + Emit(parse, b))
  {
    var src := a + [c] + b;
    var t := Token(SingleToken(c).value);
    assert src[..|a|] == a;
    PlainPrefix(parse, src, a, []);
    assert src[|a|] == c;
    SymbolIsNotSpecial(c);
    if |a| + 1 < |src| {
      assert src[|a| + 1] == b[0];
    }
    ScanSymbol(parse, src, |a|, a, []);
    assert src[|a| + 1..] == b;
    ScanPlainTail(parse, src, |a| + 1, "", [] + Emit(parse, a) + [t]);
    assert "" + b == b;
    assert [] + Emit(parse, a) + [t] == Emit(parse, a) + [t];
  }

  /** A symbol followed by '=' consumes both characters and emits the compound token, or
      nothing for a symbol without one. */
  lemma SymbolEqualsFolded(fm: FloatModel, a: string, c: char, b: string)
    requires IsPlainText(a) && IsPlainText(b) && SingleToken(c).Some?
    ensures Lex(fm, a + [c, '='] + b) == Ok(Emit(Classifier(fm), a) + CompoundTokens(SingleToken(c).value) + Emit(Classifier(fm), b))
  {
    ScanCompoundText(Classifier(fm), a, c, b);
  }

  lemma ScanCompoundText(parse: string -> Entity, a: string, c: char, b: string)
    requires IsPlainText(a) && IsPlainText(b) && SingleToken(c).Some?
    ensures Scan(parse, a + [c, '='] + b, 0, "", []) == Ok(Emit(parse, a) + CompoundTokens(SingleToken(c).value) + Emit(parse, b))
  {
    var src := a + [c, '='] + b;
    var ts := CompoundTokens(SingleToken(c).value);
    assert src[..|a|] == a;
    PlainPrefix(parse, src, a, []);
    assert src[|a|] == c && src[|a| + 1] == '=';
    SymbolIsNotSpecial(c);
    ScanCompound(parse, src, |a|, a, []);
    assert src[|a| + 2..] == b;
    ScanPlainTail(parse, src, |a| + 2, "", [] + Emit(parse, a) + ts);
    assert "" + b == b;
    assert [] + Emit(parse, a) + ts == Emit(parse, a) + ts;
  }

  /** The compound table: exactly the seven symbols "=<>+-*\/" have a compound form. */
  lemma CompoundTable(c: char)
    requires SingleToken(c).Some?
    ensures |CompoundTokens(SingleToken(c).value)| == (if c in "=<>+-*/" then 1 else 0)
    ensures c == '=' ==> CompoundTokens(SingleToken(c).value) == [Token(EqualEqual)]
    ensures c == '<' ==> CompoundTokens(SingleToken(c).value) == [Token(LEqual)]
    ensures c == '>' ==> CompoundTokens(SingleToken(c).value) == [Token(GEqual)]
    ensures c == '+' ==> CompoundTokens(SingleToken(c).value) == [Token(PlusEqual)]
    ensures c == '-' ==> CompoundTokens(SingleToken(c).value) == [Token(MinusEqual)]
    ensures c == '*' ==> CompoundTokens(SingleToken(c).value) == [Token(MulEqual)]
    ensures c == '/' ==> CompoundTokens(SingleToken(c).value) == [Token(DivEqual)]
  {
  }

  // ------------------------------------------------------------------ classification

  /** IsOperator holds exactly for the assignment, compound assignment, comparison,
      arithmetic and logical tags; parentheses and every other tag are excluded. */
  lemma IsOperatorExactly(t: EntityType)
    ensures IsOperator(t) <==>
      t in {EntityType.Equal, EqualEqual, GEqual, LEqual, Greater, Less, PlusEqual, MinusEqual,
            MulEqual, DivEqual, Plus, Minus, Percent, Mul, Div, And, Or}
  {
  }

  /** Boolean.TryParse comes first: "True" and "False" (in any ASCII case) are Boolean
      literals. */
  lemma ParseTokenBoolean(fm: FloatModel, b: bool)
    ensures ParseToken(fm, BoolText(b)) == Literal(BooleanOrigin(b))
  {
    ParseBoolText(b);
  }

  /** The decimal text of an Int64 is an Integer literal of that value. */
  lemma ParseTokenDecimal(fm: FloatModel, i: int)
    requires IsInt64(i)
    ensures ParseToken(fm, DecimalText(i)) == Literal(IntegerOrigin(i))
  {
    var s := DecimalText(i);
    var d := Digits(Abs(i));
    assert s == if i < 0 then "-" + d else d;
    assert s[|s| - 1] == d[|d| - 1];
    assert IsDigit(s[0]) || s[0] == '-';
    TrimNothing(s, IsWhiteSpaceOrNul);
    assert !MatchesIgnoringCase(s, "true") && !MatchesIgnoringCase(s, "false");
    assert ParseBool(s).None?;
    ParseDecimalText(i);
  }

  /** A reserved word in its exact spelling is its keyword token, provided the Double parser
      takes only what Double.TryParse can accept. */
  lemma ParseTokenReserved(fm: FloatModel, w: string)
    requires ParseIsSound(fm) && ReservedToken(w).Some?
    ensures ParseToken(fm, w) == Token(ReservedToken(w).value)
  {
    if w == "AND" { LetterWordIsNotLiteral(fm, "AND"); }
    else if w == "OR" { LetterWordIsNotLiteral(fm, "OR"); }
    else if w == "IF" { LetterWordIsNotLiteral(fm, "IF"); }
    else if w == "WHILE" { LetterWordIsNotLiteral(fm, "WHILE"); }
    else if w == "DEF" { LetterWordIsNotLiteral(fm, "DEF"); }
    else if w == "IMP" { LetterWordIsNotLiteral(fm, "IMP"); }
    else if w == "FOR" { LetterWordIsNotLiteral(fm, "FOR"); }
    else if w == "IN" { LetterWordIsNotLiteral(fm, "IN"); }
    else if w == "BREAK" { LetterWordIsNotLiteral(fm, "BREAK"); }
    else if w == "CONTINUE" { LetterWordIsNotLiteral(fm, "CONTINUE"); }
    else { LetterWordIsNotLiteral(fm, "RETURN"); }
  }

  predicate IsAsciiLetter(c: char) {
    'A' <= c <= 'Z' || 'a' <= c <= 'z'
  }

  /** A word of ASCII letters that does not start with the exponent letter, nor like "true",
      "false", "nan" or "infinity" of its own length, is no literal: ParseToken looks it up
      in the reserved map. */
  lemma LetterWordIsNotLiteral(fm: FloatModel, w: string)
    requires ParseIsSound(fm) && |w| > 0 && forall k :: 0 <= k < |w| ==> IsAsciiLetter(w[k])
    requires w[0] !in {'E', 'e'}
    requires |w| == 3 ==> w[0] !in {'N', 'n'}
    requires |w| == 4 ==> w[0] !in {'T', 't'}
    requires |w| == 5 ==> w[0] !in {'F', 'f'}
    requires |w| == 8 ==> w[0] !in {'I', 'i'}
    ensures ParseToken(fm, w) == if ReservedToken(w).Some? then Token(ReservedToken(w).value) else Word(w)
  {
    assert !MatchesIgnoringCase(w, "true") && !MatchesIgnoringCase(w, "false") by {
      assert |w| == 4 ==> !AsciiLetterMatches(w[0], 't');
      assert |w| == 5 ==> !AsciiLetterMatches(w[0], 'f');
    }
    assert !MayMatch(w, "nan") && !MayMatch(w, "infinity") by {
      assert |w| == 3 ==> !MayMatchChar(w[0], 'n');
      assert |w| == 8 ==> !MayMatchChar(w[0], 'i');
    }
    TrimNothing(w, IsWhiteSpaceOrNul);
    assert ParseBool(w).None?;
    TrimNothing(w, IsNumberWhite);
    assert ParseInt64(w).None? by {
      assert !IsDigit(w[0]) && w[0] != '-' && w[0] != '+';
    }
    NoDecoration(w);
    assert !IsNumberChar(w[0]);
    assert !MayMatch(w, "\U{221E}") by {
      assert !MayMatchChar(w[0], '\U{221E}');
    }
    assert !MayBeNumber(w);
  }

  lemma {:induction false} NoDecoration(s: string)
    requires forall k :: 0 <= k < |s| ==> IsAsciiLetter(s[k])
    ensures WithoutDecoration(s) == s
  {
    if |s| > 0 {
      assert forall k :: 0 <= k < |s[1..]| ==> IsAsciiLetter(s[1..][k]) by {
        forall k | 0 <= k < |s[1..]| ensures IsAsciiLetter(s[1..][k]) {
          assert s[1..][k] == s[k + 1];
        }
      }
      NoDecoration(s[1..]);
      assert [s[0]] + s[1..] == s;
    }
  }

  /** The reserved map is case-sensitive: "while" is an identifier. */
  lemma ParseTokenLowerCaseKeyword(fm: FloatModel)
    requires ParseIsSound(fm)
    ensures ParseToken(fm, "while") == Word("while")
  {
    LetterWordIsNotLiteral(fm, "while");
  }
}
