/** Command lines as the words they stand for (src/acp-client.js:2035-2096,
    2237-2246). */
module ShellWords {
  import opened Wrappers

  predicate ShellMeta(c: char) {
    c in {';', '&', '|', '<', '>', '(', ')', '$', '`', '\\', '*', '?', '[', ']', '{', '}', '~', '=', '#'}
  }

  // What JavaScript takes for white space, besides the space and the tab.
  predicate OddBlank(c: char) {
    c in {'\n', '\U{0B}', '\U{0C}', '\r', '\U{A0}', '\U{1680}', '\U{2000}', '\U{2001}', '\U{2002}', '\U{2003}',
          '\U{2004}', '\U{2005}', '\U{2006}', '\U{2007}', '\U{2008}', '\U{2009}', '\U{200A}', '\U{2028}',
          '\U{2029}', '\U{202F}', '\U{205F}', '\U{3000}', '\U{FEFF}'}
  }

  predicate Blank(c: char) { c == ' ' || c == '\t' }

  predicate Quote(c: char) { c == '\'' || c == '"' }

  predicate Opaque(c: char) { ShellMeta(c) || OddBlank(c) }

  predicate Transparent(s: string) { forall k | 0 <= k < |s| :: !Opaque(s[k]) }

  predicate Bare(s: string) { forall k | 0 <= k < |s| :: !Blank(s[k]) && !Quote(s[k]) }

  // ----- The tokenizer -----

  // The first c of s at or after from.
  function Find(s: string, c: char, from: nat): (at: Option<nat>)
    ensures at.Some? ==> from <= at.value < |s| && s[at.value] == c
    decreases |s| - from
  {
    if from >= |s| then None else if s[from] == c then Some(from) else Find(s, c, from + 1)
  }

  // The length of the run of characters before a blank.
  function BareLength(s: string): (n: nat)
    ensures n <= |s|
  {
    if s == "" || Blank(s[0]) then 0 else 1 + BareLength(s[1..])
  }

  // The fields of a line: each bare, or quoted from one end to the other.
  function Fields(s: string): Option<seq<string>>
    decreases |s|
  {
    if s == "" then Some([])
    else if Blank(s[0]) then Fields(s[1..])
    else if Quote(s[0]) then
      match Find(s, s[0], 1)
      case None => None
      case Some(end) => if end + 1 < |s| && !Blank(s[end + 1]) then None else Prepend(s[1..end], Fields(s[end + 1..]))
    else
      var stop := BareLength(s);
      if stop == 0 || !Bare(s[..stop]) then None else Prepend(s[..stop], Fields(s[stop..]))
  }

  function Prepend(word: string, rest: Option<seq<string>>): Option<seq<string>> {
    if rest.None? then None else Some([word] + rest.value)
  }

  /** The words of a plain line, or nothing where it may mean more than its words. */
  function Tokenize(line: string): Option<seq<string>> {
    if !Transparent(line) then None
    else
      var fields := Fields(line);
      if fields.None? || fields.value == [] then None else fields
  }

  method TokenizePlainLine(line: string) returns (words: Option<seq<string>>)
    ensures words == Tokenize(line)
  {
    hide Opaque, Blank, Quote, Fields, After;
    if !Transparent(line) { return None; }
    var tokens: seq<string> := [];
    var index := 0;
    assert line[0..] == line;
    AfterNothing(Fields(line));
    while index < |line|
      invariant index <= |line|
      invariant Fields(line) == After(tokens, Fields(line[index..]))
    {
      var first := line[index];
      if Blank(first) {
        FieldsBlank(line, index);
        index := index + 1;
      } else if Quote(first) {
        var end := index + 1;
        while end < |line| && line[end] != first
          invariant index < end <= |line| && forall k | index < k < end :: line[k] != first
        {
          end := end + 1;
        }
        FieldsQuoted(tokens, line, index, end);
        if end == |line| { return None; }
        if end + 1 < |line| && !Blank(line[end + 1]) { return None; }
        tokens := tokens + [line[index + 1..end]];
        index := end + 1;
      } else {
        var stop := index;
        while stop < |line| && !Blank(line[stop])
          invariant index <= stop <= |line| && (forall k | index <= k < stop :: !Blank(line[k]) && !Quote(line[k]))
        {
          if Quote(line[stop]) {
            FieldsMixed(tokens, line, index, stop);
            return None;
          }
          stop := stop + 1;
        }
        FieldsBare(tokens, line, index, stop);
        tokens := tokens + [line[index..stop]];
        index := stop;
      }
    }
    assert line[index..] == "";
    NoFields();
    AfterAll(tokens);
    words := if |tokens| > 0 then Some(tokens) else None;
  }

  // The fields from an index on, by what stands there.
  lemma FieldsBlank(line: string, index: nat)
    requires index < |line| && Blank(line[index])
    ensures Fields(line[index..]) == Fields(line[index + 1..])
  {
    assert line[index..][1..] == line[index + 1..];
  }

  lemma FieldsQuoted(tokens: seq<string>, line: string, index: nat, end: nat)
    requires index < end <= |line| && Quote(line[index]) && !Blank(line[index])
    requires (end < |line| ==> line[end] == line[index]) && forall k | index < k < end :: line[k] != line[index]
    ensures var rest := After(tokens, Fields(line[index..]));
            if end == |line| || (end + 1 < |line| && !Blank(line[end + 1])) then rest == None
            else rest == After(tokens + [line[index + 1..end]], Fields(line[end + 1..]))
  {
    var s := line[index..];
    FindIs(s, s[0], 1, end - index);
    if end < |line| {
      assert s[1..end - index] == line[index + 1..end] && s[end - index + 1..] == line[end + 1..];
      AfterMore(tokens, line[index + 1..end], Fields(line[end + 1..]));
    }
  }

  lemma FieldsMixed(tokens: seq<string>, line: string, index: nat, stop: nat)
    requires index <= stop < |line| && !Quote(line[index]) && Quote(line[stop]) && !Blank(line[stop])
    requires forall k | index <= k < stop :: !Blank(line[k])
    ensures After(tokens, Fields(line[index..])) == None
  {
    var s := line[index..];
    BareHolds(s, stop - index);
    assert Quote(s[..BareLength(s)][stop - index]);
  }

  lemma FieldsBare(tokens: seq<string>, line: string, index: nat, stop: nat)
    requires index < stop <= |line| && (stop < |line| ==> Blank(line[stop]))
    requires forall k | index <= k < stop :: !Blank(line[k]) && !Quote(line[k])
    ensures After(tokens, Fields(line[index..])) == After(tokens + [line[index..stop]], Fields(line[stop..]))
  {
    var s := line[index..];
    BareIs(s, stop - index);
    assert s[..stop - index] == line[index..stop] && s[stop - index..] == line[stop..];
    AfterMore(tokens, line[index..stop], Fields(line[stop..]));
  }

  function After(tokens: seq<string>, rest: Option<seq<string>>): Option<seq<string>> {
    if rest.None? then None else Some(tokens + rest.value)
  }

  lemma AfterNothing(rest: Option<seq<string>>)
    ensures After([], rest) == rest
  {
    if rest.Some? { assert [] + rest.value == rest.value; }
  }

  lemma AfterAll(tokens: seq<string>)
    ensures After(tokens, Some([])) == Some(tokens)
  {
    assert tokens + [] == tokens;
  }

  lemma AfterMore(tokens: seq<string>, word: string, rest: Option<seq<string>>)
    ensures After(tokens, Prepend(word, rest)) == After(tokens + [word], rest)
  {
    if rest.Some? { assert tokens + ([word] + rest.value) == tokens + [word] + rest.value; }
  }

  lemma {:induction false} FindIs(s: string, c: char, from: nat, at: nat)
    requires from <= at <= |s| && (at < |s| ==> s[at] == c) && forall k | from <= k < at :: s[k] != c
    ensures Find(s, c, from) == if at < |s| then Some(at) else None
    decreases at - from
  {
    if from < at { FindIs(s, c, from + 1, at); }
  }

  lemma {:induction false} BareIs(s: string, n: nat)
    requires n <= |s| && (n < |s| ==> Blank(s[n])) && forall k | 0 <= k < n :: !Blank(s[k])
    ensures BareLength(s) == n
  {
    if n > 0 { BareIs(s[1..], n - 1); }
  }

  lemma {:induction false} BareHolds(s: string, n: nat)
    requires n < |s| && forall k | 0 <= k <= n :: !Blank(s[k])
    ensures BareLength(s) > n
  {
    if n > 0 { BareHolds(s[1..], n - 1); }
  }

  // ----- Words as the shell has them -----

  datatype Mode = Unquoted | InSingle | InDouble

  /** Token recognition and quote removal (sections 2.2, 2.3 and 2.6.7 of the Shell
      Command Language, POSIX.1-2017) one character at a time: word is the token so
      far with its quotes removed. Nothing for a line that is not only words, or
      whose words mean more than their characters. */
  function ShellTokens(s: string, word: Option<string>, mode: Mode): Option<seq<string>>
    decreases |s|
  {
    if s == "" then
      if !mode.Unquoted? then None else if word.Some? then Some([word.value]) else Some([])
    else
      var c, rest, sofar := s[0], s[1..], if word.Some? then word.value else "";
      match mode
      case InSingle => if c == '\'' then ShellTokens(rest, Some(sofar), Unquoted)
        else ShellTokens(rest, Some(sofar + [c]), InSingle)
      case InDouble =>
        if c == '"' then ShellTokens(rest, Some(sofar), Unquoted)
        else if c == '$' || c == '`' || c == '\\' then None
        else ShellTokens(rest, Some(sofar + [c]), InDouble)
      case Unquoted =>
        if Blank(c) then (if word.Some? then Prepend(word.value, ShellTokens(rest, None, Unquoted))
          else ShellTokens(rest, None, Unquoted))
        else if c == '\'' then ShellTokens(rest, Some(sofar), InSingle)
        else if c == '"' then ShellTokens(rest, Some(sofar), InDouble)
        else if c == '\\' then (if rest == "" || rest[0] == '\n' then None
          else ShellTokens(rest[1..], Some(sofar + [rest[0]]), Unquoted))
        else if c == '\n' || ShellMeta(c) then None
        else ShellTokens(rest, Some(sofar + [c]), Unquoted)
  }

  lemma {:induction false} BareScan(s: string, rest: string, word: string)
    requires Bare(s) && Transparent(s)
    ensures ShellTokens(s + rest, Some(word), Unquoted) == ShellTokens(rest, Some(word + s), Unquoted)
    decreases |s|
  {
    if s == "" {
      assert s + rest == rest && word + s == word;
    } else {
      assert (s + rest)[1..] == s[1..] + rest && word + [s[0]] + s[1..] == word + s;
      BareScan(s[1..], rest, word + [s[0]]);
    }
  }

  lemma {:induction false} QuotedScan(q: char, s: string, rest: string, word: string)
    requires Quote(q) && Transparent(s) && forall k | 0 <= k < |s| :: s[k] != q
    ensures ShellTokens(s + [q] + rest, Some(word), if q == '"' then InDouble else InSingle)
         == ShellTokens(rest, Some(word + s), Unquoted)
    decreases |s|
  {
    var mode := if q == '"' then InDouble else InSingle;
    if s == "" {
      assert s + [q] + rest == [q] + rest && word + s == word;
    } else {
      assert (s + [q] + rest)[1..] == s[1..] + [q] + rest && word + [s[0]] + s[1..] == word + s;
      QuotedScan(q, s[1..], rest, word + [s[0]]);
    }
  }

  // The first word starts with its first character.
  lemma WordStarts(s: string)
    requires s != "" && !Blank(s[0]) && !Quote(s[0]) && !Opaque(s[0])
    ensures ShellTokens(s, None, Unquoted) == ShellTokens(s, Some(""), Unquoted)
  {
  }

  lemma WordEnds(rest: string, word: string)
    requires rest == "" || Blank(rest[0])
    ensures ShellTokens(rest, Some(word), Unquoted) == Prepend(word, ShellTokens(rest, None, Unquoted))
  {
    assert [word] + [] == [word];
  }

  lemma {:induction false} BareRun(s: string)
    ensures var n := BareLength(s); (n < |s| ==> Blank(s[n])) && forall k | 0 <= k < n :: !Blank(s[k])
  {
    if s != "" && !Blank(s[0]) { BareRun(s[1..]); }
  }

  lemma {:induction false} FindIsFirst(s: string, c: char, from: nat)
    requires from <= |s|
    ensures var at := Find(s, c, from); forall k | from <= k < if at.Some? then at.value else |s| :: s[k] != c
    decreases |s| - from
  {
    if from < |s| && s[from] != c { FindIsFirst(s, c, from + 1); }
  }

  lemma {:induction false} FieldsAreTokens(s: string)
    requires Transparent(s) && Fields(s).Some?
    ensures ShellTokens(s, None, Unquoted) == Fields(s)
    decreases |s|
  {
    hide Opaque, ShellTokens;
    if s == "" {
      NoTokens();
    } else if Blank(s[0]) {
      BlankSkips(s);
      FieldsAreTokens(s[1..]);
    } else if Quote(s[0]) {
      var end := Find(s, s[0], 1).value;
      FindIsFirst(s, s[0], 1);
      QuoteOpens(s);
      assert s[1..] == s[1..end] + [s[0]] + s[end + 1..];
      QuotedScan(s[0], s[1..end], s[end + 1..], "");
      assert "" + s[1..end] == s[1..end];
      WordEnds(s[end + 1..], s[1..end]);
      FieldsAreTokens(s[end + 1..]);
    } else {
      var n := BareLength(s);
      BareRun(s);
      WordStarts(s);
      BareScan(s[..n], s[n..], "");
      assert s == s[..n] + s[n..] && "" + s[..n] == s[..n];
      WordEnds(s[n..], s[..n]);
      FieldsAreTokens(s[n..]);
    }
  }

  lemma NoTokens()
    ensures ShellTokens("", None, Unquoted) == Some([])
  {
  }

  lemma BlankSkips(s: string)
    requires s != "" && Blank(s[0])
    ensures ShellTokens(s, None, Unquoted) == ShellTokens(s[1..], None, Unquoted)
  {
  }

  lemma QuoteOpens(s: string)
    requires s != "" && Quote(s[0])
    ensures ShellTokens(s, None, Unquoted) == ShellTokens(s[1..], Some(""), if s[0] == '"' then InDouble else InSingle)
  {
  }

  /** Whenever the tokenizer answers, its words are the shell's. */
  lemma WordsAreTheShells(line: string)
    requires Tokenize(line).Some?
    ensures ShellTokens(line, None, Unquoted) == Tokenize(line)
  {
    FieldsAreTokens(line);
  }

  /** A line with any of the shell's operators, expansions, escapes and comments, or any
      blank but the space and the tab, means more than its words wherever it stands. */
  lemma SyntaxIsRefused(line: string, k: nat)
    requires k < |line|
    requires || line[k] in {';', '&', '|', '<', '>', '(', ')', '$', '`', '\\', '*', '?', '[', ']', '{', '}', '~', '=',
                            '#'}
             || line[k] in {'\n', '\r', '\U{0B}', '\U{0C}', '\U{A0}', '\U{1680}', '\U{2028}', '\U{2029}', '\U{202F}',
                            '\U{205F}', '\U{3000}', '\U{FEFF}'}
             || '\U{2000}' <= line[k] <= '\U{200A}'
    ensures Tokenize(line) == None
  {
    assert Opaque(line[k]);
  }

  /** And no other character is: alone it is a word, unless it separates or quotes words. */
  lemma OthersAreWords(c: char)
    requires c !in {';', '&', '|', '<', '>', '(', ')', '$', '`', '\\', '*', '?', '[', ']', '{', '}', '~', '=', '#'}
    requires c !in {'\n', '\r', '\U{0B}', '\U{0C}', '\U{A0}', '\U{1680}', '\U{2028}', '\U{2029}', '\U{202F}',
                    '\U{205F}', '\U{3000}', '\U{FEFF}'} && !('\U{2000}' <= c <= '\U{200A}')
    ensures Tokenize([c]) == if c in {' ', '\t', '\'', '"'} then None else Some([[c]])
  {
    assert !Opaque(c);
    var s := [c];
    assert s[1..] == "" && Fields("") == Some([]);
    if c == '\'' || c == '"' {
      FindIs(s, c, 1, 1);
    } else if c != ' ' && c != '\t' {
      BareIs(s, 1);
      assert Bare(s) && s[..1] == s && [s] + [] == [s];
      assert Fields(s) == Prepend(s[..1], Fields(s[1..]));
    }
  }

  // ----- What Main reads -----

  predicate Spelled(c: char) {
    'a' <= c <= 'z' || 'A' <= c <= 'Z' || '0' <= c <= '9' || c in {'_', '@', '%', '+', '=', ':', ',', '.', '/', '-'}
  }

  /** A word is spelled without quotes exactly where it has characters, and only letters,
      digits and ten others: % + , - . / : = @ and the underscore. */
  lemma SpelledExactly(word: string)
    ensures Spell(word) == word <==> word != "" && forall k | 0 <= k < |word| :: PlainCode(word[k] as int)
  {
    forall c: char ensures Spelled(c) <==> PlainCode(c as int) { SpelledIs(c); }
    EscapedGrows(word);
    hide Spelled, Escaped, PlainCode;
    assert !Simple(word) ==> |Spell(word)| > |word|;
  }

  predicate PlainCode(code: int) {
    || 0x61 <= code < 0x7B || 0x41 <= code < 0x5B || 0x2B <= code < 0x3B
    || code in {0x25, 0x3D, 0x40, 0x5F}
  }

  lemma SpelledIs(c: char)
    ensures Spelled(c) <==> PlainCode(c as int)
  {}

  lemma {:induction false} EscapedGrows(word: string)
    ensures |Escaped(word)| >= |word|
  {
    if word != "" { EscapedGrows(word[1..]); }
  }

  // Each single quote as an end of the quotes, an escaped one, and a new start.
  function EscapedChar(c: char): string { if c == '\'' then "'\\''" else [c] }

  function Escaped(word: string): string {
    if word == "" then "" else EscapedChar(word[0]) + Escaped(word[1..])
  }

  predicate Simple(word: string) { word != "" && forall k | 0 <= k < |word| :: Spelled(word[k]) }

  function Spell(word: string): string { if Simple(word) then word else "'" + Escaped(word) + "'" }

  function Display(words: seq<string>): string {
    if words == [] then ""
    else if |words| == 1 then Spell(words[0])
    else Spell(words[0]) + " " + Display(words[1..])
  }

  predicate PlainWord(word: string) { forall k | 0 <= k < |word| :: word[k] != '\'' && !Opaque(word[k]) }

  predicate PlainWords(words: seq<string>) { forall i | 0 <= i < |words| :: PlainWord(words[i]) }

  lemma {:induction false} EscapesNothing(word: string)
    requires PlainWord(word)
    ensures Escaped(word) == word
  {
    if word != "" { EscapesNothing(word[1..]); }
  }

  lemma TransparentConcat(a: string, b: string)
    ensures Transparent(a + b) <==> Transparent(a) && Transparent(b)
  {
    hide Opaque;
    if Transparent(a + b) {
      assert forall k | 0 <= k < |a| :: a[k] == (a + b)[k];
      assert forall k | 0 <= k < |b| :: b[k] == (a + b)[|a| + k];
    }
  }

  lemma Marks()
    ensures !Opaque('\'') && !Opaque(' ') && Opaque('\\')
  {
  }

  lemma CharKeeps(c: char)
    ensures Transparent(EscapedChar(c)) <==> c != '\'' && !Opaque(c)
  {
    Marks();
    hide Opaque;
    var e := EscapedChar(c);
    if c == '\'' {
      assert e[1] == '\\' && Opaque(e[1]);
    } else {
      assert e[0] == c && forall k | 0 <= k < |e| :: e[k] == c;
    }
  }

  lemma NothingOpaque()
    ensures Transparent("")
  {}

  lemma {:induction false} EscapedKeeps(word: string)
    ensures Transparent(Escaped(word)) <==> PlainWord(word)
  {
    hide Opaque, Transparent, EscapedChar;
    if word == "" {
      assert Transparent("") by { NothingOpaque(); }
    } else {
      EscapedKeeps(word[1..]);
      assert PlainWord(word) <==> word[0] != '\'' && !Opaque(word[0]) && PlainWord(word[1..]);
      TransparentConcat(EscapedChar(word[0]), Escaped(word[1..]));
      CharKeeps(word[0]);
    }
  }

  lemma SpellKeeps(word: string)
    ensures Transparent(Spell(word)) <==> PlainWord(word)
  {
    Marks();
    EscapedKeeps(word);
    TransparentConcat("'" + Escaped(word), "'");
    TransparentConcat("'", Escaped(word));
    if Simple(word) { assert forall k | 0 <= k < |word| :: word[k] != '\''; }
    hide Opaque, Spelled, Escaped;
  }

  lemma {:induction false} DisplayKeeps(words: seq<string>)
    ensures Transparent(Display(words)) <==> PlainWords(words)
  {
    hide Opaque, PlainWord, Spell;
    if words != [] {
      Marks();
      SpellKeeps(words[0]);
      DisplayKeeps(words[1..]);
      TransparentConcat(Spell(words[0]) + " ", Display(words[1..]));
      TransparentConcat(Spell(words[0]), " ");
      assert PlainWords(words) <==> PlainWord(words[0]) && PlainWords(words[1..]);
    }
  }

  lemma SimpleIsBare(word: string)
    requires Simple(word)
    ensures Bare(word)
  {
  }

  lemma SimpleIsField(word: string, rest: string)
    requires Simple(word) && (rest == "" || Blank(rest[0]))
    ensures Fields(word + rest) == Prepend(word, Fields(rest))
  {
    hide Opaque, Spelled, Prepend, BareLength, Find;
    var s := word + rest;
    SimpleIsBare(word);
    BareIs(s, |word|);
    assert s[..|word|] == word && s[|word|..] == rest;
  }

  lemma QuotedIsField(word: string, rest: string)
    requires PlainWord(word) && (rest == "" || Blank(rest[0]))
    ensures Fields("'" + word + "'" + rest) == Prepend(word, Fields(rest))
  {
    hide Opaque, Prepend, BareLength, Find;
    var s := "'" + word + "'" + rest;
    FindIs(s, '\'', 1, |word| + 1);
    assert s[1..|word| + 1] == word && s[|word| + 2..] == rest;
  }

  // A word as Main reads it, with more of the line behind it, is one field.
  lemma SpellIsField(word: string, rest: string)
    requires PlainWord(word) && (rest == "" || Blank(rest[0]))
    ensures Fields(Spell(word) + rest) == Prepend(word, Fields(rest))
  {
    hide Fields, Prepend, PlainWord, Simple, Escaped;
    EscapesNothing(word);
    if Simple(word) { SimpleIsField(word, rest); } else { QuotedIsField(word, rest); }
  }

  lemma {:induction false} DisplayFields(words: seq<string>)
    requires PlainWords(words)
    ensures Fields(Display(words)) == Some(words)
  {
    hide PlainWord, Spell, Fields;
    NoFields();
    if words != [] {
      if |words| == 1 {
        SpellIsField(words[0], "");
        assert Spell(words[0]) + "" == Spell(words[0]) && words == [words[0]] + [];
      } else {
        SpellIsField(words[0], " " + Display(words[1..]));
        BlankField(Display(words[1..]));
        assert Spell(words[0]) + " " + Display(words[1..]) == Spell(words[0]) + (" " + Display(words[1..]));
        DisplayFields(words[1..]);
        assert words == [words[0]] + words[1..];
      }
    }
  }

  lemma NoFields()
    ensures Fields("") == Some([])
  {
  }

  lemma BlankField(rest: string)
    ensures Fields(" " + rest) == Fields(rest)
  {
    assert (" " + rest)[1..] == rest;
  }

  /** What Main reads tokenizes to the words it spells if and only if no word
      holds a single quote, shell syntax or an odd blank; else to nothing. */
  lemma DisplayRoundTrips(words: seq<string>)
    requires words != []
    ensures Tokenize(Display(words)) == if PlainWords(words) then Some(words) else None
  {
    hide PlainWords, Transparent, Display, Fields;
    DisplayKeeps(words);
    if PlainWords(words) { DisplayFields(words); }
  }

  // A word in quotes is read to its last quote, quotes in it and all.
  lemma {:induction false} EscapedScan(word: string, rest: string, sofar: string)
    ensures ShellTokens(Escaped(word) + ("'" + rest), Some(sofar), InSingle)
         == ShellTokens(rest, Some(sofar + word), Unquoted)
  {
    hide ShellTokens, EscapedChar;
    if word == "" {
      assert Escaped(word) + ("'" + rest) == "'" + rest && sofar + word == sofar;
      QuoteCloses(rest, sofar);
    } else {
      var more := Escaped(word[1..]) + ("'" + rest);
      assert sofar + [word[0]] + word[1..] == sofar + word;
      EscapedScan(word[1..], rest, sofar + [word[0]]);
      CharScan(word[0], more, sofar);
      assert Escaped(word) + ("'" + rest) == EscapedChar(word[0]) + more;
    }
  }

  lemma QuoteCloses(rest: string, sofar: string)
    ensures ShellTokens("'" + rest, Some(sofar), InSingle) == ShellTokens(rest, Some(sofar), Unquoted)
  {
    assert ("'" + rest)[1..] == rest;
  }

  lemma CharScan(c: char, rest: string, sofar: string)
    ensures ShellTokens(EscapedChar(c) + rest, Some(sofar), InSingle)
         == ShellTokens(rest, Some(sofar + [c]), InSingle)
  {
    var s := EscapedChar(c) + rest;
    if c == '\'' {
      assert s[1..] == "\\''" + rest && s[1..][1..] == "''" + rest && s[1..][1..][1..] == "'" + rest;
      assert s[1..][1..][1..][1..] == rest;
      assert ShellTokens(s, Some(sofar), InSingle) == ShellTokens(s[1..], Some(sofar), Unquoted);
      assert ShellTokens(s[1..], Some(sofar), Unquoted) == ShellTokens(s[1..][1..][1..], Some(sofar + [c]), Unquoted);
    } else {
      assert s[1..] == rest;
    }
  }

  // A word without quotes is read to its end, or not at all where it may assign.
  lemma {:induction false} SimpleScan(word: string, rest: string, sofar: string)
    requires forall k | 0 <= k < |word| :: Spelled(word[k])
    ensures ShellTokens(word + rest, Some(sofar), Unquoted)
         == if '=' in word then None else ShellTokens(rest, Some(sofar + word), Unquoted)
  {
    if word == "" {
      assert word + rest == rest && sofar + word == sofar;
    } else {
      assert word == [word[0]] + word[1..] && (word + rest)[1..] == word[1..] + rest;
      SpelledPlain(word[0]);
      hide Spelled, Blank, ShellMeta;
      if word[0] == '=' {
        assert ShellMeta('=') by { SpelledPlain('='); }
      } else {
        assert sofar + [word[0]] + word[1..] == sofar + word;
        SimpleScan(word[1..], rest, sofar + [word[0]]);
      }
    }
  }

  lemma SpelledPlain(c: char)
    ensures Spelled(c) ==> !Blank(c) && c !in {'\'', '"', '\\', '\n'} && (ShellMeta(c) <==> c == '=')
    ensures ShellMeta('=')
  {}

  // Whether the shell reads the word as it is spelled, and not as an assignment.
  predicate Safe(word: string) { Simple(word) ==> '=' !in word }

  lemma SpellScan(word: string, rest: string)
    ensures ShellTokens(Spell(word) + rest, None, Unquoted)
         == if Safe(word) then ShellTokens(rest, Some(word), Unquoted) else None
  {
    hide Spelled, Escaped;
    assert "" + word == word;
    if Simple(word) {
      SimpleScan(word, rest, "");
      SpelledPlain(word[0]);
      FirstStarts(word + rest);
    } else {
      EscapedScan(word, rest, "");
      var s := "'" + Escaped(word) + "'" + rest;
      assert s[1..] == Escaped(word) + ("'" + rest);
      QuoteOpens(s);
    }
  }

  lemma FirstStarts(s: string)
    requires s != "" && !Blank(s[0])
    ensures ShellTokens(s, None, Unquoted) == ShellTokens(s, Some(""), Unquoted)
  {}

  /** What Main reads is what a shell would make those words of, whatever they hold, if
      and only if none is spelled without quotes and holds an equals sign. */
  lemma {:induction false} DisplayIsTheShells(words: seq<string>)
    ensures ShellTokens(Display(words), None, Unquoted)
         == if forall word | word in words :: Safe(word) then Some(words) else None
  {
    hide Spell, ShellTokens, Safe;
    NoTokens();
    if words != [] {
      var rest := if |words| == 1 then "" else " " + Display(words[1..]);
      assert words == [words[0]] + words[1..];
      assert Display(words) == Spell(words[0]) + rest;
      SpellScan(words[0], rest);
      WordEnds(rest, words[0]);
      if |words| > 1 {
        BlankSkips(rest);
        assert rest[1..] == Display(words[1..]);
        DisplayIsTheShells(words[1..]);
      } else {
        assert words == [words[0]] + [];
      }
    }
  }
}
